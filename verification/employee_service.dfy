/** The employee service: the login guard chain, and the records that
    `save`, `startOrStop`, `getById` and `update` build or mask before
    handing them to the employee mapper. Java's nullable fields are
    `Option`s; the mapper lookups, the MD5 digest, the clock and the
    thread-local current user id are inputs. */
module EmployeeService {
  import opened Wrappers

  /** Account status codes: 1 enabled, 0 locked. */
  const ENABLE: int := 1
  const DISABLE: int := 0

  /** The password every new account starts with. */
  const DefaultPassword: string := "123456"

  /** What `getById` shows instead of the stored hash. */
  const MaskedPassword: string := "****"

  /** The `employee` row; every field may be null. Times are instants in
      nanoseconds since the epoch, ids are `Long`s. */
  datatype Employee = Employee(
    id: Option<int>,
    username: Option<string>,
    name: Option<string>,
    password: Option<string>,
    phone: Option<string>,
    sex: Option<string>,
    idNumber: Option<string>,
    status: Option<int>,
    createTime: Option<int>,
    updateTime: Option<int>,
    createUser: Option<int>,
    updateUser: Option<int>)

  /** `new Employee()`: every field null. */
  const NoFields: Employee :=
    Employee(None, None, None, None, None, None, None, None, None, None, None, None)

  /** The form submitted to create or edit an employee. */
  datatype EmployeeDTO = EmployeeDTO(
    id: Option<int>,
    username: Option<string>,
    name: Option<string>,
    phone: Option<string>,
    sex: Option<string>,
    idNumber: Option<string>)

  /** The login form. */
  datatype EmployeeLoginDTO = EmployeeLoginDTO(username: string, password: string)

  /** The three exceptions login can throw. */
  datatype LoginError = AccountNotFound | PasswordError | AccountLocked

  /** `getById` dereferences the looked-up record without a null check. */
  datatype LookupError = NullRecord

  /** `BeanUtils.copyProperties(dto, employee)`: the properties both have in
      common are copied over, nulls included; the others keep their value. */
  function CopyProperties(dto: EmployeeDTO, target: Employee): (e: Employee)
    ensures CopiedFrom(e, dto)
    ensures e.password == target.password && e.status == target.status
    ensures e.createTime == target.createTime && e.updateTime == target.updateTime
    ensures e.createUser == target.createUser && e.updateUser == target.updateUser
  {
    target.(id := dto.id, username := dto.username, name := dto.name,
            phone := dto.phone, sex := dto.sex, idNumber := dto.idNumber)
  }

  /** The fields a record takes from the form. */
  predicate CopiedFrom(e: Employee, dto: EmployeeDTO) {
    && e.id == dto.id && e.username == dto.username && e.name == dto.name
    && e.phone == dto.phone && e.sex == dto.sex && e.idNumber == dto.idNumber
  }

  /** The stored record accepts `password` when it holds that password's digest. */
  predicate PasswordMatches(e: Employee, password: string, digest: string -> string) {
    e.password == Some(digest(password))
  }

  /** `login`: look the user up, then reject in a fixed order: unknown
      username, wrong password, locked account. */
  function Login(dto: EmployeeLoginDTO, byUsername: string -> Option<Employee>,
                 digest: string -> string): (r: Result<Employee, LoginError>)
    ensures r == Failure(AccountNotFound) <==> byUsername(dto.username).None?
    ensures r == Failure(PasswordError) <==>
      byUsername(dto.username).Some? && !PasswordMatches(byUsername(dto.username).value, dto.password, digest)
    ensures r == Failure(AccountLocked) <==>
      && byUsername(dto.username).Some?
      && PasswordMatches(byUsername(dto.username).value, dto.password, digest)
      && byUsername(dto.username).value.status == Some(DISABLE)
    ensures r.Success? ==> byUsername(dto.username) == Some(r.value)
  {
    match byUsername(dto.username)
    case None => Failure(AccountNotFound)
    case Some(employee) =>
      var password := digest(dto.password);
      if Some(password) != employee.password then Failure(PasswordError)
      else if employee.status == Some(DISABLE) then Failure(AccountLocked)
      else Success(employee)
  }

  /** An unknown username is rejected before any digest is computed: the
      outcome does not depend on the digest at all. */
  lemma UnknownUserIgnoresDigest(dto: EmployeeLoginDTO, byUsername: string -> Option<Employee>,
                                 digest1: string -> string, digest2: string -> string)
    requires byUsername(dto.username).None?
    ensures Login(dto, byUsername, digest1) == Login(dto, byUsername, digest2) == Failure(AccountNotFound)
  {
  }

  /** The password check comes before the lock check: a locked account with
      a wrong password reports the wrong password. */
  lemma LockedWithWrongPasswordIsPasswordError(dto: EmployeeLoginDTO, byUsername: string -> Option<Employee>,
                                               digest: string -> string)
    requires byUsername(dto.username).Some?
    requires byUsername(dto.username).value.status == Some(DISABLE)
    requires !PasswordMatches(byUsername(dto.username).value, dto.password, digest)
    ensures Login(dto, byUsername, digest) == Failure(PasswordError)
  {
  }

  /** What `save` guarantees about a new account's credentials. */
  predicate FreshAccount(e: Employee, digest: string -> string) {
    e.status == Some(ENABLE) && PasswordMatches(e, DefaultPassword, digest)
  }

  /** `save`: the record inserted for a new employee. It takes the form's
      fields, is enabled, carries the digest of the default password, and
      names the current user as both creator and last editor. The two
      timestamps come from two separate clock readings. */
  method Save(dto: EmployeeDTO, currentId: Option<int>, createdAt: int, updatedAt: int,
              digest: string -> string) returns (employee: Employee)
    ensures CopiedFrom(employee, dto)
    ensures FreshAccount(employee, digest)
    ensures employee.createTime == Some(createdAt) && employee.updateTime == Some(updatedAt)
    ensures employee.createUser == currentId && employee.updateUser == currentId
  {
    employee := NoFields;
    employee := CopyProperties(dto, employee);
    employee := employee.(status := Some(ENABLE));
    employee := employee.(password := Some(digest(DefaultPassword)));
    employee := employee.(createTime := Some(createdAt));
    employee := employee.(updateTime := Some(updatedAt));
    employee := employee.(createUser := currentId);
    employee := employee.(updateUser := currentId);
  }

  /** A newly saved employee logs in with the default password. */
  lemma FreshAccountLogsIn(e: Employee, byUsername: string -> Option<Employee>,
                           digest: string -> string, username: string)
    requires FreshAccount(e, digest) && byUsername(username) == Some(e)
    ensures Login(EmployeeLoginDTO(username, DefaultPassword), byUsername, digest) == Success(e)
  {
  }

  /** `startOrStop`: the record sent to the mapper carries the id and the
      new status and nothing else. */
  function StatusPatch(status: int, id: int): (e: Employee)
    ensures e.id == Some(id) && e.status == Some(status)
    ensures OnlyIdAndStatus(e)
  {
    NoFields.(status := Some(status), id := Some(id))
  }

  predicate OnlyIdAndStatus(e: Employee) {
    && e.username.None? && e.name.None? && e.password.None? && e.phone.None?
    && e.sex.None? && e.idNumber.None? && e.createTime.None? && e.updateTime.None?
    && e.createUser.None? && e.updateUser.None?
  }

  /** `getById`: the looked-up record with its password hash replaced by
      `****`; every other field as stored. A missing record is
      dereferenced and throws. */
  method GetById(stored: Option<Employee>) returns (r: Result<Employee, LookupError>)
    ensures r.Failure? <==> stored.None?
    ensures r.Success? ==> r.value.password == Some(MaskedPassword)
    ensures r.Success? ==> r.value.(password := stored.value.password) == stored.value
  {
    if stored.None? {
      return Failure(NullRecord);
    }
    var employee := stored.value;
    employee := employee.(password := Some(MaskedPassword));
    r := Success(employee);
  }

  /** `update`: the record sent to the mapper carries the form's fields, the
      edit time and the editor; password, status, creation time and
      creator stay null. */
  method Update(dto: EmployeeDTO, currentId: Option<int>, updatedAt: int) returns (employee: Employee)
    ensures CopiedFrom(employee, dto)
    ensures employee.updateTime == Some(updatedAt) && employee.updateUser == currentId
    ensures employee.password.None? && employee.status.None?
    ensures employee.createTime.None? && employee.createUser.None?
  {
    employee := NoFields;
    employee := CopyProperties(dto, employee);
    employee := employee.(updateTime := Some(updatedAt));
    employee := employee.(updateUser := currentId);
  }

  /** A non-null new value replaces the old one; null leaves it. */
  function Overlay<T>(patch: Option<T>, current: Option<T>): Option<T> {
    if patch.Some? then patch else current
  }

  /** One column after a mapper update: written when the record's field is
      set, kept when it is null. */
  predicate Written<T(==)>(after: Option<T>, patch: Option<T>, before: Option<T>) {
    && (patch.None? ==> after == before)
    && (patch.Some? ==> after == patch)
  }

  /** The row an update record addresses: the one whose id it carries. A
      record without an id matches no row. */
  predicate Addresses(patch: Employee, row: Employee) {
    patch.id.Some? && patch.id == row.id
  }

  /** The employee mapper's `update`, as the service relies on it: the
      record's id selects the row and is never written; on that row a
      column is written only when the record's field is not null. Any other
      row is left as it was. */
  function ApplyUpdate(row: Employee, patch: Employee): (r: Employee)
    ensures r.id == row.id
    ensures !Addresses(patch, row) ==> r == row
    ensures Addresses(patch, row) ==>
      && Written(r.username, patch.username, row.username)
      && Written(r.name, patch.name, row.name)
      && Written(r.password, patch.password, row.password)
      && Written(r.phone, patch.phone, row.phone)
      && Written(r.sex, patch.sex, row.sex)
      && Written(r.idNumber, patch.idNumber, row.idNumber)
      && Written(r.status, patch.status, row.status)
      && Written(r.createTime, patch.createTime, row.createTime)
      && Written(r.updateTime, patch.updateTime, row.updateTime)
      && Written(r.createUser, patch.createUser, row.createUser)
      && Written(r.updateUser, patch.updateUser, row.updateUser)
  {
    if !Addresses(patch, row) then row
    else
      Employee(
        row.id,
        Overlay(patch.username, row.username),
        Overlay(patch.name, row.name),
        Overlay(patch.password, row.password),
        Overlay(patch.phone, row.phone),
        Overlay(patch.sex, row.sex),
        Overlay(patch.idNumber, row.idNumber),
        Overlay(patch.status, row.status),
        Overlay(patch.createTime, row.createTime),
        Overlay(patch.updateTime, row.updateTime),
        Overlay(patch.createUser, row.createUser),
        Overlay(patch.updateUser, row.updateUser))
  }

  /** Disabling an account locks it: the right password now gets
      AccountLocked. Enabling it again lets the right password in. */
  lemma StatusPatchGovernsLogin(row: Employee, id: int, dto: EmployeeLoginDTO,
                                byUsername: string -> Option<Employee>, digest: string -> string)
    requires row.id == Some(id)
    requires PasswordMatches(row, dto.password, digest)
    ensures var locked := ApplyUpdate(row, StatusPatch(DISABLE, id));
      byUsername(dto.username) == Some(locked) ==> Login(dto, byUsername, digest) == Failure(AccountLocked)
    ensures var enabled := ApplyUpdate(row, StatusPatch(ENABLE, id));
      byUsername(dto.username) == Some(enabled) ==> Login(dto, byUsername, digest) == Success(enabled)
  {
  }

  /** A status toggle addressed to another employee leaves this one as it was. */
  lemma StatusPatchSparesOthers(row: Employee, status: int, id: int)
    requires row.id != Some(id)
    ensures ApplyUpdate(row, StatusPatch(status, id)) == row
  {
  }

  /** A null status is not DISABLE: the `Integer ==` comparison fails and the
      account is let in. */
  lemma UnsetStatusIsNotLocked(dto: EmployeeLoginDTO, byUsername: string -> Option<Employee>,
                               digest: string -> string)
    requires byUsername(dto.username).Some? && byUsername(dto.username).value.status.None?
    requires PasswordMatches(byUsername(dto.username).value, dto.password, digest)
    ensures Login(dto, byUsername, digest) == Success(byUsername(dto.username).value)
  {
  }

  /** Editing an employee through `update` keeps the password, the status,
      the creator and the creation time. */
  lemma UpdateKeepsCredentials(row: Employee, patch: Employee)
    requires patch.password.None? && patch.status.None?
    requires patch.createTime.None? && patch.createUser.None?
    ensures ApplyUpdate(row, patch).password == row.password
    ensures ApplyUpdate(row, patch).status == row.status
    ensures ApplyUpdate(row, patch).createUser == row.createUser
    ensures ApplyUpdate(row, patch).createTime == row.createTime
  {
  }
}
