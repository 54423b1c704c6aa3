# sky-take-out back office: reports, employee login and menu cache eviction

A Dafny model of three parts of the restaurant back office, with the
database, Redis, Apache POI, MD5 and the clock abstracted away.

- **Report series** (`ReportServiceImpl`).
  - An inclusive range of days becomes a list of consecutive days.
  - One aggregate query runs per day, over that day's window from 00:00 to the last nanosecond of the day.
  - The per-day results are collected into series parallel to the day list: turnover (a null sum counts as 0), new and total users, and placed and completed orders.
  - The order totals are Java `int` stream sums, and they wrap at 32 bits.
  - The completion rate is guarded against a zero total.
  - The top-10 report splits one query's rows into two parallel lists.
  - The business-data export writes a fixed layout into a sheet through a get-or-create `getCell`. The sheet is a class holding the set of existing rows and a sparse map from (row, column) to cell.
- **Employees** (`EmployeeServiceImpl`).
  - Login is a guard chain with a fixed precedence: unknown user, then wrong password, then locked account.
  - `save`, `update`, `startOrStop` and `getById` build or mask `Employee` records in fixed ways.
  - Java's nullable fields are `Option`s.
  - The mapper lookups, the digest, the clock and the current user id are inputs.
- **Menu cache eviction** (`DishController`, `SetMealController`).
  - The Redis key space is a class holding a `map<string, V>`.
  - After the service call returns, a mutating dish endpoint deletes either `dish_<categoryId>` or every `dish_*` key.
  - The set-meal endpoints carry Spring `@CacheEvict`s on the cache `setmealCache`, whose keys are `setmealCache::<key>`. Create evicts only its own category. Delete, update and status toggle clear the namespace. Reads evict nothing.
  - A service call that throws leaves the cache untouched.

Days are epoch-day integers. Instants are nanoseconds since the epoch.

Modules:
- `Wrappers`
- `KeyValueStore`
- `DishController`
- `SetMealController`
- `MenuCachePolicy`
- `EmployeeService`
- `ReportService`
- `ReportExport`

Three facts about the code that the model makes explicit:
- On a sheet without rows the export creates 35 rows: 0, 1, 3, 4, 6 and 7 to 36. Rows 2 and 5 are never created (`ExportRowsOnEmptySheet`).
- `LocalTime.MAX` is 23:59:59.999999999, the last nanosecond of the day (`EndOfDay`).
- The export reads today's date twice, once for the start of the period and once for its end. A run that straddles midnight names a 31-day period in cell (1, 1) and takes the overview figures over those 31 days, while the detail rows still start at the first reading minus 30 (`ExportPeriod`, `ExportDetailRow`).

## Model

| member | source | states |
|---|---|---|
| ReportService.InWindowIffDayOf | sky-server/src/main/java/com/sky/service/impl/ReportServiceImpl.java:65-66 | an instant lies in a day's [start, end] window exactly when it falls on that day; consecutive windows touch without a gap |
| ReportService.AllInWindowIffDayOf | sky-server/src/main/java/com/sky/service/impl/ReportServiceImpl.java:65-66 | the same, for every instant at once |
| ReportService.OrdersOn | sky-server/src/main/java/com/sky/service/impl/ReportServiceImpl.java:65-70 | the order query for a day carries the given status (null for any) and a window that holds exactly the instants of that day |
| ReportService.UserCountQuery | sky-server/src/main/java/com/sky/service/impl/ReportServiceImpl.java:117-122 | the user query counts exactly the users created strictly after beginTime (no lower bound when it is null) and strictly before endTime |
| ReportService.DateList | sky-server/src/main/java/com/sky/service/impl/ReportServiceImpl.java:56-61 | for begin <= end the list has end - begin + 1 days, starts at begin, ends at end, and entry i is begin + i |
| ReportService.GetTurnover | sky-server/src/main/java/com/sky/service/impl/ReportServiceImpl.java:56-74 | the turnover series is as long as the date list, and entry i is the completed-order sum over day i's window, with 0 where the sum is null |
| ReportService.GetUserStatistics | sky-server/src/main/java/com/sky/service/impl/ReportServiceImpl.java:84-103 | both series are parallel to the date list; entry i queries day i's window for new users and (no lower bound, up to day i's end) for total users |
| ReportService.CountCreatedMonotone | sky-server/src/main/java/com/sky/service/impl/ReportServiceImpl.java:96-99 | narrowing the user-count window never raises the count |
| ReportService.UserSeriesConsistent | sky-server/src/main/java/com/sky/service/impl/ReportServiceImpl.java:93-103 | against a user table, a day's new users never exceed that day's total, and the total never decreases over the days |
| ReportService.Int32 | sky-server/src/main/java/com/sky/service/impl/ReportServiceImpl.java:146-147 | the result is a 32-bit value and equals its argument whenever the argument fits |
| ReportService.IntStreamSum | sky-server/src/main/java/com/sky/service/impl/ReportServiceImpl.java:146-147 | `mapToInt(Integer::intValue).sum()`: the result is always a 32-bit int |
| ReportService.IntStreamSumIsWrappedSum | sky-server/src/main/java/com/sky/service/impl/ReportServiceImpl.java:146-147 | the int stream sum, wrapping at every addition, is the exact sum wrapped once; when the exact sum fits in an int they are equal |
| ReportService.CompletionRate | sky-server/src/main/java/com/sky/service/impl/ReportServiceImpl.java:148-151 | the rate is 0 for a zero total, and otherwise rate × total = valid × 100 |
| ReportService.CompletionRateIsPercentage | sky-server/src/main/java/com/sky/service/impl/ReportServiceImpl.java:148-151 | when 0 <= valid <= total the rate lies in [0, 100] |
| ReportService.GetOrderStatistics | sky-server/src/main/java/com/sky/service/impl/ReportServiceImpl.java:126-151 | both count series are parallel to the date list, with entry i the all-status or COMPLETED count over day i's window; the totals are the int-wrapped sums of the series; the rate is the completion rate of the totals |
| ReportService.SumMonotone | sky-server/src/main/java/com/sky/service/impl/ReportServiceImpl.java:146-147 | a series that dominates another entry by entry has the larger sum |
| ReportService.OrderRateIsPercentage | sky-server/src/main/java/com/sky/service/impl/ReportServiceImpl.java:146-151 | if no day has more completed orders than orders, no count is negative and the total fits in an int, then the report's rate lies in [0, 100] |
| ReportService.Names | sky-server/src/main/java/com/sky/service/impl/ReportServiceImpl.java:169-171 | the name list is as long as the rows, and entry i is row i's name |
| ReportService.Numbers | sky-server/src/main/java/com/sky/service/impl/ReportServiceImpl.java:172-174 | the number list is as long as the rows, and entry i is row i's number |
| ReportService.GetSalesTop10 | sky-server/src/main/java/com/sky/service/impl/ReportServiceImpl.java:164-174 | both lists are as long as the result of the one query from the start of begin to the end of end |
| ReportService.SalesTop10ListsParallel | sky-server/src/main/java/com/sky/service/impl/ReportServiceImpl.java:169-174 | zipped back together, the two lists are exactly the query's rows in the query's order |
| ReportService.ZipUnzip | sky-server/src/main/java/com/sky/service/impl/ReportServiceImpl.java:169-174 | splitting rows into names and numbers and zipping them again gives the rows back |
| ReportExport.Sheet.constructor | sky-server/src/main/java/com/sky/service/impl/ReportServiceImpl.java:208-210 | the empty-workbook fallback: a new sheet has no rows and no cells |
| ReportExport.Sheet.HasRow | sky-server/src/main/java/com/sky/service/impl/ReportServiceImpl.java:267-268 | `getRow(row) != null`; a row that does not exist has no cells |
| ReportExport.Sheet.HasCell | sky-server/src/main/java/com/sky/service/impl/ReportServiceImpl.java:271-272 | `getCell(col) != null`; a cell exists only in an existing row |
| ReportExport.Sheet.CreateRow | sky-server/src/main/java/com/sky/service/impl/ReportServiceImpl.java:268-270 | adds the missing row; cells unchanged |
| ReportExport.Sheet.CreateCell | sky-server/src/main/java/com/sky/service/impl/ReportServiceImpl.java:272-274 | adds a blank cell in an existing row; nothing else changes |
| ReportExport.Sheet.SetCellValue | sky-server/src/main/java/com/sky/service/impl/ReportServiceImpl.java:227 | replaces the value of one existing cell; nothing else changes |
| ReportExport.GetCell | sky-server/src/main/java/com/sky/service/impl/ReportServiceImpl.java:266-276 | returns the cell at (row, col); the row is created only if absent, a blank cell only if absent, and every other cell is unchanged |
| ReportExport.Put | sky-server/src/main/java/com/sky/service/impl/ReportServiceImpl.java:213 | getCell then setCellValue: the row exists afterwards and exactly the one cell takes the value |
| ReportExport.LabelsAsWrites | sky-server/src/main/java/com/sky/service/impl/ReportServiceImpl.java:251-263 | the thirteen caption writes in sequence add exactly the caption layout to any sheet |
| ReportExport.InitReportSheet | sky-server/src/main/java/com/sky/service/impl/ReportServiceImpl.java:250-264 | the sheet gains rows 0, 1, 3, 4, 6 and the thirteen captions; every other cell is kept |
| ReportExport.OverviewAsWrites | sky-server/src/main/java/com/sky/service/impl/ReportServiceImpl.java:213-218 | the six overview writes in sequence add exactly the overview block |
| ReportExport.WriteOverview | sky-server/src/main/java/com/sky/service/impl/ReportServiceImpl.java:213-218 | the sheet gains rows 1, 3, 4 and the period and the five period figures |
| ReportExport.DetailRowAsWrites | sky-server/src/main/java/com/sky/service/impl/ReportServiceImpl.java:227-232 | the six writes of one day add exactly that day's detail row |
| ReportExport.WriteDailyRows | sky-server/src/main/java/com/sky/service/impl/ReportServiceImpl.java:220-233 | the loop adds rows 7 to 36 and, per row, the day begin + i with its figures from that day's window |
| ReportExport.ExportBusinessData | sky-server/src/main/java/com/sky/service/impl/ReportServiceImpl.java:199-233 | with begin the first reading of today minus 30 and end the second reading minus 1, the sheet gains exactly the report rows and the report cells, and the template's other cells are kept |
| ReportExport.DetailRowKeys | sky-server/src/main/java/com/sky/service/impl/ReportServiceImpl.java:227-232 | a detail row writes columns 1 to 6 of its own row and nothing else |
| ReportExport.DailyCellsKeys | sky-server/src/main/java/com/sky/service/impl/ReportServiceImpl.java:220-233 | the first n detail rows cover exactly columns 1 to 6 of rows 7 to 6 + n |
| ReportExport.DailyCellsAt | sky-server/src/main/java/com/sky/service/impl/ReportServiceImpl.java:220-233 | detail row r holds the detail row of day begin + r - 7 |
| ReportExport.DailyRowsSpan | sky-server/src/main/java/com/sky/service/impl/ReportServiceImpl.java:220-226 | the first n detail rows are rows 7 to 6 + n, n of them |
| ReportExport.DailyRowCells | sky-server/src/main/java/com/sky/service/impl/ReportServiceImpl.java:220-233 | detail row r holds the date begin + r - 7 and that day's turnover, valid orders, completion rate, unit price and new users |
| ReportExport.ExportDetailBounds | sky-server/src/main/java/com/sky/service/impl/ReportServiceImpl.java:220-233 | the export writes nothing below row 36 and nothing outside columns 1 to 6 from row 7 on |
| ReportExport.ExportDetailRow | sky-server/src/main/java/com/sky/service/impl/ReportServiceImpl.java:199-233 | for 7 <= row <= 36, row 7 + i holds the date (first reading of today) - 30 + i and that day's five figures |
| ReportExport.ExportPeriod | sky-server/src/main/java/com/sky/service/impl/ReportServiceImpl.java:199-218 | cell (1, 1) reads "begin至end" for begin = first reading of today - 30 and end = second reading - 1, and the five overview figures are those of the one window from the start of begin to the end of end |
| ReportExport.ExportKeepsCaptions | sky-server/src/main/java/com/sky/service/impl/ReportServiceImpl.java:211-233 | no data cell overwrites a caption |
| ReportExport.ReportRowsCount | sky-server/src/main/java/com/sky/service/impl/ReportServiceImpl.java:220-264 | the caption rows and n detail rows are 5 + n distinct rows |
| ReportExport.ExportRowsOnEmptySheet | sky-server/src/main/java/com/sky/service/impl/ReportServiceImpl.java:211-264 | the export creates rows 0, 1, 3, 4, 6 and 7 to 36 and no others: 35 rows |
| EmployeeService.CopyProperties | sky-server/src/main/java/com/sky/service/impl/EmployeeServiceImpl.java:76 | the DTO's six properties are copied, nulls included; password, status, times and users keep their value |
| EmployeeService.Login | sky-server/src/main/java/com/sky/service/impl/EmployeeServiceImpl.java:38-67 | AccountNotFound iff no record; PasswordError iff a record whose hash differs from the digest; AccountLocked iff the hash matches and the status is DISABLE; on success the stored record is returned |
| EmployeeService.UnknownUserIgnoresDigest | sky-server/src/main/java/com/sky/service/impl/EmployeeServiceImpl.java:43-49 | for an unknown username the outcome is AccountNotFound whatever the digest |
| EmployeeService.LockedWithWrongPasswordIsPasswordError | sky-server/src/main/java/com/sky/service/impl/EmployeeServiceImpl.java:54-63 | a locked account with a wrong password reports PasswordError |
| EmployeeService.Save | sky-server/src/main/java/com/sky/service/impl/EmployeeServiceImpl.java:70-93 | the new record has the form's fields, status ENABLE, the digest of "123456", the two clock readings, and the current id as creator and editor |
| EmployeeService.FreshAccountLogsIn | sky-server/src/main/java/com/sky/service/impl/EmployeeServiceImpl.java:78-81 | a record built by save logs in with "123456" |
| EmployeeService.StatusPatch | sky-server/src/main/java/com/sky/service/impl/EmployeeServiceImpl.java:102-109 | the update record carries the id and the status and every other field is null |
| EmployeeService.GetById | sky-server/src/main/java/com/sky/service/impl/EmployeeServiceImpl.java:133-137 | a missing record fails; otherwise the record is returned with password "****" and every other field as stored |
| EmployeeService.Update | sky-server/src/main/java/com/sky/service/impl/EmployeeServiceImpl.java:144-152 | the update record has the form's fields, the edit time and the editor; password, status, creation time and creator stay null |
| EmployeeService.ApplyUpdate | sky-server/src/main/java/com/sky/service/impl/EmployeeServiceImpl.java:108 | the record's id selects the row and is never written; a row it does not address is unchanged; on the addressed row each of the other eleven columns takes the record's value when that is not null and keeps its own otherwise |
| EmployeeService.StatusPatchGovernsLogin | sky-server/src/main/java/com/sky/service/impl/EmployeeServiceImpl.java:102-109 | after disabling the employee's own id, the right password gets AccountLocked; after enabling, it logs in |
| EmployeeService.StatusPatchSparesOthers | sky-server/src/main/java/com/sky/service/impl/EmployeeServiceImpl.java:102-109 | a status toggle for another id leaves this employee's row as it was |
| EmployeeService.UnsetStatusIsNotLocked | sky-server/src/main/java/com/sky/service/impl/EmployeeServiceImpl.java:60-66 | a record whose status is null is not locked: the right password logs in |
| EmployeeService.UpdateKeepsCredentials | sky-server/src/main/java/com/sky/service/impl/EmployeeServiceImpl.java:144-151 | an update record as update builds it keeps the stored password, status, creator and creation time |
| KeyValueStore.Evict | sky-server/src/main/java/com/sky/controller/admin/DishController.java:37-40 | a key survives iff it was present and does not match the pattern; survivors keep their values |
| KeyValueStore.Store.Keys | sky-server/src/main/java/com/sky/controller/admin/DishController.java:38 | exactly the present keys that match the pattern |
| KeyValueStore.Store.Delete | sky-server/src/main/java/com/sky/controller/admin/DishController.java:39 | the given keys are removed and nothing else |
| KeyValueStore.Digits | sky-server/src/main/java/com/sky/controller/admin/DishController.java:54 | at least one digit, only digits, no leading zero |
| KeyValueStore.Decimal | sky-server/src/main/java/com/sky/controller/admin/DishController.java:54 | a minus sign exactly for negative ids, then digits |
| KeyValueStore.DigitsInjective | sky-server/src/main/java/com/sky/controller/admin/DishController.java:54 | two numbers with the same digits are equal |
| KeyValueStore.DecimalInjective | sky-server/src/main/java/com/sky/controller/admin/DishController.java:54 | two ids with the same rendering are equal |
| KeyValueStore.PrefixedDecimalInjective | sky-server/src/main/java/com/sky/controller/admin/DishController.java:54 | a fixed prefix followed by a rendered id determines the id |
| DishController.CleanCache | sky-server/src/main/java/com/sky/controller/admin/DishController.java:37-40 | the store loses exactly the keys matching the pattern |
| DishController.Save | sky-server/src/main/java/com/sky/controller/admin/DishController.java:50-57 | returns the service outcome; on success evicts exactly dish_<categoryId>, on failure changes nothing |
| DishController.Delete | sky-server/src/main/java/com/sky/controller/admin/DishController.java:66-72 | returns the service outcome; on success evicts every dish_ key, on failure changes nothing |
| DishController.Update | sky-server/src/main/java/com/sky/controller/admin/DishController.java:82-89 | as Delete |
| DishController.StartOrStop | sky-server/src/main/java/com/sky/controller/admin/DishController.java:99-104 | as Delete |
| DishController.SaveEvictsExactlyItsKey | sky-server/src/main/java/com/sky/controller/admin/DishController.java:54-55 | after a successful save, its category's key is gone and every other key keeps its value |
| DishController.SaveKeepsOtherCategories | sky-server/src/main/java/com/sky/controller/admin/DishController.java:54-55 | another category's cached list survives a save, unchanged |
| DishController.BulkEndpointsClearDishKeys | sky-server/src/main/java/com/sky/controller/admin/DishController.java:66-104 | after a successful delete, update or status toggle no dish_ key remains |
| DishController.EndpointsSpareOtherKeys | sky-server/src/main/java/com/sky/controller/admin/DishController.java:37-104 | no dish endpoint removes or changes a key outside the dish_ prefix |
| DishController.FailedCallKeepsCache | sky-server/src/main/java/com/sky/controller/admin/DishController.java:50-104 | when the service call throws, the cache is unchanged |
| SetMealController.ApplyCacheEvict | sky-server/src/main/java/com/sky/controller/admin/SetMealController.java:20-22 | the store loses exactly the keys matching the pattern |
| SetMealController.Save | sky-server/src/main/java/com/sky/controller/admin/SetMealController.java:39-45 | returns the service outcome; on success evicts setmealCache::<categoryId>, on failure nothing |
| SetMealController.Page | sky-server/src/main/java/com/sky/controller/admin/SetMealController.java:51-56 | returns the service result and leaves the cache as it was |
| SetMealController.Delete | sky-server/src/main/java/com/sky/controller/admin/SetMealController.java:63-69 | returns the service outcome; on success clears the setmealCache namespace |
| SetMealController.GetById | sky-server/src/main/java/com/sky/controller/admin/SetMealController.java:77-83 | returns the service result and leaves the cache as it was |
| SetMealController.Update | sky-server/src/main/java/com/sky/controller/admin/SetMealController.java:91-97 | as Delete |
| SetMealController.StartOrStop | sky-server/src/main/java/com/sky/controller/admin/SetMealController.java:104-110 | as Delete |
| SetMealController.SaveEvictsOnlyItsCategory | sky-server/src/main/java/com/sky/controller/admin/SetMealController.java:41 | after a successful save, a present key survives iff it is not its category's key |
| SetMealController.SaveKeepsOtherCategories | sky-server/src/main/java/com/sky/controller/admin/SetMealController.java:41 | another category's entry survives a save, unchanged |
| SetMealController.BulkEndpointsClearNamespace | sky-server/src/main/java/com/sky/controller/admin/SetMealController.java:63-110 | after a successful delete, update or status toggle no setmealCache:: key remains |
| SetMealController.ReadsKeepCache | sky-server/src/main/java/com/sky/controller/admin/SetMealController.java:51-83 | page and getById leave the cache unchanged whatever the service did |
| SetMealController.EndpointsSpareOtherKeys | sky-server/src/main/java/com/sky/controller/admin/SetMealController.java:39-110 | no set-meal endpoint removes or changes a key outside the setmealCache namespace |
| MenuCachePolicy.SetmealEndpointsSpareDishKeys | sky-server/src/main/java/com/sky/controller/admin/SetMealController.java:39-110 | set-meal endpoints leave every dish_ key in place with its value |
| MenuCachePolicy.DishEndpointsSpareSetmealKeys | sky-server/src/main/java/com/sky/controller/admin/DishController.java:37-104 | dish endpoints leave every setmealCache:: key in place with its value |

## Left out

- The mappers and their SQL are not part of this model. These are `EmployeeMapper`, `OrderMapper.sumByMap`, `OrderMapper.countByMap`, `OrderMapper.getSalesTop10` and `UserMapper.countByMap`. Their results are function parameters. Two members state the assumed behaviour instead of the SQL:
  - `ApplyUpdate`: the mapper selects the row by the record's id and writes only non-null columns.
  - `CountCreated`: strict bounds on `create_time`, as the SQL in the comments beside the calls reads.
- `Orders.COMPLETED` (5) and `StatusConstant` (ENABLE 1, DISABLE 0) come from files that are not part of this model. The values are taken from the order-status convention and the comment at EmployeeServiceImpl.java:77.
- MD5 (`DigestUtils.md5DigestAsHex`) is an uninterpreted `digest` function. Only equality of digests is used.
- `Double` values are reals. No rounding or float formatting is modelled, so rates and sums are exact.
- `StringUtils.join` is not modelled. Each report holds the lists that would be joined, not the comma-separated strings.
- Calendar arithmetic is replaced by integers:
  - `LocalDate.plusDays` is `+ 1` on epoch days.
  - the two `LocalDate.now()` calls of the export are the parameters `todayForBegin` and `todayForEnd`.
  - `LocalDateTime.now()` is the two parameters `createdAt` and `updatedAt`.
  - `LocalDate.toString` is the `showDate` parameter.
- DateList: requires begin <= end. When begin is after end, the Java loop never meets `end`, and that runaway is not modelled.
- The rest of the POI and HTTP plumbing is not modelled:
  - the template load (the export is modelled on any sheet; a new sheet stands for the empty-workbook fallback);
  - the sheet name given by `createSheet("Sheet1")`;
  - the overloads of `setCellValue`, where an `Integer` becomes a numeric cell, modelled as `Number(real)`;
  - the file name encoding, the response headers and the stream;
  - the `IOException` path.
- A `BusinessDataVO` with null counts (which would throw on unboxing) is not modelled. The figures are always present.
- Null inputs that only lead to a `NullPointerException` or the text "null" are not modelled:
  - a null category id (the key `dish_null`, or a null Spring cache key);
  - a null login password.
- The `==` on `Integer` status in login is modelled as value equality. That matches Java for the small cached values 0 and 1.
- Redis `KEYS` glob matching in general is not modelled. Only the two shapes the controllers use are: a literal key, and a literal prefix followed by `*`. Spring's key serialisation is not modelled either.
- Concurrency is not modelled. The service call and the eviction are two separate steps, and other writers may interleave between them.
- `EmployeeServiceImpl.pageQuery`, the dish and set-meal services and the rest of the controllers' framework glue (logging, Swagger, request binding, `Result` wrapping) are not modelled.
