/** The Redis key space shared by the menu controllers: a map from string
    keys to cached values, the two kinds of key pattern the controllers
    use, and the decimal rendering of ids that goes into keys. */
module KeyValueStore {

  /** A Redis KEYS pattern as the controllers write it: a literal key, or a
      literal prefix followed by `*`. */
  datatype Pattern = Exact(key: string) | Prefix(prefix: string)

  predicate Matches(p: Pattern, k: string) {
    match p
    case Exact(key) => k == key
    case Prefix(prefix) => prefix <= k
  }

  /** The store after deleting every key that `p` matches. */
  function Evict<V>(m: map<string, V>, p: Pattern): (r: map<string, V>)
    ensures forall k :: k in r <==> k in m && !Matches(p, k)
    ensures forall k :: k in r ==> r[k] == m[k]
  {
    map k | k in m && !Matches(p, k) :: m[k]
  }

  function DigitChar(d: nat): (c: char)
    requires d < 10
    ensures '0' <= c <= '9'
    ensures c as int - '0' as int == d
  {
    ('0' as int + d) as char
  }

  /** The decimal digits of a non-negative number, most significant first,
      without leading zeros. */
  function Digits(n: nat): (s: string)
    ensures |s| >= 1
    ensures forall i :: 0 <= i < |s| ==> '0' <= s[i] <= '9'
    ensures s[0] == '0' ==> n == 0
    ensures |s| == 1 <==> n < 10
  {
    if n < 10 then [DigitChar(n)] else Digits(n / 10) + [DigitChar(n % 10)]
  }

  /** `Long.toString`, which is also what string concatenation prints for
      a `Long` id. */
  function Decimal(n: int): (s: string)
    ensures |s| >= 1
    ensures s[0] == '-' <==> n < 0
    ensures n < 0 ==> |s| >= 2
    ensures s[0] != '-' ==> '0' <= s[0] <= '9'
    ensures forall i :: 1 <= i < |s| ==> '0' <= s[i] <= '9'
  {
    if n < 0 then "-" + Digits(-n) else Digits(n)
  }

  /** Two numbers with the same digits are equal. */
  lemma {:induction false} DigitsInjective(a: nat, b: nat)
    requires Digits(a) == Digits(b)
    ensures a == b
  {
    if a >= 10 && b >= 10 {
      var sa, sb := Digits(a), Digits(b);
      assert sa[..|sa| - 1] == Digits(a / 10);
      assert sb[..|sb| - 1] == Digits(b / 10);
      DigitsInjective(a / 10, b / 10);
      assert DigitChar(a % 10) == sa[|sa| - 1] == DigitChar(b % 10);
    }
  }

  /** Distinct ids render to distinct strings, so distinct ids give distinct
      cache keys. */
  lemma DecimalInjective(a: int, b: int)
    requires Decimal(a) == Decimal(b)
    ensures a == b
  {
    if a < 0 {
      assert Decimal(a)[1..] == Digits(-a);
      assert Decimal(b)[1..] == Digits(-b);
      DigitsInjective(-a, -b);
    } else {
      DigitsInjective(a, b);
    }
  }

  /** A fixed prefix followed by a rendered id names that id alone. */
  lemma PrefixedDecimalInjective(prefix: string, a: int, b: int)
    requires prefix + Decimal(a) == prefix + Decimal(b)
    ensures a == b
  {
    assert Decimal(a) == (prefix + Decimal(a))[|prefix|..];
    assert Decimal(b) == (prefix + Decimal(b))[|prefix|..];
    DecimalInjective(a, b);
  }

  /** The Redis server as seen through `RedisTemplate`: its key space. */
  class Store<V> {
    var entries: map<string, V>

    constructor (initial: map<string, V>)
      ensures entries == initial
    {
      entries := initial;
    }

    /** `KEYS pattern`: the keys currently present that match. */
    method Keys(p: Pattern) returns (ks: set<string>)
      ensures forall k :: k in ks <==> k in entries && Matches(p, k)
    {
      ks := set k | k in entries && Matches(p, k);
    }

    /** `DEL keys`: removes the given keys; absent ones are ignored. */
    method Delete(ks: set<string>)
      modifies this
      ensures entries == old(entries) - ks
    {
      entries := entries - ks;
    }
  }
}
