/**
 * Values and small helpers shared by the orchestration and brand-context models:
 * optional values, results, a JSON-like value for opaque payloads, decimal
 * rendering of naturals (template literals such as `${Date.now()}`) and a few
 * facts about sequences.
 */
module Common {

  datatype Option<+T> = None | Some(value: T) {
    function GetOr(default: T): T {
      match this
      case Some(v) => v
      case None => default
    }
  }

  datatype Result<+R, +E> = Success(value: R) | Failure(error: E)

  /** A JSON value: the opaque `Record<string, any>` payloads, contexts and return values. */
  datatype Json =
    | JNull
    | JBool(b: bool)
    | JNumber(n: int)
    | JString(s: string)
    | JArray(items: seq<Json>)
    | JObject(fields: map<string, Json>)

  /**
   * `process.env[key] || default`: an unset or empty variable gives the
   * default, any other value is kept.
   */
  function OptionalEnv(value: Option<string>, default: string): (r: string)
    ensures r == default <==> value.None? || value.value == "" || value.value == default
    ensures r != default ==> value == Some(r)
  {
    if value.Some? && value.value != "" then value.value else default
  }

  /**
   * The two clock/random readings behind a generated id
   * `${prefix}-${Date.now()}-${Math.floor(Math.random() * 1000)}`.
   */
  datatype IdSeed = IdSeed(timestamp: nat, random: nat)

  predicate ValidSeed(seed: IdSeed) {
    seed.random < 1000
  }

  function DigitChar(d: nat): (c: char)
    requires d < 10
  {
    ['0', '1', '2', '3', '4', '5', '6', '7', '8', '9'][d]
  }

  predicate IsDigit(c: char) {
    '0' <= c <= '9'
  }

  /** Decimal rendering of a natural number, as JavaScript prints it. */
  function NatToString(n: nat): (s: string)
    ensures |s| >= 1
    ensures forall i :: 0 <= i < |s| ==> IsDigit(s[i])
  {
    if n < 10 then [DigitChar(n)] else NatToString(n / 10) + [DigitChar(n % 10)]
  }

  /** `${prefix}-${timestamp}-${random}` */
  function GeneratedId(prefix: string, seed: IdSeed): string {
    prefix + "-" + NatToString(seed.timestamp) + "-" + NatToString(seed.random)
  }

  predicate StartsWith(s: string, prefix: string) {
    |prefix| <= |s| && s[..|prefix|] == prefix
  }

  /** Generated ids begin with their prefix and a dash, whatever the seed. */
  lemma GeneratedIdPrefix(prefix: string, seed: IdSeed)
    ensures StartsWith(GeneratedId(prefix, seed), prefix + "-")
  {
    var id := GeneratedId(prefix, seed);
    assert id == (prefix + "-") + (NatToString(seed.timestamp) + "-" + NatToString(seed.random));
  }

  /**
   * If two dash-free prefixes each followed by a dash start the same string,
   * the prefixes are equal: the first dash of a generated id ends its prefix.
   */
  lemma {:induction false} DashTerminatedPrefixUnique(p: string, q: string, x: string, y: string)
    requires '-' !in p && '-' !in q
    requires p + "-" + x == q + "-" + y
    ensures p == q
  {
    var s := p + "-" + x;
    assert forall i :: 0 <= i < |p| ==> s[i] == p[i] != '-';
    assert forall i :: 0 <= i < |q| ==> s[i] == q[i] != '-';
    assert s[|p|] == '-' && s[|q|] == '-';
    assert |p| == |q|;
    assert p == s[..|p|] == q;
  }

  /** Generated ids with dash-free prefixes determine their prefix. */
  lemma GeneratedIdPrefixUnique(p: string, q: string, s1: IdSeed, s2: IdSeed)
    requires '-' !in p && '-' !in q
    requires GeneratedId(p, s1) == GeneratedId(q, s2)
    ensures p == q
  {
    var x := NatToString(s1.timestamp) + "-" + NatToString(s1.random);
    var y := NatToString(s2.timestamp) + "-" + NatToString(s2.random);
    assert GeneratedId(p, s1) == p + "-" + x;
    assert GeneratedId(q, s2) == q + "-" + y;
    DashTerminatedPrefixUnique(p, q, x, y);
  }

  ghost predicate NoDuplicates<T>(s: seq<T>) {
    forall i, j :: 0 <= i < j < |s| ==> s[i] != s[j]
  }

  /** `set.delete(x)` on an insertion-ordered set: every occurrence of x goes. */
  function RemoveAll<T(==)>(s: seq<T>, x: T): (r: seq<T>)
    ensures |r| <= |s|
  {
    if s == [] then []
    else if s[0] == x then RemoveAll(s[1..], x)
    else [s[0]] + RemoveAll(s[1..], x)
  }

  /** `set.add(x)` on an insertion-ordered set: appended only when absent. */
  function AddIfAbsent<T(==)>(s: seq<T>, x: T): seq<T> {
    if x in s then s else s + [x]
  }

  lemma {:induction false} RemoveAllMembership<T>(s: seq<T>, x: T, y: T)
    ensures y in RemoveAll(s, x) <==> y in s && y != x
  {
    if s != [] {
      RemoveAllMembership(s[1..], x, y);
      assert s == [s[0]] + s[1..];
    }
  }

  lemma {:induction false} RemoveAllAbsent<T>(s: seq<T>, x: T)
    requires x !in s
    ensures RemoveAll(s, x) == s
  {
    if s != [] {
      assert s == [s[0]] + s[1..];
      RemoveAllAbsent(s[1..], x);
    }
  }

  lemma {:induction false} RemoveAllNoDuplicates<T>(s: seq<T>, x: T)
    requires NoDuplicates(s)
    ensures NoDuplicates(RemoveAll(s, x))
  {
    if s != [] {
      assert NoDuplicates(s[1..]);
      RemoveAllNoDuplicates(s[1..], x);
      if s[0] != x {
        RemoveAllMembership(s[1..], x, s[0]);
        assert s[0] !in s[1..];
      }
    }
  }
}
