/**
 * The values the store keeps and the search walks: the JSON value grammar
 * (null, booleans, numbers, strings, arrays, objects), with numbers restricted
 * to integers and an object given as its members in enumeration order.
 * Also the few JavaScript string operations the search uses on them.
 */
module JsonValue {
  import opened Wrappers

  datatype Json =
    | Null
    | Bool(b: bool)
    | Num(n: int)
    | Str(s: string)
    | Arr(elems: seq<Json>)
    | Obj(members: seq<Member>)

  /** One own enumerable property of an object. */
  datatype Member = Member(key: string, value: Json)

  /** `typeof v === "object" && v !== null`: arrays and plain objects. */
  predicate IsObject(v: Json) {
    v.Arr? || v.Obj?
  }

  /** No key occurs twice among the members (as in every JavaScript object). */
  predicate DistinctKeys(ms: seq<Member>) {
    forall i, j :: 0 <= i < j < |ms| ==> ms[i].key != ms[j].key
  }

  /** Every object nested anywhere in `v` has distinct keys. */
  predicate WellFormed(v: Json) {
    match v
    case Arr(xs) => forall i :: 0 <= i < |xs| ==> WellFormed(xs[i])
    case Obj(ms) => DistinctKeys(ms) && forall i :: 0 <= i < |ms| ==> WellFormed(ms[i].value)
    case _ => true
  }

  // ---------------------------------------------------------------------------
  // Decimal strings: `${i}` for array indices and String(n) for numbers
  // ---------------------------------------------------------------------------

  predicate IsDigit(c: char) {
    '0' <= c <= '9'
  }

  predicate AllDigits(s: string) {
    forall i :: 0 <= i < |s| ==> IsDigit(s[i])
  }

  function DigitChar(d: nat): (c: char)
    requires d < 10
    ensures IsDigit(c)
  {
    ('0' as int + d) as char
  }

  /** The decimal notation of `n`, without leading zeros. */
  function NatToString(n: nat): (s: string)
    ensures |s| >= 1 && AllDigits(s)
    ensures s[0] == '0' ==> n == 0 && |s| == 1
  {
    if n < 10 then [DigitChar(n)] else NatToString(n / 10) + [DigitChar(n % 10)]
  }

  /** String(n) for an integer n. */
  function IntToString(n: int): string {
    if n < 0 then "-" + NatToString(-n) else NatToString(n)
  }

  /** The number a string of decimal digits denotes. */
  function DigitsValue(s: string): nat
    requires AllDigits(s)
  {
    if s == [] then 0 else DigitsValue(s[..|s| - 1]) * 10 + (s[|s| - 1] as int - '0' as int)
  }

  /** The array index a property key denotes: canonical decimal only (`"2"`, not `"02"` or `"-1"`). */
  function ParseIndex(key: string): Option<nat> {
    if key == [] || (|key| > 1 && key[0] == '0') || !AllDigits(key) then None
    else Some(DigitsValue(key))
  }

  lemma {:induction false} DigitsValueOfNatToString(n: nat)
    ensures DigitsValue(NatToString(n)) == n
  {
    if n >= 10 {
      var s := NatToString(n);
      DigitsValueOfNatToString(n / 10);
      assert s[..|s| - 1] == NatToString(n / 10);
    }
  }

  /** Reading back the path segment written for index `n` gives `n`. */
  lemma ParseIndexRoundTrip(n: nat)
    ensures ParseIndex(NatToString(n)) == Some(n)
  {
    DigitsValueOfNatToString(n);
  }

  lemma {:induction false} DigitsValuePositive(s: string)
    requires AllDigits(s) && s != [] && s[0] != '0'
    ensures DigitsValue(s) >= 1
    decreases |s|
  {
    if |s| > 1 {
      DigitsValuePositive(s[..|s| - 1]);
    }
  }

  /** A key that denotes an index is exactly the segment written for that index. */
  lemma {:induction false} ParseIndexCanonical(key: string)
    requires ParseIndex(key).Some?
    ensures NatToString(ParseIndex(key).value) == key
    decreases |key|
  {
    var n := DigitsValue(key);
    if |key| > 1 {
      var prefix := key[..|key| - 1];
      assert prefix[0] == key[0];
      ParseIndexCanonical(prefix);
      DigitsValuePositive(prefix);
      assert n / 10 == DigitsValue(prefix) && n % 10 == key[|key| - 1] as int - '0' as int;
      assert key == prefix + [key[|key| - 1]];
      assert NatToString(n) == NatToString(n / 10) + [DigitChar(n % 10)];
    } else {
      assert key[..|key| - 1] == [];
      assert DigitsValue(key[..|key| - 1]) == 0;
      assert n == key[0] as int - '0' as int;
    }
  }

  /** Distinct indices get distinct path segments. */
  lemma NatToStringInjective(m: nat, n: nat)
    requires NatToString(m) == NatToString(n)
    ensures m == n
  {
    ParseIndexRoundTrip(m);
    ParseIndexRoundTrip(n);
  }

  // ---------------------------------------------------------------------------
  // Case folding and substring search
  // ---------------------------------------------------------------------------

  /** toLowerCase on one character; only the ASCII letters are folded. */
  function LowerChar(c: char): char {
    if 'A' <= c <= 'Z' then (c as int + 32) as char else c
  }

  /** s.toLowerCase(), ASCII letters only. */
  function Lower(s: string): (r: string)
    ensures |r| == |s|
    ensures forall i :: 0 <= i < |s| ==> r[i] == LowerChar(s[i])
  {
    if s == [] then [] else [LowerChar(s[0])] + Lower(s[1..])
  }

  /** Lower-casing twice is lower-casing once. */
  lemma LowerIdempotent(s: string)
    ensures Lower(Lower(s)) == Lower(s)
  {
  }

  /** haystack.includes(needle) */
  function Contains(haystack: string, needle: string): bool {
    needle <= haystack || (haystack != [] && Contains(haystack[1..], needle))
  }

  /** `Contains` holds exactly when the needle starts at some position of the haystack. */
  lemma {:induction false} ContainsIffOccurs(haystack: string, needle: string)
    ensures Contains(haystack, needle) <==> exists i :: 0 <= i <= |haystack| && needle <= haystack[i..]
  {
    if Contains(haystack, needle) {
      var i := ContainsWitness(haystack, needle);
    }
    if exists i :: 0 <= i <= |haystack| && needle <= haystack[i..] {
      var i :| 0 <= i <= |haystack| && needle <= haystack[i..];
      ContainsAt(haystack, needle, i);
    }
  }

  /** A position where a contained needle starts. */
  lemma {:induction false} ContainsWitness(haystack: string, needle: string) returns (i: nat)
    requires Contains(haystack, needle)
    ensures i <= |haystack| && needle <= haystack[i..]
    decreases |haystack|
  {
    if needle <= haystack {
      i := 0;
    } else {
      var j := ContainsWitness(haystack[1..], needle);
      assert haystack[1..][j..] == haystack[j + 1..];
      i := j + 1;
    }
  }

  /** A needle that starts at position `i` is contained. */
  lemma {:induction false} ContainsAt(haystack: string, needle: string, i: nat)
    requires i <= |haystack| && needle <= haystack[i..]
    ensures Contains(haystack, needle)
    decreases i
  {
    if i > 0 {
      assert haystack[1..][i - 1..] == haystack[i..];
      ContainsAt(haystack[1..], needle, i - 1);
    }
  }

  /** Every string contains itself. */
  lemma ContainsSelf(s: string)
    ensures Contains(s, s)
  {
  }

  // ---------------------------------------------------------------------------
  // Property access
  // ---------------------------------------------------------------------------

  /** `obj[key]` on a plain object: the value of the first member with that key. */
  function Get(ms: seq<Member>, key: string): (r: Option<Json>)
    ensures r.Some? <==> exists i :: 0 <= i < |ms| && ms[i].key == key
  {
    if ms == [] then None
    else if ms[0].key == key then Some(ms[0].value)
    else (assert forall i :: 1 <= i < |ms| ==> ms[i] == ms[1..][i - 1]; Get(ms[1..], key))
  }

  /** In an object with distinct keys, looking up a member's key finds that member's value. */
  lemma {:induction false} GetMember(ms: seq<Member>, i: nat)
    requires DistinctKeys(ms) && i < |ms|
    ensures Get(ms, ms[i].key) == Some(ms[i].value)
  {
    if i > 0 {
      assert ms[0].key != ms[i].key;
      GetMember(ms[1..], i - 1);
    }
  }

  /** The value reached from `v` by following `path` (keys for objects, decimal indices for arrays). */
  function Lookup(v: Json, path: seq<string>): Option<Json>
    decreases path
  {
    if path == [] then Some(v)
    else match v
      case Arr(xs) =>
        (match ParseIndex(path[0])
         case Some(i) => if i < |xs| then Lookup(xs[i], path[1..]) else None
         case None => None)
      case Obj(ms) =>
        (match Get(ms, path[0])
         case Some(child) => Lookup(child, path[1..])
         case None => None)
      case _ => None
  }

  /** Following `a + b` is following `a`, then `b`. */
  lemma {:induction false} LookupAppend(v: Json, a: seq<string>, b: seq<string>)
    ensures Lookup(v, a + b) == match Lookup(v, a) case Some(w) => Lookup(w, b) case None => None
    decreases a
  {
    if a != [] {
      assert (a + b)[0] == a[0] && (a + b)[1..] == a[1..] + b;
      match v {
        case Arr(xs) =>
          match ParseIndex(a[0]) {
            case Some(i) =>
              if i < |xs| {
                LookupAppend(xs[i], a[1..], b);
              }
            case None =>
          }
        case Obj(ms) =>
          match Get(ms, a[0]) {
            case Some(child) => LookupAppend(child, a[1..], b);
            case None =>
          }
        case _ =>
      }
    } else {
      assert a + b == b;
    }
  }

  /** Whatever a path reaches inside a well-formed value is well-formed. */
  lemma {:induction false} LookupWellFormed(v: Json, path: seq<string>)
    requires WellFormed(v) && Lookup(v, path).Some?
    ensures WellFormed(Lookup(v, path).value)
    decreases path
  {
    if path != [] {
      match v {
        case Arr(xs) =>
          var i := ParseIndex(path[0]).value;
          LookupWellFormed(xs[i], path[1..]);
        case Obj(ms) =>
          var j :| 0 <= j < |ms| && ms[j].key == path[0];
          GetMember(ms, j);
          LookupWellFormed(ms[j].value, path[1..]);
      }
    }
  }

  /** The object reached by `rel` from `v` has the member `key: value`. */
  predicate MemberAt(v: Json, rel: seq<string>, key: string, value: Json) {
    match Lookup(v, rel)
    case Some(Obj(ms)) => Member(key, value) in ms
    case _ => false
  }
}
