/**
 * The deep search of `src/utils/find.ts`: the same surface as the search of
 * `src/database/utils/find.ts`, but every helper returns an extended COPY of
 * the results, `handleObject` returns from inside its `for...in` loop on every
 * path (so only the first key of any object is looked at), and partial
 * matching succeeds only for regular expressions.
 */
module UtilsFind {
  import opened Wrappers
  import opened JsonValue
  import opened SearchTypes
  import DatabaseFind

  /** isPartialMatch of this copy: only a regular expression can match partially. */
  function IsPartialMatch(target: string, search: Term): (r: bool)
    ensures r <==> search.Pattern? && search.test(target)
  {
    match search
    case Pattern(test) => test(target)
    case _ => false
  }

  /** isMatch (nested in findInData): the same rules as the other copy, with this copy's isPartialMatch. */
  function IsMatch(key: string, value: Json, q: Query): (r: bool)
    ensures q.findBy == ByValue && r ==> value.Str? || value.Num?
    ensures q.matchPartial && !q.search.Pattern? ==> !r
    ensures !q.matchPartial ==> (r <==>
      || (q.findBy == ByKey && q.search.Text? && q.search.text == key)
      || (q.findBy == ByValue && q.search.Text? && value.Str? && value.s == q.search.text)
      || (q.findBy == ByValue && q.search.Number? && value.Num? && value.n == q.search.number))
    ensures q.matchPartial && q.search.Pattern? ==> (r <==>
      || (q.findBy == ByKey && q.search.test(key))
      || (q.findBy == ByValue && value.Str? && q.search.test(value.s))
      || (q.findBy == ByValue && value.Num? && q.search.test(IntToString(value.n))))
  {
    match q.findBy
    case ByKey =>
      if q.matchPartial then IsPartialMatch(key, q.search) else q.search.Text? && q.search.text == key
    case ByValue =>
      match value
      case Str(s) =>
        if q.matchPartial then IsPartialMatch(s, q.search) else q.search.Text? && q.search.text == s
      case Num(n) =>
        if q.matchPartial then IsPartialMatch(IntToString(n), q.search) else q.search.Number? && q.search.number == n
      case _ => false
  }

  // ---------------------------------------------------------------------------
  // Specification
  // ---------------------------------------------------------------------------

  /** Every match a full walk of this copy records: arrays in index order, objects by their first member only. */
  function FirstKeyMatches(v: Json, path: seq<string>, q: Query): seq<SearchResult>
    decreases v, 1
  {
    match v
    case Arr(_) => ElementMatches(v, 0, path, q)
    case Obj(ms) =>
      if ms == [] then []
      else
        var here := path + [ms[0].key];
        (if IsMatch(ms[0].key, ms[0].value, q) then [SearchResult(here, ms[0].value)] else [])
        + FirstKeyMatches(ms[0].value, here, q)
    case _ => []
  }

  /** The matches under the elements `i..` of array `v`. */
  function ElementMatches(v: Json, i: nat, path: seq<string>, q: Query): seq<SearchResult>
    requires v.Arr? && i <= |v.elems|
    decreases v, 0, |v.elems| - i
  {
    if i == |v.elems| then []
    else FirstKeyMatches(v.elems[i], path + [NatToString(i)], q) + ElementMatches(v, i + 1, path, q)
  }

  /** What a walk reports of the matches `all`: only the first when it stops at the first match. */
  function Reported(all: seq<SearchResult>, stopOnFirstMatch: bool): seq<SearchResult> {
    if stopOnFirstMatch then Take1(all) else all
  }

  /** What `findInData(data, search, options)` of this copy returns. */
  function Search(data: Json, search: Term, options: SearchOptions): seq<SearchResult> {
    var q := ResolveOptions(search, options);
    Reported(FirstKeyMatches(data, [], q), q.stopOnFirstMatch)
  }

  // ---------------------------------------------------------------------------
  // The implementation: results passed and returned by value
  // ---------------------------------------------------------------------------

  /** findInObject: a leaf (null or not an object) returns the incoming results unchanged. */
  method FindInObject(obj: Json, q: Query, path: seq<string>, results: seq<SearchResult>) returns (r: seq<SearchResult>)
    decreases obj, 1
    ensures r == results + Reported(FirstKeyMatches(obj, path, q), q.stopOnFirstMatch)
  {
    if !IsObject(obj) {
      return results;
    }
    if obj.Arr? {
      r := HandleArray(obj, q, results, path);
      return;
    }
    r := HandleObject(obj, q, results, path);
  }

  /**
   * handleArray: scan the elements in index order, each call extending the
   * accumulated results; when stopping at the first match, return as soon as
   * an element added a result.
   */
  method HandleArray(arr: Json, q: Query, results: seq<SearchResult>, path: seq<string>) returns (r: seq<SearchResult>)
    requires arr.Arr?
    decreases arr, 0
    ensures r == results + Reported(ElementMatches(arr, 0, path, q), q.stopOnFirstMatch)
  {
    var xs := arr.elems;
    var acc := results;
    var i := 0;
    while i < |xs|
      invariant 0 <= i <= |xs|
      invariant !q.stopOnFirstMatch ==>
        results + ElementMatches(arr, 0, path, q) == acc + ElementMatches(arr, i, path, q)
      invariant q.stopOnFirstMatch ==>
        acc == results && ElementMatches(arr, 0, path, q) == ElementMatches(arr, i, path, q)
    {
      var nested := FindInObject(xs[i], q, path + [NatToString(i)], acc);
      if q.stopOnFirstMatch && |nested| > |acc| {
        return nested;
      }
      acc := nested;
      i := i + 1;
    }
    return acc;
  }

  /**
   * handleObject: copy the results, then look at the first key only: the body
   * of the `for...in` loop returns on every path, so later keys are never
   * matched or descended into.
   */
  method HandleObject(obj: Json, q: Query, results: seq<SearchResult>, path: seq<string>) returns (r: seq<SearchResult>)
    requires obj.Obj?
    decreases obj, 0
    ensures r == results + Reported(FirstKeyMatches(obj, path, q), q.stopOnFirstMatch)
  {
    var newResults := results;
    var ms := obj.members;
    if |ms| == 0 {
      return newResults;
    }
    var key := ms[0].key;
    var currentPath := path + [key];
    var currentValue := ms[0].value;
    if IsMatch(key, currentValue, q) {
      newResults := newResults + [SearchResult(currentPath, currentValue)];
      if q.stopOnFirstMatch {
        return newResults;
      }
    }
    var nested := FindInObject(currentValue, q, currentPath, newResults);
    return nested;
  }

  /** findInData: every match this copy's walk records, or only the first of them. */
  method FindInData(data: Json, search: Term, options: SearchOptions) returns (r: seq<SearchResult>)
    ensures r == Search(data, search, options)
  {
    var q := ResolveOptions(search, options);
    r := FindInObject(data, q, [], []);
  }

  // ---------------------------------------------------------------------------
  // Properties
  // ---------------------------------------------------------------------------

  /** Only the first member of an object counts: the members after it change nothing. */
  lemma LaterKeysIgnored(first: Member, rest: seq<Member>, path: seq<string>, q: Query)
    ensures FirstKeyMatches(Obj([first] + rest), path, q) == FirstKeyMatches(Obj([first]), path, q)
  {
  }

  /** With `matchPartial`, a string or number term never matches anything. */
  lemma {:induction false} PartialNeedsPattern(v: Json, path: seq<string>, q: Query)
    requires q.matchPartial && !q.search.Pattern?
    ensures FirstKeyMatches(v, path, q) == []
    decreases v, 1
  {
    match v {
      case Arr(_) => PartialNeedsPatternElements(v, 0, path, q);
      case Obj(ms) =>
        if ms != [] {
          PartialNeedsPattern(ms[0].value, path + [ms[0].key], q);
        }
      case _ =>
    }
  }

  lemma {:induction false} PartialNeedsPatternElements(v: Json, i: nat, path: seq<string>, q: Query)
    requires v.Arr? && i <= |v.elems|
    requires q.matchPartial && !q.search.Pattern?
    ensures ElementMatches(v, i, path, q) == []
    decreases v, 0, |v.elems| - i
  {
    if i < |v.elems| {
      PartialNeedsPattern(v.elems[i], path + [NatToString(i)], q);
      PartialNeedsPatternElements(v, i + 1, path, q);
    }
  }

  /** Where the two copies' partial matching agrees (exact matching, or a regular expression), so does isMatch. */
  lemma SameMatchAsFullSearch(key: string, value: Json, q: Query)
    requires !q.matchPartial || q.search.Pattern?
    ensures IsMatch(key, value, q) == DatabaseFind.IsMatch(key, value, q)
  {
  }

  /** Every value in which each object has at most one member. */
  predicate SingleKeyed(v: Json) {
    match v
    case Arr(xs) => forall i :: 0 <= i < |xs| ==> SingleKeyed(xs[i])
    case Obj(ms) => |ms| <= 1 && (|ms| == 1 ==> SingleKeyed(ms[0].value))
    case _ => true
  }

  /** Whatever this copy finds, the full search finds too (for exact or regular-expression matching). */
  lemma {:induction false} FirstKeyResultsAreFullResults(v: Json, path: seq<string>, q: Query, r: SearchResult)
    requires !q.matchPartial || q.search.Pattern?
    requires r in FirstKeyMatches(v, path, q)
    ensures r in DatabaseFind.Matches(v, path, q)
    decreases v, 1
  {
    match v {
      case Arr(_) => FirstKeyElementResultsAreFullResults(v, 0, path, q, r);
      case Obj(ms) =>
        var here := path + [ms[0].key];
        SameMatchAsFullSearch(ms[0].key, ms[0].value, q);
        if r in FirstKeyMatches(ms[0].value, here, q) {
          FirstKeyResultsAreFullResults(ms[0].value, here, q, r);
        }
        DatabaseFind.MemberMatchesIncludes(v, 0, 0, path, q, r);
    }
  }

  lemma {:induction false} FirstKeyElementResultsAreFullResults(v: Json, i: nat, path: seq<string>, q: Query, r: SearchResult)
    requires v.Arr? && i <= |v.elems|
    requires !q.matchPartial || q.search.Pattern?
    requires r in ElementMatches(v, i, path, q)
    ensures r in DatabaseFind.ElementMatches(v, i, path, q)
    decreases v, 0, |v.elems| - i
  {
    var below := path + [NatToString(i)];
    if r in FirstKeyMatches(v.elems[i], below, q) {
      FirstKeyResultsAreFullResults(v.elems[i], below, q, r);
      DatabaseFind.ElementMatchesIncludes(v, i, i, path, q, r);
    } else {
      FirstKeyElementResultsAreFullResults(v, i + 1, path, q, r);
    }
  }

  /** When no object has a second member, the two copies return the same results in the same order. */
  lemma {:induction false} SingleKeyedAgrees(v: Json, path: seq<string>, q: Query)
    requires SingleKeyed(v) && (!q.matchPartial || q.search.Pattern?)
    ensures FirstKeyMatches(v, path, q) == DatabaseFind.Matches(v, path, q)
    decreases v, 1
  {
    match v {
      case Arr(_) => SingleKeyedAgreesElements(v, 0, path, q);
      case Obj(ms) =>
        if ms != [] {
          SameMatchAsFullSearch(ms[0].key, ms[0].value, q);
          SingleKeyedAgrees(ms[0].value, path + [ms[0].key], q);
          assert DatabaseFind.MemberMatches(v, 1, path, q) == [];
        }
      case _ =>
    }
  }

  lemma {:induction false} SingleKeyedAgreesElements(v: Json, i: nat, path: seq<string>, q: Query)
    requires v.Arr? && i <= |v.elems|
    requires SingleKeyed(v) && (!q.matchPartial || q.search.Pattern?)
    ensures ElementMatches(v, i, path, q) == DatabaseFind.ElementMatches(v, i, path, q)
    decreases v, 0, |v.elems| - i
  {
    if i < |v.elems| {
      SingleKeyedAgrees(v.elems[i], path + [NatToString(i)], q);
      SingleKeyedAgreesElements(v, i + 1, path, q);
    }
  }
}
