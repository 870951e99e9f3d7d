/**
 * The deep search of `src/database/utils/find.ts`: a depth-first, pre-order
 * walk of a JSON-like value that reports `{path, value}` for every object
 * member whose key (or primitive value) matches the term. All the recursive
 * helpers push into ONE results array that is passed down by reference.
 */
module DatabaseFind {
  import opened Wrappers
  import opened JsonValue
  import opened SearchTypes

  // ---------------------------------------------------------------------------
  // Matching one member
  // ---------------------------------------------------------------------------

  /**
   * isPartialMatch: a regular expression is tested against the target; any
   * other term matches when its string form occurs in the target, ignoring case.
   */
  function IsPartialMatch(target: string, search: Term): (r: bool)
    ensures search.Pattern? ==> (r <==> search.test(target))
    ensures search.Text? ==>
      (r <==> exists i :: 0 <= i <= |target| && Lower(search.text) <= Lower(target)[i..])
    ensures search.Number? ==>
      (r <==> exists i :: 0 <= i <= |target| && Lower(IntToString(search.number)) <= Lower(target)[i..])
  {
    match search
    case Pattern(test) => test(target)
    case Text(t) =>
      assert |Lower(target)| == |target|;
      ContainsIffOccurs(Lower(target), Lower(t));
      Contains(Lower(target), Lower(t))
    case Number(n) =>
      assert |Lower(target)| == |target|;
      ContainsIffOccurs(Lower(target), Lower(IntToString(n)));
      Contains(Lower(target), Lower(IntToString(n)))
  }

  /**
   * isMatch: by key, the member's key is compared; by value, only string and
   * number values are compared, exactly with `===` (no coercion) or partially.
   */
  function IsMatch(key: string, value: Json, q: Query): (r: bool)
    ensures q.findBy == ByValue && r ==> value.Str? || value.Num?
    ensures !q.matchPartial ==> (r <==>
      || (q.findBy == ByKey && q.search.Text? && q.search.text == key)
      || (q.findBy == ByValue && q.search.Text? && value.Str? && value.s == q.search.text)
      || (q.findBy == ByValue && q.search.Number? && value.Num? && value.n == q.search.number))
    ensures q.matchPartial ==> (r <==>
      || (q.findBy == ByKey && IsPartialMatch(key, q.search))
      || (q.findBy == ByValue && value.Str? && IsPartialMatch(value.s, q.search))
      || (q.findBy == ByValue && value.Num? && IsPartialMatch(IntToString(value.n), q.search)))
  {
    match q.findBy
    case ByKey =>
      if q.matchPartial then IsPartialMatch(key, q.search) else q.search.Text? && q.search.text == key
    case ByValue =>
      match value
      case Str(s) =>
        if q.matchPartial then IsPartialMatch(s, q.search) else q.search.Text? && q.search.text == s
      case Num(n) =>
        if q.matchPartial then IsPartialMatch(IntToString(n), q.search) else q.search.Number? && q.search.number == n
      case _ => false
  }

  // ---------------------------------------------------------------------------
  // Specification: every match, in pre-order
  // ---------------------------------------------------------------------------

  /** All matches under `v`, whose own path is `path`, in the order a full walk records them. */
  function Matches(v: Json, path: seq<string>, q: Query): seq<SearchResult>
    decreases v, 1
  {
    match v
    case Arr(_) => ElementMatches(v, 0, path, q)
    case Obj(_) => MemberMatches(v, 0, path, q)
    case _ => []
  }

  /** The matches under the elements `i..` of array `v`, each under its index as path segment. */
  function ElementMatches(v: Json, i: nat, path: seq<string>, q: Query): seq<SearchResult>
    requires v.Arr? && i <= |v.elems|
    decreases v, 0, |v.elems| - i
  {
    if i == |v.elems| then []
    else Matches(v.elems[i], path + [NatToString(i)], q) + ElementMatches(v, i + 1, path, q)
  }

  /** The matches of the members `i..` of object `v`: each member's own match first, then those below it. */
  function MemberMatches(v: Json, i: nat, path: seq<string>, q: Query): seq<SearchResult>
    requires v.Obj? && i <= |v.members|
    decreases v, 0, |v.members| - i
  {
    if i == |v.members| then []
    else
      var m := v.members[i];
      var here := path + [m.key];
      (if IsMatch(m.key, m.value, q) then [SearchResult(here, m.value)] else [])
      + Matches(m.value, here, q)
      + MemberMatches(v, i + 1, path, q)
  }

  /** What `findInData(data, search, options)` returns. */
  function Search(data: Json, search: Term, options: SearchOptions): seq<SearchResult> {
    var q := ResolveOptions(search, options);
    if q.stopOnFirstMatch then Take1(Matches(data, [], q)) else Matches(data, [], q)
  }

  // ---------------------------------------------------------------------------
  // The implementation: one shared, growing results array
  // ---------------------------------------------------------------------------

  /** The `SearchResult[]` array that every helper pushes into. */
  class ResultList {
    var items: seq<SearchResult>

    constructor ()
      ensures items == []
    {
      items := [];
    }

    method Push(r: SearchResult)
      modifies this
      ensures items == old(items) + [r]
    {
      items := items + [r];
    }
  }

  /**
   * findInObject: a leaf (null or not an object) adds nothing; an array or an
   * object is handed to its helper. The array returned is always `results`.
   * When stopping at the first match, callers pass an empty array.
   */
  method FindInObject(obj: Json, q: Query, results: ResultList, path: seq<string>) returns (r: ResultList)
    modifies results
    decreases obj, 1
    ensures r == results
    ensures !q.stopOnFirstMatch ==> results.items == old(results.items) + Matches(obj, path, q)
    ensures q.stopOnFirstMatch && old(results.items) == [] ==> results.items == Take1(Matches(obj, path, q))
  {
    if !IsObject(obj) {
      return results;
    }
    if obj.Arr? {
      r := HandleArray(obj, q, results, path);
      return;
    }
    r := HandleObject(obj, q, results, path);
  }

  /** handleArray: descend into each element in index order; elements are never matched themselves. */
  method HandleArray(arr: Json, q: Query, results: ResultList, path: seq<string>) returns (r: ResultList)
    requires arr.Arr?
    modifies results
    decreases arr, 0
    ensures r == results
    ensures !q.stopOnFirstMatch ==> results.items == old(results.items) + ElementMatches(arr, 0, path, q)
    ensures q.stopOnFirstMatch && old(results.items) == [] ==> results.items == Take1(ElementMatches(arr, 0, path, q))
  {
    var xs := arr.elems;
    var i := 0;
    while i < |xs|
      invariant 0 <= i <= |xs|
      invariant !q.stopOnFirstMatch ==>
        old(results.items) + ElementMatches(arr, 0, path, q) == results.items + ElementMatches(arr, i, path, q)
      invariant q.stopOnFirstMatch && old(results.items) == [] ==>
        results.items == [] && ElementMatches(arr, 0, path, q) == ElementMatches(arr, i, path, q)
    {
      var nested := FindInObject(xs[i], q, results, path + [NatToString(i)]);
      if q.stopOnFirstMatch && |nested.items| > 0 {
        return nested;
      }
      i := i + 1;
    }
    return results;
  }

  /**
   * handleObject: for each member in enumeration order, record a match on it,
   * then descend into its value; when stopping at the first match, return as
   * soon as the results are non-empty.
   */
  method HandleObject(obj: Json, q: Query, results: ResultList, path: seq<string>) returns (r: ResultList)
    requires obj.Obj?
    modifies results
    decreases obj, 0
    ensures r == results
    ensures !q.stopOnFirstMatch ==> results.items == old(results.items) + MemberMatches(obj, 0, path, q)
    ensures q.stopOnFirstMatch && old(results.items) == [] ==> results.items == Take1(MemberMatches(obj, 0, path, q))
  {
    var ms := obj.members;
    var i := 0;
    while i < |ms|
      invariant 0 <= i <= |ms|
      invariant !q.stopOnFirstMatch ==>
        old(results.items) + MemberMatches(obj, 0, path, q) == results.items + MemberMatches(obj, i, path, q)
      invariant q.stopOnFirstMatch && old(results.items) == [] ==>
        results.items == [] && MemberMatches(obj, 0, path, q) == MemberMatches(obj, i, path, q)
    {
      var key := ms[i].key;
      var currentPath := path + [key];
      var currentValue := ms[i].value;
      if IsMatch(key, currentValue, q) {
        results.Push(SearchResult(currentPath, currentValue));
        if q.stopOnFirstMatch {
          return results;
        }
      }
      var nested := FindInObject(currentValue, q, results, currentPath);
      if q.stopOnFirstMatch && |nested.items| > 0 {
        return nested;
      }
      i := i + 1;
    }
    return results;
  }

  /**
   * findInData: every match in pre-order or, with `stopOnFirstMatch`, only the
   * first of them; `predicate` plays no part.
   */
  method FindInData(data: Json, search: Term, options: SearchOptions) returns (r: seq<SearchResult>)
    ensures r == Search(data, search, options)
    ensures ResolveOptions(search, options).stopOnFirstMatch ==> |r| <= 1
  {
    var q := ResolveOptions(search, options);
    var results := new ResultList();
    var found := FindInObject(data, q, results, []);
    r := found.items;
  }

  // ---------------------------------------------------------------------------
  // What the results are: exactly the matching object members, at their paths
  // ---------------------------------------------------------------------------

  /**
   * Every result lies below `path`, is the member `key: value` of an OBJECT
   * (an array element is never reported itself), where `key` is the last
   * segment of its path, and that member matches the query.
   */
  lemma {:induction false} MatchesSound(v: Json, path: seq<string>, q: Query, r: SearchResult)
    requires r in Matches(v, path, q)
    ensures |r.path| > |path| && r.path[..|path|] == path
    ensures IsMatch(Last(r.path), r.value, q)
    ensures WellFormed(v) ==> MemberAt(v, r.path[|path|..|r.path| - 1], Last(r.path), r.value)
    decreases v, 1
  {
    match v {
      case Arr(_) => ElementMatchesSound(v, 0, path, q, r);
      case Obj(_) => MemberMatchesSound(v, 0, path, q, r);
    }
  }

  lemma {:induction false} ElementMatchesSound(v: Json, i: nat, path: seq<string>, q: Query, r: SearchResult)
    requires v.Arr? && i <= |v.elems|
    requires r in ElementMatches(v, i, path, q)
    ensures |r.path| > |path| && r.path[..|path|] == path
    ensures IsMatch(Last(r.path), r.value, q)
    ensures WellFormed(v) ==> MemberAt(v, r.path[|path|..|r.path| - 1], Last(r.path), r.value)
    decreases v, 0, |v.elems| - i
  {
    var seg := NatToString(i);
    var below := path + [seg];
    if r in Matches(v.elems[i], below, q) {
      MatchesSound(v.elems[i], below, q, r);
      assert r.path[..|path|] == r.path[..|below|][..|path|];
      var rel := r.path[|path|..|r.path| - 1];
      assert r.path[..|below|] == below;
      assert |below| == |path| + 1 && r.path[|path|] == seg;
      assert rel[0] == seg;
      assert rel[1..] == r.path[|below|..|r.path| - 1];
      ParseIndexRoundTrip(i);
      assert Lookup(v, rel) == Lookup(v.elems[i], rel[1..]);
    } else {
      ElementMatchesSound(v, i + 1, path, q, r);
    }
  }

  lemma {:induction false} MemberMatchesSound(v: Json, i: nat, path: seq<string>, q: Query, r: SearchResult)
    requires v.Obj? && i <= |v.members|
    requires r in MemberMatches(v, i, path, q)
    ensures |r.path| > |path| && r.path[..|path|] == path
    ensures IsMatch(Last(r.path), r.value, q)
    ensures WellFormed(v) ==> MemberAt(v, r.path[|path|..|r.path| - 1], Last(r.path), r.value)
    decreases v, 0, |v.members| - i
  {
    var m := v.members[i];
    var here := path + [m.key];
    if IsMatch(m.key, m.value, q) && r == SearchResult(here, m.value) {
      assert r.path[|path|..|r.path| - 1] == [];
      assert v.members[i] in v.members;
    } else if r in Matches(m.value, here, q) {
      MatchesSound(m.value, here, q, r);
      assert r.path[..|path|] == r.path[..|here|][..|path|];
      var rel := r.path[|path|..|r.path| - 1];
      assert |here| == |path| + 1 && here[|path|] == m.key;
      assert rel[0] == r.path[..|here|][|path|] == m.key;
      assert rel[1..] == r.path[|here|..|r.path| - 1];
      if WellFormed(v) {
        GetMember(v.members, i);
        assert Lookup(v, rel) == Lookup(m.value, rel[1..]);
      }
    } else {
      MemberMatchesSound(v, i + 1, path, q, r);
    }
  }

  lemma {:induction false} ElementMatchesIncludes(v: Json, i: nat, j: nat, path: seq<string>, q: Query, r: SearchResult)
    requires v.Arr? && i <= j < |v.elems|
    requires r in Matches(v.elems[j], path + [NatToString(j)], q)
    ensures r in ElementMatches(v, i, path, q)
    decreases j - i
  {
    if i < j {
      ElementMatchesIncludes(v, i + 1, j, path, q, r);
    }
  }

  lemma {:induction false} MemberMatchesIncludes(v: Json, i: nat, j: nat, path: seq<string>, q: Query, r: SearchResult)
    requires v.Obj? && i <= j < |v.members|
    requires var m := v.members[j];
      (IsMatch(m.key, m.value, q) && r == SearchResult(path + [m.key], m.value))
      || r in Matches(m.value, path + [m.key], q)
    ensures r in MemberMatches(v, i, path, q)
    decreases j - i
  {
    var m := v.members[i];
    var here := path + [m.key];
    var own := if IsMatch(m.key, m.value, q) then [SearchResult(here, m.value)] else [];
    assert MemberMatches(v, i, path, q) == own + Matches(m.value, here, q) + MemberMatches(v, i + 1, path, q);
    if i < j {
      MemberMatchesIncludes(v, i + 1, j, path, q, r);
    }
  }

  /** Conversely, every matching member of every object below `v` is reported, with its full path. */
  lemma {:induction false} MatchesComplete(v: Json, path: seq<string>, q: Query, rel: seq<string>, key: string, value: Json)
    requires WellFormed(v)
    requires MemberAt(v, rel, key, value) && IsMatch(key, value, q)
    ensures SearchResult(path + rel + [key], value) in Matches(v, path, q)
    decreases rel
  {
    if rel == [] {
      assert path + rel + [key] == path + [key];
      OwnMemberMatches(v, path, q, key, value);
    } else {
      match v {
        case Arr(xs) =>
          var i := ParseIndex(rel[0]).value;
          ParseIndexCanonical(rel[0]);
          var below := path + [rel[0]];
          MatchesComplete(xs[i], below, q, rel[1..], key, value);
          PathSplit(path, rel, key);
          ElementMatchesIncludes(v, 0, i, path, q, SearchResult(path + rel + [key], value));
        case Obj(ms) =>
          var j :| 0 <= j < |ms| && ms[j].key == rel[0];
          GetMember(ms, j);
          var below := path + [rel[0]];
          MatchesComplete(ms[j].value, below, q, rel[1..], key, value);
          PathSplit(path, rel, key);
          MemberMatchesIncludes(v, 0, j, path, q, SearchResult(path + rel + [key], value));
      }
    }
  }

  lemma PathSplit(path: seq<string>, rel: seq<string>, key: string)
    requires rel != []
    ensures path + [rel[0]] + rel[1..] + [key] == path + rel + [key]
  {
    assert [rel[0]] + rel[1..] == rel;
  }

  /** A matching member of `v` itself is reported under `path + [key]`. */
  lemma OwnMemberMatches(v: Json, path: seq<string>, q: Query, key: string, value: Json)
    requires MemberAt(v, [], key, value) && IsMatch(key, value, q)
    ensures SearchResult(path + [key], value) in Matches(v, path, q)
  {
    var ms := v.members;
    var j :| 0 <= j < |ms| && ms[j] == Member(key, value);
    MemberMatchesIncludes(v, 0, j, path, q, SearchResult(path + [key], value));
  }

  /** In a well-formed value, following a result's path from the root leads to the result's value. */
  lemma ResultValueAtPath(v: Json, q: Query, r: SearchResult)
    requires WellFormed(v) && r in Matches(v, [], q)
    ensures Lookup(v, r.path) == Some(r.value)
  {
    MatchesSound(v, [], q, r);
    var rel := r.path[..|r.path| - 1];
    assert r.path[0..|r.path| - 1] == rel;
    var ms := Lookup(v, rel).value.members;
    LookupWellFormed(v, rel);
    var j :| 0 <= j < |ms| && ms[j] == Member(Last(r.path), r.value);
    GetMember(ms, j);
    LookupAppend(v, rel, [Last(r.path)]);
    assert rel + [Last(r.path)] == r.path;
  }

  /** Exact key search: every result's last path segment is the (string) term itself. */
  lemma ExactKeyResultsEndInTerm(v: Json, path: seq<string>, q: Query, r: SearchResult)
    requires q.findBy == ByKey && !q.matchPartial
    requires r in Matches(v, path, q)
    ensures r.path != [] && q.search.Text? && Last(r.path) == q.search.text
  {
    MatchesSound(v, path, q, r);
  }

  /** Exact key search for a number never matches: keys are strings and `===` does not coerce. */
  lemma NumberNeverEqualsKey(v: Json, path: seq<string>, q: Query)
    requires q.findBy == ByKey && !q.matchPartial && q.search.Number?
    ensures Matches(v, path, q) == []
  {
    var found := Matches(v, path, q);
    if found != [] {
      MatchesSound(v, path, q, found[0]);
    }
  }

  /**
   * Value search reports only strings and numbers; exact value search reports
   * only values `===` the term (a number never matches a string, nor the reverse).
   */
  lemma ValueResultsArePrimitive(v: Json, path: seq<string>, q: Query, r: SearchResult)
    requires q.findBy == ByValue && r in Matches(v, path, q)
    ensures r.value.Str? || r.value.Num?
    ensures !q.matchPartial && q.search.Text? ==> r.value == Str(q.search.text)
    ensures !q.matchPartial && q.search.Number? ==> r.value == Num(q.search.number)
    ensures !q.matchPartial ==> !q.search.Pattern?
  {
    MatchesSound(v, path, q, r);
  }

  /** Partial matching of a string or number term ignores the case of the target. */
  lemma PartialMatchIgnoresCase(target: string, search: Term)
    requires !search.Pattern?
    ensures IsPartialMatch(Lower(target), search) == IsPartialMatch(target, search)
  {
    LowerIdempotent(target);
  }

  /** Whatever matches exactly also matches partially. */
  lemma ExactMatchIsPartialMatch(key: string, value: Json, q: Query)
    requires !q.matchPartial && IsMatch(key, value, q)
    ensures IsMatch(key, value, q.(matchPartial := true))
  {
    if q.findBy == ByKey {
      ContainsSelf(Lower(key));
    } else if value.Str? {
      ContainsSelf(Lower(value.s));
    } else {
      ContainsSelf(Lower(IntToString(value.n)));
    }
  }

  /** Turning on `matchPartial` never loses a result of a well-formed value. */
  lemma PartialSearchFindsExactResults(v: Json, path: seq<string>, q: Query, r: SearchResult)
    requires WellFormed(v) && !q.matchPartial && r in Matches(v, path, q)
    ensures r in Matches(v, path, q.(matchPartial := true))
  {
    MatchesSound(v, path, q, r);
    var rel := r.path[|path|..|r.path| - 1];
    ExactMatchIsPartialMatch(Last(r.path), r.value, q);
    MatchesComplete(v, path, q.(matchPartial := true), rel, Last(r.path), r.value);
    assert path + rel + [Last(r.path)] == r.path;
  }

  /** `predicate` is never read: the results are the same whatever it is. */
  lemma PredicateIgnored(data: Json, search: Term, options: SearchOptions, p: Option<(Json, seq<string>) -> bool>)
    ensures Search(data, search, options.(valuePredicate := p)) == Search(data, search, options)
  {
  }

  /** `findInData({a: {b: {c: "X"}}}, "c")` finds one result, at path a.b.c with value "X". */
  lemma NestedKeyExample()
    ensures Search(Obj([Member("a", Obj([Member("b", Obj([Member("c", Str("X"))]))]))]),
                   Text("c"), SearchOptions(None, None, None, None))
         == [SearchResult(["a", "b", "c"], Str("X"))]
  {
    var q := ResolveOptions(Text("c"), SearchOptions(None, None, None, None));
    var hit := SearchResult(["a", "b", "c"], Str("X"));
    var c := Obj([Member("c", Str("X"))]);
    var b := Obj([Member("b", c)]);
    var a := Obj([Member("a", b)]);
    assert IsMatch("c", Str("X"), q) && !IsMatch("b", c, q) && !IsMatch("a", b, q);
    assert ["a", "b"] + ["c"] == ["a", "b", "c"] && ["a"] + ["b"] == ["a", "b"] && [] + ["a"] == ["a"];
    assert MemberMatches(c, 1, ["a", "b"], q) == [];
    assert MemberMatches(c, 0, ["a", "b"], q) == [hit];
    assert MemberMatches(b, 1, ["a"], q) == [];
    assert MemberMatches(b, 0, ["a"], q) == [hit];
    assert MemberMatches(a, 1, [], q) == [];
    assert MemberMatches(a, 0, [], q) == [hit];
  }
}
