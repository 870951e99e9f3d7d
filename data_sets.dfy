/**
 * What both stores share: a JavaScript `Set` of items, the file a store reads
 * and writes, and the `for...of` walk over whatever `JSON.parse` returned.
 *
 * A `Set` keeps insertion order and ignores an element it already holds.
 * Objects are held by reference (two equal-looking objects are two elements);
 * primitives are compared by value.
 */
module DataSets {
  import opened Wrappers
  import opened JsonValue

  /** An object: its identity is the reference, its contents a JSON value. */
  class Item {
    const value: Json

    constructor (value: Json)
      ensures this.value == value
    {
      this.value := value;
    }
  }

  /** An element of a `Set`: an object by reference, or a primitive by value. */
  datatype Entry = Ref(item: Item) | Prim(primitive: Json)

  function ValueOf(e: Entry): Json {
    match e
    case Ref(item) => item.value
    case Prim(p) => p
  }

  /** Objects are held by reference, primitives by value. */
  predicate WellKinded(e: Entry) {
    e.Ref? <==> IsObject(ValueOf(e))
  }

  /** `Array.from(set)`, read as the JSON values of the elements. */
  function Values(es: seq<Entry>): (vs: seq<Json>)
    ensures |vs| == |es|
    ensures forall i :: 0 <= i < |es| ==> vs[i] == ValueOf(es[i])
  {
    seq(|es|, i requires 0 <= i < |es| => ValueOf(es[i]))
  }

  lemma ValuesAppend(es: seq<Entry>, e: Entry)
    ensures Values(es + [e]) == Values(es) + [ValueOf(e)]
  {
  }

  /** `set.add(e)`: appended unless already present. */
  function Insert(es: seq<Entry>, e: Entry): (r: seq<Entry>)
    ensures es <= r && e in r
    ensures forall x :: x in r ==> x in es || x == e
    ensures NoDuplicates(es) ==> NoDuplicates(r)
  {
    if e in es then es else es + [e]
  }

  /** `xs.forEach((x) => set.add(x))` */
  function InsertAll(es: seq<Entry>, xs: seq<Entry>): (r: seq<Entry>)
    decreases |xs|
  {
    if xs == [] then es else InsertAll(Insert(es, xs[0]), xs[1..])
  }

  /** Adding `xs` and then `x` is adding `xs + [x]`. */
  lemma {:induction false} InsertAllAppend(es: seq<Entry>, xs: seq<Entry>, x: Entry)
    ensures InsertAll(es, xs + [x]) == Insert(InsertAll(es, xs), x)
    decreases |xs|
  {
    if xs == [] {
      assert InsertAll(Insert(es, x), []) == Insert(es, x);
      assert [] + [x] == [x];
    } else {
      assert (xs + [x])[0] == xs[0] && (xs + [x])[1..] == xs[1..] + [x];
      InsertAllAppend(Insert(es, xs[0]), xs[1..], x);
    }
  }

  /** After adding `xs`, the set holds exactly what it held and the elements of `xs`, in insertion order. */
  lemma {:induction false} InsertAllContents(es: seq<Entry>, xs: seq<Entry>)
    ensures var r := InsertAll(es, xs);
      && es <= r
      && (forall x :: x in r <==> x in es || x in xs)
      && (NoDuplicates(es) ==> NoDuplicates(r))
    decreases |xs|
  {
    if xs != [] {
      InsertAllContents(Insert(es, xs[0]), xs[1..]);
      assert forall x :: x in xs <==> x == xs[0] || x in xs[1..];
    }
  }

  /** Adding the same elements again changes nothing. */
  lemma {:induction false} InsertAllIdempotent(es: seq<Entry>, xs: seq<Entry>)
    ensures InsertAll(InsertAll(es, xs), xs) == InsertAll(es, xs)
  {
    InsertAllContents(es, xs);
    InsertAllPresent(InsertAll(es, xs), xs);
  }

  /** Adding elements the set already holds changes nothing. */
  lemma {:induction false} InsertAllPresent(es: seq<Entry>, xs: seq<Entry>)
    requires forall x :: x in xs ==> x in es
    ensures InsertAll(es, xs) == es
    decreases |xs|
  {
    if xs != [] {
      assert xs[0] in xs;
      InsertAllPresent(es, xs[1..]);
    }
  }

  /** Adding distinct new elements appends them all, in order. */
  lemma {:induction false} InsertAllFresh(es: seq<Entry>, xs: seq<Entry>)
    requires NoDuplicates(xs) && forall x :: x in xs ==> x !in es
    ensures InsertAll(es, xs) == es + xs
    decreases |xs|
  {
    if xs != [] {
      assert xs[0] in xs;
      assert NoDuplicates(xs[1..]) by {
        forall i, j | 0 <= i < j < |xs[1..]|
          ensures xs[1..][i] != xs[1..][j]
        {
          assert xs[1..][i] == xs[i + 1] && xs[1..][j] == xs[j + 1];
        }
      }
      forall x | x in xs[1..]
        ensures x !in es + [xs[0]]
      {
        var k :| 0 <= k < |xs[1..]| && xs[1..][k] == x;
        assert xs[k + 1] == x;
      }
      InsertAllFresh(es + [xs[0]], xs[1..]);
      assert es + [xs[0]] + xs[1..] == es + xs;
    }
  }

  /** The elements of `xs` the validator accepts, in order. */
  function Accepted(validate: Json -> bool, xs: seq<Json>): (r: seq<Json>)
    ensures |r| <= |xs|
    ensures forall v :: v in r <==> v in xs && validate(v)
  {
    if xs == [] then []
    else (if validate(xs[0]) then [xs[0]] else []) + Accepted(validate, xs[1..])
  }

  /** Filtering `xs + [x]` is filtering `xs`, then `x`. */
  lemma {:induction false} AcceptedAppend(validate: Json -> bool, xs: seq<Json>, x: Json)
    ensures Accepted(validate, xs + [x]) == Accepted(validate, xs) + (if validate(x) then [x] else [])
    decreases |xs|
  {
    if xs == [] {
      assert [] + [x] == [x];
    } else {
      assert (xs + [x])[0] == xs[0] && (xs + [x])[1..] == xs[1..] + [x];
      AcceptedAppend(validate, xs[1..], x);
    }
  }

  /** When the validator accepts every element, nothing is filtered out. */
  lemma {:induction false} AcceptedAll(validate: Json -> bool, xs: seq<Json>)
    requires forall i :: 0 <= i < |xs| ==> validate(xs[i])
    ensures Accepted(validate, xs) == xs
  {
    if xs != [] {
      AcceptedAll(validate, xs[1..]);
    }
  }

  // ---------------------------------------------------------------------------
  // The file
  // ---------------------------------------------------------------------------

  /**
   * The file at `_filePath` as reading it sees it: it does not exist
   * (`Deno.errors.NotFound`), it cannot be read for another reason, or it
   * holds text that is (`Some`) or is not (`None`) JSON.
   */
  datatype FileState = Missing | Unreadable | Holds(parsed: Option<Json>)

  /**
   * Reading the file and walking the parsed value with `for...of`: a missing
   * file gives nothing; an unreadable file or text that is not JSON throws; an
   * array gives its elements; a string gives its characters, one string each;
   * any other value is not iterable and throws.
   */
  function LoadedElements(file: FileState): (r: (Outcome, seq<Json>))
    ensures r.0 == Rejected <==>
      || file == Unreadable
      || (file.Holds? && (file.parsed.None? || !(file.parsed.value.Arr? || file.parsed.value.Str?)))
    ensures r.0 == Rejected ==> r.1 == []
    ensures file == Missing ==> r == (Resolved, [])
    ensures forall xs :: file == Holds(Some(Arr(xs))) ==> r == (Resolved, xs)
    ensures forall s :: file == Holds(Some(Str(s))) ==>
      |r.1| == |s| && forall i :: 0 <= i < |s| ==> r.1[i] == Str([s[i]])
  {
    match file
    case Missing => (Resolved, [])
    case Unreadable => (Rejected, [])
    case Holds(None) => (Rejected, [])
    case Holds(Some(Arr(xs))) => (Resolved, xs)
    case Holds(Some(Str(s))) => (Resolved, seq(|s|, i requires 0 <= i < |s| => Str([s[i]])))
    case Holds(Some(_)) => (Rejected, [])
  }

  /** The set element a freshly parsed value becomes: a new object, or the primitive itself. */
  method NewEntry(v: Json) returns (e: Entry)
    ensures ValueOf(e) == v && WellKinded(e)
    ensures e.Ref? ==> fresh(e.item)
  {
    if IsObject(v) {
      var item := new Item(v);
      e := Ref(item);
    } else {
      e := Prim(v);
    }
  }

  /** Entries made by `NewEntry` from values: each object is its own new reference. */
  ghost predicate DistinctRefs(es: seq<Entry>) {
    forall i, j :: 0 <= i < j < |es| && es[i].Ref? && es[j].Ref? ==> es[i].item != es[j].item
  }

  predicate AllWellKinded(es: seq<Entry>) {
    forall i :: 0 <= i < |es| ==> WellKinded(es[i])
  }

  /** No object among `es` is already in `base`. */
  predicate NewTo(es: seq<Entry>, base: seq<Entry>) {
    forall i :: 0 <= i < |es| && es[i].Ref? ==> es[i] !in base
  }

  lemma DistinctRefsAppend(es: seq<Entry>, e: Entry)
    requires DistinctRefs(es)
    requires e.Ref? ==> forall k :: 0 <= k < |es| && es[k].Ref? ==> es[k].item != e.item
    ensures DistinctRefs(es + [e])
  {
  }

  /**
   * Reading back what was written: entries made afresh for the values of a
   * well-kinded set without duplicates have no duplicates either, so adding
   * them to an empty set gives the same values in the same order.
   */
  lemma ReloadedValues(original: seq<Entry>, reloaded: seq<Entry>)
    requires NoDuplicates(original) && forall i :: 0 <= i < |original| ==> WellKinded(original[i])
    requires Values(reloaded) == Values(original) && DistinctRefs(reloaded)
    requires forall i :: 0 <= i < |reloaded| ==> WellKinded(reloaded[i])
    ensures Values(InsertAll([], reloaded)) == Values(original)
  {
    assert |reloaded| == |original|;
    forall i, j | 0 <= i < j < |reloaded|
      ensures reloaded[i] != reloaded[j]
    {
      SameKindSameValue(original, reloaded, i);
      SameKindSameValue(original, reloaded, j);
    }
    InsertAllFresh([], reloaded);
    assert [] + reloaded == reloaded;
  }

  lemma SameKindSameValue(original: seq<Entry>, reloaded: seq<Entry>, i: nat)
    requires i < |original| && WellKinded(original[i])
    requires Values(reloaded) == Values(original) && i < |reloaded| && WellKinded(reloaded[i])
    ensures ValueOf(reloaded[i]) == ValueOf(original[i])
    ensures reloaded[i].Prim? ==> reloaded[i] == original[i]
  {
    assert Values(reloaded)[i] == ValueOf(reloaded[i]);
  }
}
