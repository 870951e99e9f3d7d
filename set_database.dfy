/**
 * The legacy store of `src/database/setDatabase.ts` (createSetDatabase): a
 * `Set` of items with no queue. It calls the validator but ignores its answer,
 * so every item is stored, and its saveBatch writes nothing.
 */
module SetDatabase {
  import opened Wrappers
  import opened JsonValue
  import opened DataSets

  class SetDb {
    var dataSet: seq<Entry>
    var file: FileState
    const validateItem: Json -> bool

    /** A `Set` holds each element once, objects by reference and primitives by value. */
    ghost predicate Valid()
      reads this
    {
      NoDuplicates(dataSet) && AllWellKinded(dataSet)
    }

    /** createSetDatabase({ _filePath, validateItem }) */
    constructor (file: FileState, validateItem: Json -> bool)
      ensures this.file == file && this.validateItem == validateItem
      ensures dataSet == [] && Valid()
    {
      this.file := file;
      this.validateItem := validateItem;
      dataSet := [];
    }

    /** getAllItems: the items in insertion order. */
    function GetAllItems(): (items: seq<Json>)
      reads this
      ensures |items| == |dataSet|
      ensures forall i :: 0 <= i < |dataSet| ==> items[i] == ValueOf(dataSet[i])
    {
      Values(dataSet)
    }

    /**
     * loadBatch: readItemsFromFile (a missing file reads as no items), then
     * add every element, valid or not. Any other read or parse failure, or a
     * parsed value that cannot be iterated, rejects before anything is added.
     */
    method LoadBatch() returns (outcome: Outcome, ghost added: seq<Entry>)
      requires Valid()
      modifies this`dataSet
      ensures Valid()
      ensures outcome == LoadedElements(file).0
      ensures Values(added) == LoadedElements(file).1
      ensures AllWellKinded(added) && NewTo(added, old(dataSet)) && DistinctRefs(added)
      ensures dataSet == InsertAll(old(dataSet), added)
    {
      var loaded := LoadedElements(file);
      outcome := loaded.0;
      added := LoadAll(loaded.1);
    }

    /** The `for...of` loop of loadBatch: validate each element (answer dropped) and add it. */
    method LoadAll(elements: seq<Json>) returns (ghost added: seq<Entry>)
      requires Valid()
      modifies this`dataSet
      ensures Valid()
      ensures Values(added) == elements
      ensures AllWellKinded(added) && NewTo(added, old(dataSet)) && DistinctRefs(added)
      ensures dataSet == InsertAll(old(dataSet), added)
    {
      added := [];
      for i := 0 to |elements|
        invariant Valid()
        invariant Values(added) == elements[..i]
        invariant DistinctRefs(added)
        invariant AllWellKinded(added) && NewTo(added, old(dataSet))
        invariant dataSet == InsertAll(old(dataSet), added)
      {
        assert elements[..i + 1] == elements[..i] + [elements[i]];
        var _ := validateItem(elements[i]);
        var e := AdmitLoaded(elements[i], old(dataSet), added);
        added := added + [e];
      }
      assert elements[..|elements|] == elements;
    }

    /** One turn of loadBatch's loop: the element becomes a new object, or the primitive itself. */
    method AdmitLoaded(v: Json, ghost base: seq<Entry>, ghost added: seq<Entry>) returns (e: Entry)
      requires Valid()
      requires dataSet == InsertAll(base, added) && DistinctRefs(added)
      requires AllWellKinded(added) && NewTo(added, base)
      modifies this`dataSet
      ensures Valid() && dataSet == InsertAll(base, added + [e])
      ensures ValueOf(e) == v && (e.Ref? ==> fresh(e.item))
      ensures AllWellKinded(added + [e]) && NewTo(added + [e], base)
      ensures DistinctRefs(added + [e]) && Values(added + [e]) == Values(added) + [v]
    {
      e := NewEntry(v);
      InsertAllAppend(base, added, e);
      DistinctRefsAppend(added, e);
      ValuesAppend(added, e);
      dataSet := Insert(dataSet, e);
    }

    /** saveBatch: does nothing and resolves. */
    method SaveBatch() returns (outcome: Outcome)
      ensures outcome == Resolved
    {
      outcome := Resolved;
    }

    /** addItem: the validator is called, its answer dropped, and the item added. */
    method AddItem(item: Entry)
      requires Valid() && WellKinded(item)
      modifies this`dataSet
      ensures Valid()
      ensures dataSet == Insert(old(dataSet), item)
    {
      var _ := validateItem(ValueOf(item));
      dataSet := Insert(dataSet, item);
    }

    /** addItems: validate each item (answers dropped), then add them all in order. */
    method AddItems(items: seq<Entry>)
      requires Valid() && AllWellKinded(items)
      modifies this`dataSet
      ensures Valid()
      ensures dataSet == InsertAll(old(dataSet), items)
    {
      for i := 0 to |items| {
        var _ := validateItem(ValueOf(items[i]));
      }
      for i := 0 to |items|
        invariant Valid()
        invariant dataSet == InsertAll(old(dataSet), items[..i])
      {
        InsertAllAppend(old(dataSet), items[..i], items[i]);
        assert items[..i + 1] == items[..i] + [items[i]];
        dataSet := Insert(dataSet, items[i]);
      }
      assert items[..|items|] == items;
    }
  }
}
