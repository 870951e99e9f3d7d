/**
 * The collection store of `src/database/database.ts` (createDb): a `Set` of
 * validated items persisted to one JSON file. Every public operation except
 * getAllItems hands its body to an `OperationQueue`; the methods of `Db`
 * below are those bodies, as the queue runs them, and how each body ends
 * (settling its caller's promise, or awaiting a nested `saveBatch`) is what
 * the queue model of module `Queue` consumes.
 */
module CollectionStore {
  import opened Wrappers
  import opened JsonValue
  import opened DataSets
  import Queue

  /** How an operation body ends once the queue has started it. */
  datatype BodyEnd =
    | Settles(outcome: Outcome)  // the body returns or throws; its caller's promise settles
    | AwaitsSave                 // the body runs `await saveBatch()`: it enqueues a save and waits for it

  // ---------------------------------------------------------------------------
  // `{ ...item, id: item.id ?? String(uuid()) }`
  // ---------------------------------------------------------------------------

  /** The members `{ ...item }` copies: an object's own members, the indexed elements of an array or string, nothing else. */
  function Spread(item: Json): (ms: seq<Member>)
    ensures item.Obj? ==> ms == item.members
    ensures item.Arr? ==> (
      && |ms| == |item.elems|
      && forall i :: 0 <= i < |ms| ==> ms[i] == Member(NatToString(i), item.elems[i]))
    ensures item.Str? ==> (
      && |ms| == |item.s|
      && forall i :: 0 <= i < |ms| ==> ms[i] == Member(NatToString(i), Str([item.s[i]])))
    ensures !item.Obj? && !item.Arr? && !item.Str? ==> ms == []
  {
    match item
    case Obj(members) => members
    case Arr(xs) => seq(|xs|, i requires 0 <= i < |xs| => Member(NatToString(i), xs[i]))
    case Str(s) => seq(|s|, i requires 0 <= i < |s| => Member(NatToString(i), Str([s[i]])))
    case _ => []
  }

  /** Setting a property: it keeps its place when present and is appended otherwise. */
  function SetMember(ms: seq<Member>, key: string, value: Json): (r: seq<Member>)
    ensures Get(r, key) == Some(value)
    ensures forall k :: k != key ==> Get(r, k) == Get(ms, k)
    ensures Get(ms, key).None? ==> r == ms + [Member(key, value)]
    ensures Get(ms, key).Some? ==> |r| == |ms|
  {
    if ms == [] then [Member(key, value)]
    else if ms[0].key == key then [Member(key, value)] + ms[1..]
    else [ms[0]] + SetMember(ms[1..], key, value)
  }

  /** Setting a property to the value it already has changes nothing. */
  lemma {:induction false} SetMemberSame(ms: seq<Member>, key: string, value: Json)
    requires Get(ms, key) == Some(value)
    ensures SetMember(ms, key, value) == ms
  {
    if ms[0].key != key {
      SetMemberSame(ms[1..], key, value);
    }
  }

  /** `item.id ?? freshId`: the item's own id unless it is absent or null. */
  function IdFor(item: Json, freshId: string): (id: Json)
    ensures id != Null
    ensures item.Obj? && Get(item.members, "id").Some? && Get(item.members, "id").value != Null ==>
      id == Get(item.members, "id").value
    ensures !item.Obj? || Get(item.members, "id").None? || Get(item.members, "id") == Some(Null) ==>
      id == Str(freshId)
  {
    match item
    case Obj(ms) =>
      (match Get(ms, "id")
       case Some(v) => if v == Null then Str(freshId) else v
       case None => Str(freshId))
    case _ => Str(freshId)
  }

  /**
   * The copy addItem and addItems store: the item's members with `id` set.
   * Reading `id` of null throws a TypeError, so there is no copy of null.
   */
  function WithId(item: Json, freshId: string): (r: Option<Json>)
    ensures r.None? <==> item == Null
    ensures r.Some? ==> r.value.Obj? && Get(r.value.members, "id") == Some(IdFor(item, freshId))
    ensures r.Some? ==> forall k :: k != "id" ==> Get(r.value.members, k) == Get(Spread(item), k)
  {
    if item == Null then None else Some(Obj(SetMember(Spread(item), "id", IdFor(item, freshId))))
  }

  /** Adding an id to a copy that already has one changes nothing, whatever fresh id is offered. */
  lemma WithIdIdempotent(item: Json, first: string, second: string)
    requires item != Null
    ensures WithId(WithId(item, first).value, second) == WithId(item, first)
  {
    var w := WithId(item, first).value;
    assert IdFor(w, second) == IdFor(item, first);
    SetMemberSame(w.members, "id", IdFor(item, first));
  }

  /** `items.map(...)` giving each item its copy with an id; it throws at a null item. */
  function WithIds(items: seq<Json>, freshIds: seq<string>): (r: Option<seq<Json>>)
    requires |freshIds| == |items|
    ensures r.None? <==> Null in items
    ensures r.Some? ==> |r.value| == |items| && forall i :: 0 <= i < |items| ==> WithId(items[i], freshIds[i]) == Some(r.value[i])
  {
    if items == [] then Some([])
    else match (WithId(items[0], freshIds[0]), WithIds(items[1..], freshIds[1..]))
      case (Some(w), Some(ws)) => Some([w] + ws)
      case _ => None
  }

  // ---------------------------------------------------------------------------
  // How the add bodies end, and what the queue sees of it
  // ---------------------------------------------------------------------------

  /** How the addItem body ends: null throws, an accepted copy awaits a save, a refused one is only logged. */
  function AddItemEnd(validate: Json -> bool, item: Json, freshId: string): (end: BodyEnd)
    ensures end == Settles(Rejected) <==> item == Null
    ensures end == AwaitsSave <==> WithId(item, freshId).Some? && validate(WithId(item, freshId).value)
    ensures end != Settles(Rejected) && end != AwaitsSave ==> end == Settles(Resolved)
  {
    match WithId(item, freshId)
    case None => Settles(Rejected)
    case Some(w) => if validate(w) then AwaitsSave else Settles(Resolved)
  }

  /** How the addItems body ends: a null item throws, any accepted copy awaits a save, none is only logged. */
  function AddItemsEnd(validate: Json -> bool, items: seq<Json>, freshIds: seq<string>): (end: BodyEnd)
    requires |freshIds| == |items|
    ensures end == Settles(Rejected) <==> Null in items
    ensures end == AwaitsSave <==>
      WithIds(items, freshIds).Some? && Accepted(validate, WithIds(items, freshIds).value) != []
    ensures end != Settles(Rejected) && end != AwaitsSave ==> end == Settles(Resolved)
  {
    match WithIds(items, freshIds)
    case None => Settles(Rejected)
    case Some(ws) => if Accepted(validate, ws) != [] then AwaitsSave else Settles(Resolved)
  }

  /**
   * The queue event a body's end is, for the running operation: settling is
   * its `Finish`; `await saveBatch()` is enqueueing the save operation and
   * awaiting its promise.
   */
  function EndEvent(end: BodyEnd, saveOp: Queue.OpId): (e: Queue.Event)
    ensures end.Settles? ==> e == Queue.Finish(end.outcome)
    ensures end == AwaitsSave ==> e == Queue.EnqueueAwaited(saveOp)
  {
    match end
    case Settles(outcome) => Queue.Finish(outcome)
    case AwaitsSave => Queue.EnqueueAwaited(saveOp)
  }

  // ---------------------------------------------------------------------------
  // The store
  // ---------------------------------------------------------------------------

  class Db {
    var dataSet: seq<Entry>
    var file: FileState
    const validateItem: Json -> bool

    /** The set holds each element once, every element passed the validator, objects by reference. */
    ghost predicate Valid()
      reads this
    {
      && NoDuplicates(dataSet)
      && forall i :: 0 <= i < |dataSet| ==> WellKinded(dataSet[i]) && validateItem(ValueOf(dataSet[i]))
    }

    /** createDb({ _filePath, validateItem }): an empty set over the file. */
    constructor (file: FileState, validateItem: Json -> bool)
      ensures this.file == file && this.validateItem == validateItem
      ensures dataSet == [] && Valid()
    {
      this.file := file;
      this.validateItem := validateItem;
      dataSet := [];
    }

    /** getAllItems: the items in insertion order. */
    function GetAllItems(): (items: seq<Json>)
      reads this
      ensures |items| == |dataSet|
      ensures forall i :: 0 <= i < |dataSet| ==> items[i] == ValueOf(dataSet[i])
    {
      Values(dataSet)
    }

    /**
     * The operation loadBatch enqueues: read and parse the file and add each
     * element the validator accepts. A missing file is not an error; any other
     * failure rejects, before anything is added.
     */
    method LoadBatch() returns (outcome: Outcome, ghost added: seq<Entry>)
      requires Valid()
      modifies this`dataSet
      ensures Valid()
      ensures outcome == LoadedElements(file).0
      ensures Values(added) == Accepted(validateItem, LoadedElements(file).1)
      ensures DistinctRefs(added)
      ensures AllWellKinded(added) && NewTo(added, old(dataSet))
      ensures dataSet == InsertAll(old(dataSet), added)
    {
      var loaded := LoadedElements(file);
      outcome := loaded.0;
      added := LoadAll(loaded.1);
    }

    /** The `for...of` loop of loadBatch: add each element the validator accepts. */
    method LoadAll(elements: seq<Json>) returns (ghost added: seq<Entry>)
      requires Valid()
      modifies this`dataSet
      ensures Valid()
      ensures Values(added) == Accepted(validateItem, elements)
      ensures DistinctRefs(added)
      ensures AllWellKinded(added) && NewTo(added, old(dataSet))
      ensures dataSet == InsertAll(old(dataSet), added)
    {
      added := [];
      assert elements[..0] == [];
      for i := 0 to |elements|
        invariant LoadedSoFar(old(dataSet), added, elements[..i])
      {
        assert elements[..i + 1] == elements[..i] + [elements[i]];
        added := LoadElement(elements[i], old(dataSet), added, elements[..i]);
      }
      assert elements[..|elements|] == elements;
    }

    /**
     * After loading the elements `seen` into a store that held `base`: the
     * entries `added` are new entries for exactly the accepted elements, and
     * the store is `base` with them added.
     */
    ghost predicate LoadedSoFar(base: seq<Entry>, added: seq<Entry>, seen: seq<Json>)
      reads this
    {
      && Valid() && Values(added) == Accepted(validateItem, seen)
      && DistinctRefs(added) && AllWellKinded(added) && NewTo(added, base)
      && dataSet == InsertAll(base, added)
    }

    /** One turn of loadBatch's loop: add the element if the validator accepts it. */
    method LoadElement(v: Json, ghost base: seq<Entry>, ghost added: seq<Entry>, ghost seen: seq<Json>)
      returns (ghost added': seq<Entry>)
      requires LoadedSoFar(base, added, seen)
      modifies this`dataSet
      ensures LoadedSoFar(base, added', seen + [v])
    {
      AcceptedAppend(validateItem, seen, v);
      added' := added;
      if validateItem(v) {
        var e := AdmitLoaded(v, base, added);
        added' := added + [e];
      }
    }

    /** One turn of loadBatch's loop for an element the validator accepted: add it as a new element. */
    method AdmitLoaded(v: Json, ghost base: seq<Entry>, ghost added: seq<Entry>) returns (e: Entry)
      requires Valid() && validateItem(v)
      requires dataSet == InsertAll(base, added) && DistinctRefs(added)
      requires AllWellKinded(added) && NewTo(added, base)
      modifies this`dataSet
      ensures Valid() && dataSet == InsertAll(base, added + [e])
      ensures ValueOf(e) == v && (e.Ref? ==> fresh(e.item))
      ensures AllWellKinded(added + [e]) && NewTo(added + [e], base)
      ensures DistinctRefs(added + [e]) && Values(added + [e]) == Values(added) + [v]
    {
      e := NewEntry(v);
      InsertAllAppend(base, added, e);
      DistinctRefsAppend(added, e);
      ValuesAppend(added, e);
      AddEntry(e);
    }

    /** `dataSet.add(e)` for an element that passed the validator. */
    method AddEntry(e: Entry)
      requires Valid() && WellKinded(e) && validateItem(ValueOf(e))
      modifies this`dataSet
      ensures dataSet == Insert(old(dataSet), e) && Valid()
    {
      dataSet := Insert(dataSet, e);
    }

    /** The operation saveBatch enqueues: write every item to the file, unless the write fails. */
    method SaveBatch(writeFails: bool) returns (outcome: Outcome)
      modifies this`file
      ensures writeFails ==> outcome == Rejected && file == old(file)
      ensures !writeFails ==> outcome == Resolved && file == Holds(Some(Arr(GetAllItems())))
    {
      if writeFails {
        return Rejected;
      }
      file := Holds(Some(Arr(GetAllItems())));
      outcome := Resolved;
    }

    /**
     * The operation addItem enqueues: store the copy with an id if the
     * validator accepts it and then await saveBatch; otherwise only log it.
     */
    method AddItem(item: Json, freshId: string) returns (end: BodyEnd)
      requires Valid()
      modifies this`dataSet
      ensures Valid()
      ensures end == AddItemEnd(validateItem, item, freshId)
      ensures match WithId(item, freshId)
        case None => end == Settles(Rejected) && dataSet == old(dataSet)
        case Some(w) =>
          if validateItem(w) then
            && end == AwaitsSave
            && |dataSet| == |old(dataSet)| + 1 && dataSet[..|old(dataSet)|] == old(dataSet)
            && dataSet[|old(dataSet)|].Ref? && fresh(dataSet[|old(dataSet)|].item)
            && ValueOf(dataSet[|old(dataSet)|]) == w
          else end == Settles(Resolved) && dataSet == old(dataSet)
    {
      var copy := WithId(item, freshId);
      if copy.None? {
        return Settles(Rejected);
      }
      var w := copy.value;
      if validateItem(w) {
        var e := AppendNew(w);
        assert dataSet[..|old(dataSet)|] == old(dataSet);
        end := AwaitsSave;
      } else {
        end := Settles(Resolved);
      }
    }

    /**
     * The operation addItems enqueues: give every item an id, keep the ones
     * the validator accepts, and if there are any, store them all and await
     * saveBatch; otherwise only log.
     */
    method AddItems(items: seq<Json>, freshIds: seq<string>) returns (end: BodyEnd)
      requires Valid() && |freshIds| == |items|
      modifies this`dataSet
      ensures Valid()
      ensures end == AddItemsEnd(validateItem, items, freshIds)
      ensures match WithIds(items, freshIds)
        case None => end == Settles(Rejected) && dataSet == old(dataSet)
        case Some(ws) =>
          var valid := Accepted(validateItem, ws);
          if valid != [] then
            end == AwaitsSave && old(dataSet) <= dataSet && GetAllItems() == Values(old(dataSet)) + valid
          else end == Settles(Resolved) && dataSet == old(dataSet)
    {
      var copies := WithIds(items, freshIds);
      if copies.None? {
        return Settles(Rejected);
      }
      var valid := Accepted(validateItem, copies.value);
      if |valid| == 0 {
        return Settles(Resolved);
      }
      forall v | v in valid
        ensures IsObject(v) && validateItem(v)
      {
        var i :| 0 <= i < |copies.value| && copies.value[i] == v;
        assert WithId(items[i], freshIds[i]) == Some(v);
      }
      StoreAll(valid);
      end := AwaitsSave;
    }

    /** `validItems.forEach((item) => dataSet.add(item))` for new objects: each is appended. */
    method StoreAll(valid: seq<Json>)
      requires Valid() && forall v :: v in valid ==> IsObject(v) && validateItem(v)
      modifies this`dataSet
      ensures Valid() && old(dataSet) <= dataSet
      ensures Values(dataSet) == Values(old(dataSet)) + valid
    {
      for i := 0 to |valid|
        invariant Valid()
        invariant old(dataSet) <= dataSet
        invariant Values(dataSet) == Values(old(dataSet)) + valid[..i]
      {
        assert valid[i] in valid;
        var e := AppendNew(valid[i]);
        assert valid[..i + 1] == valid[..i] + [valid[i]];
      }
      assert valid[..|valid|] == valid;
    }

    /** `dataSet.add` of a new object that passed the validator: it is appended. */
    method AppendNew(v: Json) returns (e: Entry)
      requires Valid() && IsObject(v) && validateItem(v)
      modifies this`dataSet
      ensures Valid() && dataSet == old(dataSet) + [e]
      ensures e.Ref? && fresh(e.item) && ValueOf(e) == v
      ensures Values(dataSet) == Values(old(dataSet)) + [v]
    {
      e := NewEntry(v);
      assert e !in dataSet;
      ValuesAppend(dataSet, e);
      AddEntry(e);
    }

    /**
     * The addItem body with the save done inline rather than enqueued behind
     * itself: a valid item is stored and the file rewritten, and the body
     * settles, rejecting only when the copy or the write fails.
     */
    method AddItemPersisting(item: Json, freshId: string, writeFails: bool) returns (end: BodyEnd)
      requires Valid()
      modifies this
      ensures Valid()
      ensures end.Settles?
      ensures match WithId(item, freshId)
        case None => end == Settles(Rejected) && dataSet == old(dataSet) && file == old(file)
        case Some(w) =>
          if validateItem(w) then
            && GetAllItems() == old(GetAllItems()) + [w]
            && (writeFails ==> end == Settles(Rejected) && file == old(file))
            && (!writeFails ==> end == Settles(Resolved) && file == Holds(Some(Arr(GetAllItems()))))
          else end == Settles(Resolved) && dataSet == old(dataSet) && file == old(file)
    {
      var added := AddItem(item, freshId);
      if added == AwaitsSave {
        assert dataSet == old(dataSet) + [dataSet[|old(dataSet)|]];
        var saved := SaveBatch(writeFails);
        end := Settles(saved);
      } else {
        end := added;
      }
    }
  }

  // ---------------------------------------------------------------------------
  // Properties
  // ---------------------------------------------------------------------------

  /** What a successful saveBatch writes, loadBatch reads back in full: every element passes the validator again. */
  lemma SavedFileLoadsBack(dataSet: seq<Entry>, validate: Json -> bool)
    requires forall i :: 0 <= i < |dataSet| ==> validate(ValueOf(dataSet[i]))
    ensures var loaded := LoadedElements(Holds(Some(Arr(Values(dataSet)))));
      loaded.0 == Resolved && Accepted(validate, loaded.1) == Values(dataSet)
  {
    AcceptedAll(validate, Values(dataSet));
  }

  /** A new store opened on the file another store just saved holds the same items once loaded. */
  method SaveAndReopen(db: Db) returns (reopened: Db)
    requires db.Valid()
    modifies db`file
    ensures fresh(reopened) && reopened.Valid()
    ensures db.file == Holds(Some(Arr(db.GetAllItems())))
    ensures reopened.GetAllItems() == db.GetAllItems()
  {
    var saved := db.SaveBatch(false);
    reopened := new Db(db.file, db.validateItem);
    var outcome, added := reopened.LoadBatch();
    SavedFileLoadsBack(db.dataSet, db.validateItem);
    ReloadedValues(db.dataSet, added);
  }

  /**
   * A valid addItem never finishes. Its body, run by the queue as the running
   * operation, ends by enqueueing a save and awaiting it; the save cannot start
   * before the add settles, so whatever happens next the add's promise never
   * settles, nothing else starts or settles, and the queue stays busy for good.
   */
  lemma ValidAddNeverSettles(validate: Json -> bool, item: Json, freshId: string,
                             s: Queue.QueueState, saveOp: Queue.OpId, events: seq<Queue.Event>, guarded: bool)
    requires WithId(item, freshId).Some? && validate(WithId(item, freshId).value)
    requires Queue.Inv(s) && s.running.Some? && s.awaiting.None?
    ensures AddItemEnd(validate, item, freshId) == AwaitsSave
    ensures var t := Queue.Run(Queue.Step(s, EndEvent(AddItemEnd(validate, item, freshId), saveOp), guarded), events, guarded);
      && t.running == s.running && !Queue.CanFinish(t) && t.isProcessing
      && t.started == s.started && t.settled == s.settled
  {
    AwaitedSaveStalls(s, saveOp, events, guarded);
  }

  /** The same for addItems with at least one accepted item. */
  lemma ValidAddItemsNeverSettles(validate: Json -> bool, items: seq<Json>, freshIds: seq<string>,
                                  s: Queue.QueueState, saveOp: Queue.OpId, events: seq<Queue.Event>, guarded: bool)
    requires |freshIds| == |items|
    requires WithIds(items, freshIds).Some? && Accepted(validate, WithIds(items, freshIds).value) != []
    requires Queue.Inv(s) && s.running.Some? && s.awaiting.None?
    ensures AddItemsEnd(validate, items, freshIds) == AwaitsSave
    ensures var t := Queue.Run(Queue.Step(s, EndEvent(AddItemsEnd(validate, items, freshIds), saveOp), guarded), events, guarded);
      && t.running == s.running && !Queue.CanFinish(t) && t.isProcessing
      && t.started == s.started && t.settled == s.settled
  {
    AwaitedSaveStalls(s, saveOp, events, guarded);
  }

  /** A running body that ends in `await saveBatch()` is stuck waiting for good. */
  lemma AwaitedSaveStalls(s: Queue.QueueState, saveOp: Queue.OpId, events: seq<Queue.Event>, guarded: bool)
    requires Queue.Inv(s) && s.running.Some? && s.awaiting.None?
    ensures var t := Queue.Run(Queue.Step(s, EndEvent(AwaitsSave, saveOp), guarded), events, guarded);
      && t.running == s.running && !Queue.CanFinish(t) && t.isProcessing
      && t.started == s.started && t.settled == s.settled
  {
    var s1 := Queue.Step(s, Queue.EnqueueAwaited(saveOp), guarded);
    Queue.StepPreservesInv(s, Queue.EnqueueAwaited(saveOp), guarded);
    Queue.AwaitingIsDeadlock(s1, events, guarded);
    Queue.RunPreservesInv(s1, events, guarded);
  }
}
