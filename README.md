# ketchup-db core, modelled in Dafny

This project models the core of ketchup-db, a small file-backed collection store. The core has five parts:

- **Deep search.** `findInData` walks any JSON-like value depth-first and reports `{path, value}` for every object member whose key, or whose string or number value, matches a search term. The term can be a string, a number or a regular expression. The match can be exact or partial, and the walk can stop at the first match. There are two copies with different behaviour:
  - `src/database/utils/find.ts` pushes into one shared results array;
  - `src/utils/find.ts` copies its results and only ever looks at the first key of each object.
- **OperationQueue** (`src/database/queue.ts`). A FIFO list of asynchronous operations, drained by a single loop that awaits each operation before starting the next.
- **createDb** (`src/database/database.ts`). A `Set` of validated items persisted to one JSON file. Every load, save and add runs as an operation on the queue.
- **createSetDatabase** (`src/database/setDatabase.ts`). An older store with no queue. It calls the validator but ignores the answer.
- **createValidator** (`src/database/types/validator.ts`). It accepts an object when every listed key is `in` it.

The modules are:

- `Wrappers`: `Option`, promise outcomes, `Take1`.
- `JsonValue`: values, decimal index strings, ASCII lower-casing, `includes`, property lookup.
- `SearchTypes`: terms, options, results.
- `DatabaseFind` and `UtilsFind`: the two search copies.
- `Queue`: a pure state machine, its invariant and the `OperationQueue` class.
- `Validator`.
- `DataSets`: Set semantics with objects by reference and primitives by value, the file, and iteration over a parsed value.
- `CollectionStore`: createDb.
- `SetDatabase`: createSetDatabase.

The search and the stores are imperative in the source, and the model keeps that form:

- **Search copy 1.** It mutates a shared array, so it becomes recursive methods on a `ResultList` object. They are proved against the specification function `Matches`, which lists every match in pre-order.
- **Search copy 2.** It threads copies, so it becomes methods over sequences. They are proved against `FirstKeyMatches`.
- **Stores.** Each store is a class whose `dataSet` field is a sequence of `Entry` values. An object is held by reference (`Item`) and a primitive by value.
- **Queue.** The drain loop runs across `await`s. It is therefore modelled by the states it can be suspended in and three events:
  - a caller enqueues an operation;
  - the running operation enqueues an operation and awaits it;
  - the running operation's work ends.

  Each `OperationQueue` method except `Drain` is proved equal to one step of that machine. `Drain` is proved equal to a run of `Finish` steps, one per outcome it consumes.

The model follows the code as written, including where it departs from what its callers and tests evidently expect:

- A failing operation stops the queue. The failure should reach only its own caller, and the loop should go on to the next operation. See Findings.
- A valid `addItem` or `addItems` never settles, because it awaits a save queued behind itself. `tests/database/database.test.ts` awaits `addItem` and expects it to resolve. See Findings.
- An invalid item given to `addItem` is only logged, and its promise still resolves.
- The search option `predicate` is never read.
- `loadBatch` walks whatever `JSON.parse` returns. It does not require an array.

## Model

| member | source | states |
|---|---|---|
| JsonValue.NatToString | src/database/utils/find.ts:80 | the path segment `${i}` of an array index is a non-empty string of decimal digits with no leading zero |
| JsonValue.ParseIndexRoundTrip | src/database/utils/find.ts:80 | reading back the segment written for index i gives i |
| JsonValue.ParseIndexCanonical | src/database/utils/find.ts:80 | a key that denotes an index is exactly the segment written for that index |
| JsonValue.NatToStringInjective | src/database/utils/find.ts:80 | distinct indices get distinct path segments |
| JsonValue.Lower | src/database/utils/find.ts:153 | toLowerCase keeps the length and folds each character on its own |
| JsonValue.LowerIdempotent | src/database/utils/find.ts:153 | lower-casing twice is lower-casing once |
| JsonValue.ContainsIffOccurs | src/database/utils/find.ts:153 | `includes` holds exactly when the needle starts at some position of the haystack |
| JsonValue.Get | src/database/utils/find.ts:102 | `obj[key]` is defined exactly when some member has that key |
| JsonValue.GetMember | src/database/utils/find.ts:100-102 | with distinct keys, looking up a member's key gives that member's value |
| JsonValue.LookupAppend | src/database/utils/find.ts:101 | following path a + b is following a, then b |
| JsonValue.LookupWellFormed | src/database/utils/find.ts:111-119 | whatever a path reaches in a well-formed value is well-formed |
| SearchTypes.ResolveOptions | src/database/utils/find.ts:12-16 | findBy is "value" only when given so; stopOnFirstMatch and matchPartial are on only when given as true |
| DatabaseFind.IsPartialMatch | src/database/utils/find.ts:147-154 | a regular expression matches when its test accepts the target; a string or number term matches when its lower-cased string form occurs at some position of the lower-cased target |
| DatabaseFind.IsMatch | src/database/utils/find.ts:127-145 | by value, only strings and numbers match; in exact mode the key or value must be `===` the term (a string term for keys and strings, a number term for numbers); in partial mode the key, the string, or the number's string form must match partially |
| DatabaseFind.ResultList.Push | src/database/utils/find.ts:105 | a push appends exactly one result |
| DatabaseFind.FindInObject | src/database/utils/find.ts:29-63 | returns the same array it was given; a full walk appends exactly `Matches(obj)`; a stopping walk from an empty array leaves the first match only |
| DatabaseFind.HandleArray | src/database/utils/find.ts:65-89 | elements are walked in index order under their index segments and are never matched themselves; appends `ElementMatches` or its first element |
| DatabaseFind.HandleObject | src/database/utils/find.ts:91-125 | every member in enumeration order: its own match first, then the matches below it; appends `MemberMatches` or its first element |
| DatabaseFind.FindInData | src/database/utils/find.ts:7-27 | the result is `Search(data, search, options)`: all matches in pre-order, or at most one when stopping at the first |
| DatabaseFind.MatchesSound | src/database/utils/find.ts:100-145 | every result lies strictly below the start path, names a member whose key is the path's last segment, matches the query, and is a real member of the value |
| DatabaseFind.ElementMatchesSound | src/database/utils/find.ts:74-87 | the same, for the results under the elements of an array |
| DatabaseFind.MemberMatchesSound | src/database/utils/find.ts:100-123 | the same, for the results under the members of an object |
| DatabaseFind.ElementMatchesIncludes | src/database/utils/find.ts:74-87 | the results under one element are among the array's results |
| DatabaseFind.MemberMatchesIncludes | src/database/utils/find.ts:100-123 | the results at and under one member are among the object's results |
| DatabaseFind.MatchesComplete | src/database/utils/find.ts:65-125 | in a well-formed value, every matching member at any depth is reported, at its full path |
| DatabaseFind.ResultValueAtPath | src/database/utils/find.ts:101-105 | following a result's path from the root leads to the result's value |
| DatabaseFind.ExactKeyResultsEndInTerm | src/database/utils/find.ts:134-135 | exact key search: the term is a string and every result's last segment equals it |
| DatabaseFind.NumberNeverEqualsKey | src/database/utils/find.ts:135 | exact key search for a number finds nothing (`===` does not coerce) |
| DatabaseFind.ValueResultsArePrimitive | src/database/utils/find.ts:138-144 | value search reports only strings and numbers, and exact value search only values `===` the term |
| DatabaseFind.PartialMatchIgnoresCase | src/database/utils/find.ts:147-154 | partial matching of a string or number term does not depend on the case of the target |
| DatabaseFind.ExactMatchIsPartialMatch | src/database/utils/find.ts:134-154 | whatever matches exactly also matches partially |
| DatabaseFind.PartialSearchFindsExactResults | src/database/utils/find.ts:127-154 | turning on matchPartial never loses a result |
| DatabaseFind.PredicateIgnored | src/database/utils/find.ts:12-16 | the `predicate` option never changes the results |
| DatabaseFind.NestedKeyExample | src/database/utils/find.ts:91-125 | searching `{a:{b:{c:"X"}}}` for key "c" gives exactly one result, at path a.b.c with value "X" |
| UtilsFind.IsPartialMatch | src/utils/find.ts:143-149 | only a regular expression can match partially, and it matches when its test accepts the target |
| UtilsFind.IsMatch | src/utils/find.ts:122-140 | the same exact-mode rules as the other copy; in partial mode nothing but a regular expression matches, testing the key, the string, or the number's string form |
| UtilsFind.FindInObject | src/utils/find.ts:20-54 | returns the incoming results extended by this copy's matches, or by the first of them when stopping |
| UtilsFind.HandleArray | src/utils/find.ts:56-81 | elements in index order, each call extending the accumulated copy; stops at the first element that added a result |
| UtilsFind.HandleObject | src/utils/find.ts:83-120 | only the first key is matched and descended into, because the loop body returns on every path |
| UtilsFind.FindInData | src/utils/find.ts:7-18 | the result is this copy's `Search`: the first-key walk, cut to one result when stopping |
| UtilsFind.LaterKeysIgnored | src/utils/find.ts:94-118 | members after the first never change the results |
| UtilsFind.PartialNeedsPattern | src/utils/find.ts:143-149 | with matchPartial, a string or number term finds nothing |
| UtilsFind.PartialNeedsPatternElements | src/utils/find.ts:65-81 | the same, under the elements of an array |
| UtilsFind.SameMatchAsFullSearch | src/utils/find.ts:122-140 | for exact or regular-expression matching, this copy's isMatch equals the other copy's |
| UtilsFind.FirstKeyResultsAreFullResults | src/utils/find.ts:83-120 | for exact or regular-expression matching, every result of this copy is a result of the full search |
| UtilsFind.FirstKeyElementResultsAreFullResults | src/utils/find.ts:56-81 | the same, under the elements of an array |
| UtilsFind.SingleKeyedAgrees | src/utils/find.ts:83-120 | when no object has a second key, both copies give the same results in the same order |
| UtilsFind.SingleKeyedAgreesElements | src/utils/find.ts:56-81 | the same, under the elements of an array |
| Queue.InitialInv | src/database/queue.ts:4-5 | a new queue is empty, idle and satisfies the invariant |
| Queue.StepPreservesInv | src/database/queue.ts:7-33 | every enqueue, nested awaited enqueue and completion keeps the invariant: start order is submission order, settle order is start order, at most one operation is unsettled and it is the running one, an idle queue is empty |
| Queue.RunPreservesInv | src/database/queue.ts:7-33 | no sequence of events breaks the invariant |
| Queue.RunExtendsLogs | src/database/queue.ts:9-16 | the logs of submitted, started and settled operations only grow |
| Queue.FifoOneAtATime | src/database/queue.ts:9-31 | from a new queue, operations start in submission order, each after the previous one settled, and the k-th promise to settle belongs to the k-th submitted operation |
| Queue.EnqueueWhileProcessingOnlyAppends | src/database/queue.ts:20-25 | while a drain is active, enqueue only appends and starts no second drain |
| Queue.EnqueueWhenIdleStarts | src/database/queue.ts:20-29 | enqueueing on an idle queue starts that operation at once |
| Queue.DrainEndsIdle | src/database/queue.ts:28-32 | when the last waiting operation fulfils, the loop ends and isProcessing is false |
| Queue.NestedEnqueueWaitsBehind | src/database/queue.ts:9-31 | an operation enqueued while another runs cannot start before the running one has settled |
| Queue.StuckForever | src/database/queue.ts:25-32 | once the loop has exited with isProcessing still set, nothing starts or settles again and each enqueue only appends |
| Queue.RejectionStallsQueue | src/database/queue.ts:14-32 | as written, a rejected operation leaves the queue stuck: nothing queued behind it or enqueued later ever starts |
| Queue.DrainSettlesAll | src/database/queue.ts:28-32 | when no operation rejects (the loop as written) or the loop's await is guarded (whatever the outcomes), every queued operation settles and the queue is idle again |
| Queue.SelfWaitNeverFinishes | src/database/queue.ts:20-31 | an operation that awaits an operation it enqueued itself never finishes, and nothing else starts or settles |
| Queue.AwaitingIsDeadlock | src/database/queue.ts:25-31 | while the running operation awaits a queued operation, no event lets either proceed |
| Queue.OperationQueue.constructor | src/database/queue.ts:3-5 | an empty, idle queue |
| Queue.OperationQueue.Enqueue | src/database/queue.ts:7-22 | the new state is one Enqueue step of the state machine |
| Queue.OperationQueue.EnqueueAwaited | src/database/queue.ts:7-22 | the new state is one nested-await step of the state machine |
| Queue.OperationQueue.ProcessQueue | src/database/queue.ts:24-29 | returns at once when draining or empty, otherwise marks processing and starts the front operation |
| Queue.OperationQueue.ShiftAndStart | src/database/queue.ts:29-30 | the front operation leaves the queue and becomes the running one |
| Queue.OperationQueue.OperationFinished | src/database/queue.ts:10-32 | the new state is one completion step: settle the caller, then leave the loop on a rejection or continue or end |
| Queue.OperationQueue.Drain | src/database/queue.ts:28-32 | the loop consumes outcomes in order, keeps the invariant, and stops early only when no operation can finish |
| Validator.EveryKeyIn | src/database/types/validator.ts:6 | `keys.every(key => key in item)` holds exactly when every key is a property of the item |
| Validator.CreateValidator | src/database/types/validator.ts:3-8 | the validator accepts exactly the objects that have every listed key |
| Validator.RejectsNonObjects | src/database/types/validator.ts:5 | null and every non-object are rejected |
| Validator.EmptyKeysAcceptEveryObject | src/database/types/validator.ts:6 | with no keys, every object is accepted |
| Validator.AcceptsIffOwnKeys | src/database/types/validator.ts:6 | for keys that are not inherited names, a plain object is accepted exactly when each key is one of its own |
| Validator.OnlyKeysMatter | src/database/types/validator.ts:6 | property values are never inspected |
| Validator.MoreMembersStayValid | src/database/types/validator.ts:6 | adding members never makes an accepted object rejected |
| Validator.ValidatorAcceptsCompleteItem | tests/types/validator.test.ts:9-14 | the validator for `["id", "name"]` accepts `{id: 1, name: "test"}` |
| Validator.ValidatorRejectsIncompleteItem | tests/types/validator.test.ts:9-15 | the validator for `["id", "name"]` rejects `{id: 1}` |
| Validator.ValidatorRejectsNullAndString | tests/types/validator.test.ts:18-23 | the validator for `["id"]` rejects null and the string `"string"` |
| DataSets.Values | src/database/database.ts:74-76 | `Array.from(set)` lists the elements in insertion order |
| DataSets.Insert | src/database/database.ts:28 | `set.add` appends an element not yet present and otherwise changes nothing; no element is ever held twice |
| DataSets.InsertAllAppend | src/database/setDatabase.ts:44 | adding a list and then one more element is adding the longer list |
| DataSets.InsertAllContents | src/database/setDatabase.ts:44 | after adding a list, the set holds exactly its old elements and the list's, with no duplicates |
| DataSets.InsertAllIdempotent | src/database/setDatabase.ts:44 | adding the same items again changes nothing |
| DataSets.InsertAllPresent | src/database/setDatabase.ts:44 | adding elements already present changes nothing |
| DataSets.InsertAllFresh | src/database/database.ts:66 | adding distinct new elements appends them all, in order |
| DataSets.Accepted | src/database/database.ts:64 | the filter keeps exactly the elements the validator accepts |
| DataSets.AcceptedAppend | src/database/database.ts:26-30 | filtering a longer list adds at most the new element |
| DataSets.AcceptedAll | src/database/database.ts:64 | when every element is accepted, nothing is filtered out |
| DataSets.LoadedElements | src/utils/fileUtils.ts:1-11 | rejects exactly when the file is unreadable, its text is not JSON, or the parsed value is neither an array nor a string, and then nothing is read; a missing file reads as nothing; an array yields its elements; a string yields its characters, one string each |
| DataSets.NewEntry | src/database/database.ts:24-28 | a parsed object becomes a new reference and a primitive stays a value |
| DataSets.ReloadedValues | src/database/database.ts:20-43 | entries made afresh from a saved set's values add up, in an empty set, to the same values in the same order |
| CollectionStore.Spread | src/database/database.ts:48 | `{...item}` copies an object's members; an array's element i under key `${i}`; a string's character i, as a one-character string, under key `${i}`; nothing of other primitives |
| CollectionStore.SetMember | src/database/database.ts:48 | setting `id` gives it the new value, keeps every other property, and appends the key only if absent |
| CollectionStore.SetMemberSame | src/database/database.ts:48 | setting a property to its current value changes nothing |
| CollectionStore.IdFor | src/database/database.ts:48 | `item.id ?? uuid` keeps any present, non-null id and otherwise uses the fresh one |
| CollectionStore.WithId | src/database/database.ts:48 | the stored copy is an object whose id is `IdFor` and whose other properties are those of the spread; null has no copy (TypeError) |
| CollectionStore.WithIdIdempotent | src/database/database.ts:48 | giving an id to a copy that already has one changes nothing, whatever fresh id is offered |
| CollectionStore.WithIds | src/database/database.ts:60-63 | the map fails exactly when some item is null, and otherwise gives each item its own copy |
| CollectionStore.Db.constructor | src/database/database.ts:13-18 | a new store is empty over its file |
| CollectionStore.Db.GetAllItems | src/database/database.ts:74-76 | the items in insertion order |
| CollectionStore.Db.LoadBatch | src/database/database.ts:20-37 | the outcome is that of reading the file; exactly the accepted elements are added, objects as new references, and the store stays valid |
| CollectionStore.Db.LoadAll | src/database/database.ts:26-30 | the for-of loop adds new entries for exactly the accepted elements, in order, and keeps the store valid |
| CollectionStore.Db.LoadElement | src/database/database.ts:26-30 | one turn of the for-of: afterwards the elements added so far are, by value, exactly the accepted elements seen so far, each added as a new element, and the store stays valid |
| CollectionStore.Db.AdmitLoaded | src/database/database.ts:26-29 | one accepted element is added as a new element |
| CollectionStore.Db.AddEntry | src/database/database.ts:28 | `dataSet.add` of a validated element keeps the store valid |
| CollectionStore.Db.SaveBatch | src/database/database.ts:39-44 | a successful save writes all items as one array, and a failed write leaves the file as it was |
| CollectionStore.Db.AddItem | src/database/database.ts:46-56 | the body ends as `AddItemEnd` says: null rejects; an invalid copy is only logged and resolves; a valid copy is appended as a new object and the body then awaits a nested save |
| CollectionStore.Db.StoreAll | src/database/database.ts:64-66 | `validItems.forEach(dataSet.add)` on new objects appends every one of them in order and keeps the store valid |
| CollectionStore.Db.AppendNew | src/database/database.ts:65 | `dataSet.add` of a new, accepted object appends it as a fresh reference |
| CollectionStore.Db.AddItems | src/database/database.ts:58-72 | the body ends as `AddItemsEnd` says: a null item rejects; otherwise exactly the accepted copies are appended in order and the body awaits a save, or, with none accepted, resolves unchanged |
| CollectionStore.Db.AddItemPersisting | src/database/database.ts:46-56 | a valid item is appended and the file rewritten with all items, and the body always settles |
| CollectionStore.SavedFileLoadsBack | src/database/database.ts:20-43 | what a successful save writes, a load reads back in full, with every element accepted again |
| CollectionStore.SaveAndReopen | src/database/database.ts:13-43 | a new store opened on the file another store saved, once loaded, holds the same items |
| CollectionStore.AddItemEnd | src/database/database.ts:46-56 | the addItem body throws exactly for null, awaits a save exactly when the copy with an id is accepted, and otherwise resolves |
| CollectionStore.AddItemsEnd | src/database/database.ts:58-72 | the addItems body throws exactly when some item is null, awaits a save exactly when some copy is accepted, and otherwise resolves |
| CollectionStore.EndEvent | src/database/queue.ts:9-17 | a body that settles is its operation's `Finish`; a body that runs `await saveBatch()` enqueues the save and awaits it |
| CollectionStore.ValidAddNeverSettles | src/database/database.ts:46-56 | for a valid item the addItem body ends by awaiting a save; run by the queue, that end leaves the add unsettled forever, with nothing else started or settled and the queue busy |
| CollectionStore.ValidAddItemsNeverSettles | src/database/database.ts:58-72 | the same for addItems with at least one accepted item |
| SetDatabase.SetDb.constructor | src/database/setDatabase.ts:17-21 | a new store is empty over its file |
| SetDatabase.SetDb.GetAllItems | src/database/setDatabase.ts:47-49 | the items in insertion order |
| SetDatabase.SetDb.LoadBatch | src/database/setDatabase.ts:23-29 | the outcome is that of readItemsFromFile, and every element read is added, valid or not |
| SetDatabase.SetDb.LoadAll | src/database/setDatabase.ts:25-28 | the loop adds a new entry for every element read, in order, valid or not |
| SetDatabase.SetDb.AdmitLoaded | src/database/setDatabase.ts:27 | one element read is added as a new element |
| SetDatabase.SetDb.SaveBatch | src/database/setDatabase.ts:31-33 | saveBatch resolves and writes nothing |
| SetDatabase.SetDb.AddItem | src/database/setDatabase.ts:35-38 | the item is added whatever the validator answers |
| SetDatabase.SetDb.AddItems | src/database/setDatabase.ts:40-45 | all items are added in order, whatever the validator answers |

## Left out

- File I/O and JSON text. The file is a value: missing, unreadable, or holding parsed JSON or text that is not JSON. `JSON.stringify` formatting, and `JSON.parse` of duplicate keys, are not modelled.
- `uuid()`. Fresh ids are parameters of `AddItem` and `AddItems`.
- `console.error` logging is dropped.
- CollectionStore.SaveAndReopen: items are JSON values (`Json` has no `undefined`, functions, `Date`, `Map` or class instances). `JSON.stringify` drops `undefined`- and function-valued members and writes a `Date` as a string, so such an item would not reload as itself. The round trip is claimed for JSON values only, and so is `CollectionStore.SavedFileLoadsBack`.
- CollectionStore.Db.SaveBatch: a failed write leaves the file as it was. `Deno.writeTextFile` truncates the file when it opens it, so a failure after the open can leave the file empty or partly written. That state is not modelled.
- The promise scheduler. The queue is driven by explicit events. Between a promise settling and the drain loop resuming, callers' continuations may run; the model treats that gap as instantaneous. This does not change which operation starts next.
- The store's public methods enqueue their bodies on the queue. The model gives each body as a `Db` method that reports how it ends (`BodyEnd`). `AddItem` and `AddItems` are proved to end as `AddItemEnd` and `AddItemsEnd` say, and `EndEvent` turns an end into the queue event the running operation causes. There is no single interpreter that runs a `Db` and an `OperationQueue` together: the link is these functions and the lemmas over them.
- Numbers are integers. Floating point, `NaN`, `-0` and `Infinity` are not modelled, and `String(n)` is modelled for integers only.
- `toLowerCase` folds ASCII letters only.
- Strings are sequences of Unicode code points, not UTF-16 code units. This matters only for `{...s}` on a string (`CollectionStore.Spread`). JavaScript gives one key per code unit, so a character outside the Basic Multilingual Plane gets two keys in JavaScript but one in the model. `for...of` over a string yields code points in JavaScript as well, and `includes` gives the same answer either way.
- Regular expressions are their `test` answer per string. The `lastIndex` state of global or sticky expressions is not modelled.
- Objects are acyclic values. The search's lack of cycle detection cannot be expressed.
- Array indices are unbounded. The 2^32 - 1 length limit is not modelled.
- Object members are given in enumeration order. JavaScript's rule that integer-like keys enumerate first is taken as already applied.
- The `in` operator sees the standard Object.prototype and Array.prototype names of ECMAScript 2023. User-modified prototypes are not modelled.
- Callers may mutate objects they handed to `createSetDatabase`. Item contents are immutable in the model.
- `undefined` is not a JSON value. The validator test's `validator(undefined)` case is covered only in the sense that every non-object is rejected (`Validator.RejectsNonObjects`).
- `DbOptions.autoIndex` is never read by the source, so it is not modelled.
- `readItemsFromFile` also appears, identically, in `src/database/utils/find.ts:156-166`. It is modelled once, as `DataSets.LoadedElements`.
- Expected counts in the test `tests/find_test.ts` and in the demo files depend on fixture data. They are not restated.
- DatabaseFind.FindInObject: with stopOnFirstMatch, the contract covers only an empty incoming results array. Every caller passes one.
- Queue.OperationQueue.Drain: covers the loop when no other caller enqueues between completions. Interleaved enqueues are covered by the state machine lemmas.

## Findings

| source | as written | input that shows it | evidently intended | confidence | as-written member | corrected member |
|---|---|---|---|---|---|---|
| src/database/queue.ts:28-32 | `await operation()` is not guarded. The wrapper rethrows a rejection, so it leaves the drain loop with `isProcessing` still true. The promise `processQueue()` returns is never awaited, so the rejection is also unhandled, and under Deno's default handling of unhandled rejections the process ends. The model does not include the process ending. | enqueue(op1) where op1 throws, then enqueue(op2): op1's caller sees the rejection; op2 is queued but never runs, and neither does any later operation | the failure reaches only op1's caller and the loop goes on to op2 | high (not executed) | Queue.RejectionStallsQueue | Queue.DrainSettlesAll |
| src/database/database.ts:46-67 | a valid addItem/addItems runs `await saveBatch()` inside its own queued operation. The save is enqueued behind the running add, which waits for it. | `await db.addItem({id: 1, name: "test"})` with a validator for id and name: the add never settles and every later operation waits forever | the item is stored, the file rewritten, and the add resolves | high (not executed) | CollectionStore.ValidAddNeverSettles | CollectionStore.Db.AddItemPersisting |
