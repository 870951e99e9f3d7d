/**
 * createValidator of `src/database/types/validator.ts`: a validator accepts an
 * item when it is an object (not null) and every listed key is `in` it.
 *
 * The `in` operator also sees the properties an object inherits. A value read
 * from JSON is a plain object or an array, so what it inherits is the
 * standard Object.prototype (and, for arrays, Array.prototype) property names
 * of ECMAScript 2023, listed below.
 */
module Validator {
  import opened JsonValue

  /** The string-keyed properties of Object.prototype. */
  const ObjectPrototypeKeys: set<string> := {
    "constructor", "hasOwnProperty", "isPrototypeOf", "propertyIsEnumerable",
    "toLocaleString", "toString", "valueOf", "__proto__",
    "__defineGetter__", "__defineSetter__", "__lookupGetter__", "__lookupSetter__"
  }

  /** The string-keyed properties of Array.prototype. */
  const ArrayPrototypeKeys: set<string> := {
    "length", "constructor", "at", "concat", "copyWithin", "entries", "every",
    "fill", "filter", "find", "findIndex", "findLast", "findLastIndex", "flat",
    "flatMap", "forEach", "includes", "indexOf", "join", "keys", "lastIndexOf",
    "map", "pop", "push", "reduce", "reduceRight", "reverse", "shift", "slice",
    "some", "sort", "splice", "toLocaleString", "toReversed", "toSorted",
    "toSpliced", "toString", "unshift", "values", "with"
  }

  /** `key in v` for an object `v`: an own key, an array index in range, or an inherited name. */
  predicate HasProperty(v: Json, key: string)
    requires IsObject(v)
  {
    match v
    case Obj(ms) => (exists i :: 0 <= i < |ms| && ms[i].key == key) || key in ObjectPrototypeKeys
    case Arr(xs) =>
      || (ParseIndex(key).Some? && ParseIndex(key).value < |xs|)
      || key in ArrayPrototypeKeys
      || key in ObjectPrototypeKeys
  }

  /** `keys.every((key) => key in item)` */
  function EveryKeyIn(keys: seq<string>, item: Json): (r: bool)
    requires IsObject(item)
    ensures r <==> forall i :: 0 <= i < |keys| ==> HasProperty(item, keys[i])
  {
    if keys == [] then true
    else HasProperty(item, keys[0]) && EveryKeyIn(keys[1..], item)
  }

  /** The function createValidator(keys) returns. */
  function CreateValidator(keys: seq<string>): (validator: Json -> bool)
    ensures forall item :: validator(item) <==>
      IsObject(item) && forall i :: 0 <= i < |keys| ==> HasProperty(item, keys[i])
  {
    item => IsObject(item) && EveryKeyIn(keys, item)
  }

  /** Null and every value that is not an object are rejected, whatever the keys. */
  lemma RejectsNonObjects(keys: seq<string>, item: Json)
    requires !IsObject(item)
    ensures !CreateValidator(keys)(item)
  {
  }

  /** With no keys, every object (array or plain object) is accepted. */
  lemma EmptyKeysAcceptEveryObject(item: Json)
    requires IsObject(item)
    ensures CreateValidator([])(item)
  {
  }

  /**
   * For a plain object none of whose required keys is an inherited name, the
   * validator accepts exactly when every required key is one of its own keys.
   */
  lemma AcceptsIffOwnKeys(keys: seq<string>, ms: seq<Member>)
    requires forall i :: 0 <= i < |keys| ==> keys[i] !in ObjectPrototypeKeys
    ensures CreateValidator(keys)(Obj(ms)) <==>
      forall i :: 0 <= i < |keys| ==> exists j :: 0 <= j < |ms| && ms[j].key == keys[i]
  {
  }

  /** The property values are never looked at: objects with the same keys get the same answer. */
  lemma {:induction false} OnlyKeysMatter(keys: seq<string>, ms: seq<Member>, ns: seq<Member>)
    requires |ms| == |ns| && forall j :: 0 <= j < |ms| ==> ms[j].key == ns[j].key
    ensures CreateValidator(keys)(Obj(ms)) == CreateValidator(keys)(Obj(ns))
  {
    forall key | true
      ensures HasProperty(Obj(ms), key) == HasProperty(Obj(ns), key)
    {
      if exists j :: 0 <= j < |ns| && ns[j].key == key {
        var j :| 0 <= j < |ns| && ns[j].key == key;
        assert ms[j].key == key;
      }
    }
  }

  /** Adding members to an accepted object keeps it accepted. */
  lemma {:induction false} MoreMembersStayValid(keys: seq<string>, ms: seq<Member>, more: seq<Member>)
    requires CreateValidator(keys)(Obj(ms))
    ensures CreateValidator(keys)(Obj(ms + more))
  {
    forall i | 0 <= i < |keys|
      ensures HasProperty(Obj(ms + more), keys[i])
    {
      if keys[i] !in ObjectPrototypeKeys {
        var j :| 0 <= j < |ms| && ms[j].key == keys[i];
        assert (ms + more)[j].key == keys[i];
      }
    }
  }

  /** From the repository's validator tests: `{id: 1, name: "test"}` has both required keys. */
  lemma ValidatorAcceptsCompleteItem()
    ensures CreateValidator(["id", "name"])(Obj([Member("id", Num(1)), Member("name", Str("test"))]))
  {
    var full := [Member("id", Num(1)), Member("name", Str("test"))];
    assert full[0].key == "id" && full[1].key == "name";
  }

  /** From the same tests: `{id: 1}` lacks `name`, which no object inherits. */
  lemma ValidatorRejectsIncompleteItem()
    ensures !CreateValidator(["id", "name"])(Obj([Member("id", Num(1))]))
  {
    assert "name" !in ObjectPrototypeKeys;
    assert !HasProperty(Obj([Member("id", Num(1))]), "name");
    assert ["id", "name"][1] == "name";
  }

  /** From the same tests: null and a string are rejected. */
  lemma ValidatorRejectsNullAndString()
    ensures !CreateValidator(["id"])(Null)
    ensures !CreateValidator(["id"])(Str("string"))
  {
    RejectsNonObjects(["id"], Null);
    RejectsNonObjects(["id"], Str("string"));
  }
}
