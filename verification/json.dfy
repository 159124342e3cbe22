/** Document values as the bot stores and logs them: the JSON-like values of Python
    dictionaries and lists, and the log clean-up `CustomDispatcher._remove_none_values`. */
module Json {
  import opened Wrappers

  /** A Python value held in a document. Integers and decimal numbers are kept apart
      because message ids are integers and amounts are decimals; dates are JInt seconds. */
  datatype Json =
    | JNull
    | JBool(b: bool)
    | JInt(i: int)
    | JNum(r: real)
    | JStr(s: string)
    | JList(items: seq<Json>)
    | JDict(fields: map<string, Json>)

  const EmptyDict: Json := JDict(map[])

  /** Python truthiness: `None`, `False`, zero, and empty strings, lists and dicts are false. */
  predicate Truthy(j: Json)
  {
    match j
    case JNull => false
    case JBool(b) => b
    case JInt(i) => i != 0
    case JNum(r) => r != 0.0
    case JStr(s) => s != ""
    case JList(items) => items != []
    case JDict(fields) => fields != map[]
  }

  /** The number a value stands for in a comparison with a Decimal: ints, bools and floats;
      `None` for every other value, which makes the comparison raise TypeError. */
  function Number(j: Json): Option<real>
  {
    match j
    case JInt(i) => Some(i as real)
    case JNum(r) => Some(r)
    case JBool(b) => Some(if b then 1.0 else 0.0)
    case _ => None
  }

  /** `j[key]` on a value: a KeyError when a dict lacks the key, a TypeError when `j` is no dict. */
  function Index(j: Json, key: string): (r: Result<Json>)
    ensures r.Ok? <==> j.JDict? && key in j.fields
    ensures r.Ok? ==> r.value == j.fields[key]
    ensures j.JDict? && key !in j.fields ==> r == Raised(KeyError(key))
  {
    match j
    case JDict(fields) => if key in fields then Ok(fields[key]) else Raised(KeyError(key))
    case _ => Raised(TypeError("object is not subscriptable by a string key"))
  }

  /** `j[k1][k2]...`: the first failing step decides the exception. */
  function Path(j: Json, keys: seq<string>): (r: Result<Json>)
    decreases |keys|
  {
    if keys == [] then Ok(j)
    else match Index(j, keys[0])
      case Ok(next) => Path(next, keys[1..])
      case Raised(e) => Raised(e)
  }

  /** No `None` list item and no `None` dict value at any depth (the value itself may be `None`). */
  predicate NoneFree(j: Json)
  {
    match j
    case JList(items) => forall i :: 0 <= i < |items| ==> items[i] != JNull && NoneFree(items[i])
    case JDict(fields) => forall k :: k in fields ==> fields[k] != JNull && NoneFree(fields[k])
    case _ => true
  }

  /** The items of a list that are not `None`, in their order. */
  function NonNull(items: seq<Json>): (r: seq<Json>)
    ensures forall x :: x in r ==> x in items && x != JNull
    ensures |r| <= |items|
  {
    if items == [] then []
    else (if items[0] == JNull then [] else [items[0]]) + NonNull(items[1..])
  }

  /** `_remove_none_values` (dispatcher.py:33-40): rebuild dicts and lists without their
      `None` entries, recursively; every other value is returned as it is. */
  function RemoveNone(j: Json): (r: Json)
    ensures r == JNull <==> j == JNull
    ensures r.JList? <==> j.JList?
    ensures r.JDict? <==> j.JDict?
    ensures j.JDict? ==> r.fields.Keys == set k | k in j.fields && j.fields[k] != JNull
  {
    match j
    case JList(items) =>
      var kept := NonNull(items);
      JList(seq(|kept|, i requires 0 <= i < |kept| => assert kept[i] in items; RemoveNone(kept[i])))
    case JDict(fields) =>
      JDict(map k | k in fields && fields[k] != JNull :: RemoveNone(fields[k]))
    case _ => j
  }

  lemma {:induction false} NonNullKeepsFree(items: seq<Json>)
    requires forall i :: 0 <= i < |items| ==> items[i] != JNull
    ensures NonNull(items) == items
  {
    if items != [] {
      NonNullKeepsFree(items[1..]);
      assert items == [items[0]] + items[1..];
    }
  }

  /** After clean-up no `None` is left inside any list or dict, at any depth. */
  lemma {:induction false} RemoveNoneIsNoneFree(j: Json)
    ensures NoneFree(RemoveNone(j))
  {
    match j
    case JList(items) =>
      var kept := NonNull(items);
      var r := RemoveNone(j);
      forall i | 0 <= i < |r.items|
        ensures r.items[i] != JNull && NoneFree(r.items[i])
      {
        assert kept[i] in items;
        RemoveNoneIsNoneFree(kept[i]);
      }
    case JDict(fields) =>
      var r := RemoveNone(j);
      forall k | k in r.fields
        ensures r.fields[k] != JNull && NoneFree(r.fields[k])
      {
        RemoveNoneIsNoneFree(fields[k]);
      }
    case _ =>
  }

  /** A value without inner `None`s is left exactly as it is. */
  lemma {:induction false} RemoveNoneKeepsNoneFree(j: Json)
    requires NoneFree(j)
    ensures RemoveNone(j) == j
  {
    match j
    case JList(items) =>
      NonNullKeepsFree(items);
      forall i | 0 <= i < |items|
        ensures RemoveNone(items[i]) == items[i]
      {
        RemoveNoneKeepsNoneFree(items[i]);
      }
      assert RemoveNone(j).items == items;
    case JDict(fields) =>
      forall k | k in fields
        ensures RemoveNone(fields[k]) == fields[k]
      {
        RemoveNoneKeepsNoneFree(fields[k]);
      }
      assert RemoveNone(j).fields == fields;
    case _ =>
  }

  /** The clean-up changes a value if and only if some `None` sits inside it. */
  lemma RemoveNoneFixedPoint(j: Json)
    ensures RemoveNone(j) == j <==> NoneFree(j)
  {
    RemoveNoneIsNoneFree(j);
    if NoneFree(j) {
      RemoveNoneKeepsNoneFree(j);
    }
  }

  /** Cleaning twice is cleaning once. */
  lemma RemoveNoneIdempotent(j: Json)
    ensures RemoveNone(RemoveNone(j)) == RemoveNone(j)
  {
    RemoveNoneIsNoneFree(j);
    RemoveNoneKeepsNoneFree(RemoveNone(j));
  }

  /** The list filter keeps exactly the items that are not `None`. */
  lemma {:induction false} NonNullMembers(items: seq<Json>, x: Json)
    ensures x in NonNull(items) <==> x in items && x != JNull
  {
    if items != [] {
      NonNullMembers(items[1..], x);
      assert items == [items[0]] + items[1..];
    }
  }
  /** The list filter works item by item: filtering a concatenation filters each part. */
  lemma {:induction false} NonNullAppend(a: seq<Json>, b: seq<Json>)
    ensures NonNull(a + b) == NonNull(a) + NonNull(b)
  {
    if a == [] {
      assert a + b == b;
    } else {
      var head := if a[0] == JNull then [] else [a[0]];
      assert (a + b)[0] == a[0] && (a + b)[1..] == a[1..] + b;
      assert NonNull(a + b) == head + NonNull(a[1..] + b);
      NonNullAppend(a[1..], b);
      assert NonNull(a) == head + NonNull(a[1..]);
    }
  }

  /** What the clean-up keeps it keeps in place: a dict keeps each remaining value under its
      own key, cleaned; a list keeps its remaining items in their order, each cleaned; any
      other value comes back unchanged. */
  lemma RemoveNoneKeepsValues(j: Json)
    ensures j.JDict? ==> forall k :: k in RemoveNone(j).fields ==>
      k in j.fields && RemoveNone(j).fields[k] == RemoveNone(j.fields[k])
    ensures j.JList? ==> (|RemoveNone(j).items| == |NonNull(j.items)| &&
      forall i :: 0 <= i < |RemoveNone(j).items| ==>
        RemoveNone(j).items[i] == RemoveNone(NonNull(j.items)[i]))
    ensures !j.JList? && !j.JDict? ==> RemoveNone(j) == j
  {
  }
}
