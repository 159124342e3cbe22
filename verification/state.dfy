/** The per-user key/value store of database/state.py: one document per user in the
    `states` collection, read with `get_state` and written field by field with `set_state`. */
module State {
  import opened Wrappers
  import opened Json

  type UserId = int

  /** A stored document: its fields by name (the collection's own `_id` is not modelled). */
  type Document = map<string, Json>

  /** The `states` collection, one document per `user_id`. */
  type Records = map<UserId, Document>

  // The keys of `States` (database/state.py:3-5).
  const SELECTED := "selected_values"
  const LAST_MESSAGE := "last_message"

  /** `if key`: a key is used only when it is given and not the empty string. */
  predicate KeyGiven(key: Option<string>)
  {
    key.Some? && key.value != ""
  }

  /** `find_one({'user_id': user_id}) or {}`. */
  function RecordOf(records: Records, u: UserId): Document
  {
    if u in records then records[u] else map[]
  }

  /** `get_state(user_id, key)`: the value under a given key, `{}` when the record or the key
      is missing; the whole record when no key is given. */
  function Get(records: Records, u: UserId, key: Option<string>): (r: Json)
    ensures KeyGiven(key) && u in records && key.value in records[u] ==> r == records[u][key.value]
    ensures KeyGiven(key) && (u !in records || key.value !in records[u]) ==> r == EmptyDict
    ensures !KeyGiven(key) ==> r.JDict? && (u in records ==> r.fields == records[u]) && (u !in records ==> r == EmptyDict)
  {
    var state := RecordOf(records, u);
    if KeyGiven(key) then (if key.value in state then state[key.value] else EmptyDict) else JDict(state)
  }

  /** `update_one({'user_id': u}, {'$set': fields}, upsert=True)`: the fields overwrite those of
      an existing document; a missing document is created from the filter's `user_id` first. */
  function Upsert(records: Records, u: UserId, fields: Document): Records
  {
    records[u := if u in records then records[u] + fields else map["user_id" := JInt(u)] + fields]
  }

  /** The collection after `set_state(u, key, v)`. */
  function Put(records: Records, u: UserId, key: string, v: Json): (r: Records)
    ensures u in r && key in r[u] && r[u][key] == v
    ensures r.Keys == records.Keys + {u}
    ensures forall w :: w in records && w != u ==> r[w] == records[w]
  {
    Upsert(records, u, RecordOf(records, u)[key := v])
  }

  /** A value written under a key is what the key then reads back. */
  lemma GetAfterPut(records: Records, u: UserId, key: string, v: Json)
    requires key != ""
    ensures Get(Put(records, u, key, v), u, Some(key)) == v
  {
  }

  /** Writing one key leaves the user's other keys as they were, except that the first write
      for a user also stores `user_id` in the new document. */
  lemma PutKeepsOtherKeys(records: Records, u: UserId, key: string, v: Json, other: string)
    requires other != key && other != ""
    requires u in records || other != "user_id"
    ensures Get(Put(records, u, key, v), u, Some(other)) == Get(records, u, Some(other))
  {
  }

  /** A user's first write creates a document holding the user id and the written value. */
  lemma PutCreatesRecord(records: Records, u: UserId, key: string, v: Json)
    requires u !in records
    ensures Put(records, u, key, v)[u] == map["user_id" := JInt(u)][key := v]
  {
    var r := Put(records, u, key, v);
    assert r[u] == map["user_id" := JInt(u)] + map[key := v];
  }

  /** Writing for one user changes nothing that another user reads. */
  lemma PutKeepsOtherUsers(records: Records, u: UserId, key: string, v: Json, w: UserId, k: Option<string>)
    requires w != u
    ensures Get(Put(records, u, key, v), w, k) == Get(records, w, k)
  {
  }

  /** The document a write leaves: the old one with the key set, or a new one. */
  lemma PutDocument(records: Records, u: UserId, key: string, v: Json)
    ensures u in records ==> Put(records, u, key, v)[u] == records[u][key := v]
    ensures u !in records ==> Put(records, u, key, v)[u] == map["user_id" := JInt(u)][key := v]
  {
    var r := Put(records, u, key, v);
    if u in records {
      assert r[u] == records[u] + records[u][key := v];
    } else {
      PutCreatesRecord(records, u, key, v);
    }
  }

  /** Two writes to the same key: the last one wins and the first leaves no trace. */
  lemma PutLastWriteWins(records: Records, u: UserId, key: string, v1: Json, v2: Json)
    ensures Put(Put(records, u, key, v1), u, key, v2) == Put(records, u, key, v2)
  {
    var once := Put(records, u, key, v1);
    PutDocument(records, u, key, v1);
    PutDocument(once, u, key, v2);
    PutDocument(records, u, key, v2);
    var a := Put(once, u, key, v2);
    var b := Put(records, u, key, v2);
    assert a[u] == b[u];
    assert a == b;
  }

  /** The base document two writes start from: the stored one, or a new one for the user. */
  function BaseDocument(records: Records, u: UserId): Document
  {
    if u in records then records[u] else map["user_id" := JInt(u)]
  }

  lemma PutTwiceDocument(records: Records, u: UserId, k1: string, v1: Json, k2: string, v2: Json)
    ensures Put(Put(records, u, k1, v1), u, k2, v2)[u] == BaseDocument(records, u)[k1 := v1][k2 := v2]
  {
    PutDocument(records, u, k1, v1);
    PutDocument(Put(records, u, k1, v1), u, k2, v2);
  }

  lemma PutTwiceOthers(records: Records, u: UserId, k1: string, v1: Json, k2: string, v2: Json)
    ensures Put(Put(records, u, k1, v1), u, k2, v2).Keys == records.Keys + {u}
    ensures forall w :: w in records && w != u ==> Put(Put(records, u, k1, v1), u, k2, v2)[w] == records[w]
  {
  }

  lemma UpdatesCommute(m: Document, k1: string, v1: Json, k2: string, v2: Json)
    requires k1 != k2
    ensures m[k1 := v1][k2 := v2] == m[k2 := v2][k1 := v1]
  {
  }

  /** Writes to two different keys can be made in either order. */
  lemma PutCommutes(records: Records, u: UserId, k1: string, v1: Json, k2: string, v2: Json)
    requires k1 != k2
    ensures Put(Put(records, u, k1, v1), u, k2, v2) == Put(Put(records, u, k2, v2), u, k1, v1)
  {
    PutTwiceDocument(records, u, k1, v1, k2, v2);
    PutTwiceDocument(records, u, k2, v2, k1, v1);
    UpdatesCommute(BaseDocument(records, u), k1, v1, k2, v2);
    PutTwiceOthers(records, u, k1, v1, k2, v2);
    PutTwiceOthers(records, u, k2, v2, k1, v1);
    SameExceptAt(records, Put(Put(records, u, k1, v1), u, k2, v2), Put(Put(records, u, k2, v2), u, k1, v1), u);
  }

  lemma SameExceptAt(records: Records, a: Records, b: Records, u: UserId)
    requires a.Keys == records.Keys + {u} && b.Keys == records.Keys + {u}
    requires forall w :: w in records && w != u ==> a[w] == records[w] && b[w] == records[w]
    requires a[u] == b[u]
    ensures a == b
  {
    forall w | w in a
      ensures w in b && a[w] == b[w]
    {
      if w != u {
        assert w in records.Keys;
      }
    }
    assert a.Keys == b.Keys;
  }

  /** The `states` collection as the bot mutates it. */
  class StateStore {
    var records: Records

    constructor()
      ensures records == map[]
    {
      records := map[];
    }

    /** `set_state(user_id, key, value)` (database/state.py:11-18): read the whole record,
        set one field, upsert the record back. */
    method SetState(u: UserId, key: string, v: Json)
      modifies this
      ensures records == Put(old(records), u, key, v)
    {
      var state := RecordOf(records, u);
      state := state[key := v];
      records := Upsert(records, u, state);
      assert records[u] == Put(old(records), u, key, v)[u];
    }
  }
}
