/** database/user.py: the `users` collection, written from every incoming message or callback
    query and read back by the id of whoever sent an update. */
module Users {
  import opened Wrappers
  import opened Json
  import State

  /** The sender of an update (`aiogram.types.User`); the optional names are JSON values that
      may be `None`. */
  datatype TgUser = TgUser(id: int, username: Json, firstName: Json, lastName: Json, languageCode: Json)

  /** A message. `fromUser` is missing for channel posts; `date` is its time in seconds. */
  datatype Message = Message(fromUser: Option<TgUser>, date: int, text: Option<string>)

  /** A callback query: its id, sender, the message its button sits under (missing for inline
      messages) and its payload. */
  datatype CallbackQuery = CallbackQuery(id: string, fromUser: TgUser, message: Option<Message>, data: Option<string>)

  /** An inline query or a chosen inline result: only the sender matters here. */
  datatype InlineEvent = InlineEvent(fromUser: TgUser)

  /** The parts of an update that the bot looks at; at most one is set by Telegram, but every
      combination is allowed here and the order of the tests decides. */
  datatype Update = Update(
    message: Option<Message>,
    callbackQuery: Option<CallbackQuery>,
    inlineQuery: Option<InlineEvent>,
    chosenInlineResult: Option<InlineEvent>)

  /** The id `get_user` looks up: from the message, else the callback query, else the inline
      query, else the chosen inline result; `None` when the update has none of them. A message
      without a sender raises AttributeError. */
  function SenderId(update: Update): (r: Result<Option<int>>)
    ensures update.message.Some? ==>
      r == if update.message.value.fromUser.Some? then Ok(Some(update.message.value.fromUser.value.id))
           else Raised(AttributeError("id"))
    ensures update.message.None? && update.callbackQuery.Some? ==>
      r == Ok(Some(update.callbackQuery.value.fromUser.id))
    ensures update.message.None? && update.callbackQuery.None? && update.inlineQuery.Some? ==>
      r == Ok(Some(update.inlineQuery.value.fromUser.id))
    ensures update.message.None? && update.callbackQuery.None? && update.inlineQuery.None? ==>
      r == if update.chosenInlineResult.Some? then Ok(Some(update.chosenInlineResult.value.fromUser.id)) else Ok(None)
  {
    if update.message.Some? then
      match update.message.value.fromUser
      case None => Raised(AttributeError("id"))
      case Some(u) => Ok(Some(u.id))
    else if update.callbackQuery.Some? then Ok(Some(update.callbackQuery.value.fromUser.id))
    else if update.inlineQuery.Some? then Ok(Some(update.inlineQuery.value.fromUser.id))
    else if update.chosenInlineResult.Some? then Ok(Some(update.chosenInlineResult.value.fromUser.id))
    else Ok(None)
  }

  /** `get_user(update)` (database/user.py:30-43): the stored document of the sender, `None`
      when the update names no sender or the sender has no document. */
  function GetUser(users: State.Records, update: Update): (r: Result<Option<State.Document>>)
    ensures SenderId(update).Raised? <==> r.Raised?
    ensures r.Ok? && r.value.Some? ==>
      SenderId(update).value.Some? && SenderId(update).value.value in users &&
      r.value.value == users[SenderId(update).value.value]
    ensures SenderId(update) == Ok(None) ==> r == Ok(None)
  {
    match SenderId(update)
    case Raised(e) => Raised(e)
    case Ok(None) => Ok(None)
    case Ok(Some(id)) => Ok(if id in users then Some(users[id]) else None)
  }

  /** The six fields `update_or_create_user` sets. */
  function UserFields(u: TgUser, date: int): (d: State.Document)
    ensures d.Keys == {"user_id", "username", "first_name", "last_name", "language_code", "updated_at"}
    ensures d["user_id"] == JInt(u.id) && d["updated_at"] == JInt(date)
  {
    map["user_id" := JInt(u.id), "username" := u.username, "first_name" := u.firstName,
        "last_name" := u.lastName, "language_code" := u.languageCode, "updated_at" := JInt(date)]
  }

  /** What `update_or_create_user` writes: nothing for an update with neither a message nor a
      callback query, otherwise the sender's id and fields. The date of a callback query is the
      date of its message, read before the sender, so a callback query without a message
      raises AttributeError; so does a message without a sender. */
  function UserWrite(update: Update): (r: Result<Option<(int, State.Document)>>)
    ensures update.message.None? && update.callbackQuery.None? ==> r == Ok(None)
    ensures update.message.Some? ==> (r.Ok? <==> update.message.value.fromUser.Some?)
    ensures update.message.None? && update.callbackQuery.Some? ==>
      (r.Ok? <==> update.callbackQuery.value.message.Some?)
    ensures r.Ok? && r.value.Some? ==> "updated_at" in r.value.value.1 && r.value.value.1["updated_at"] == JInt(
      if update.message.Some? then update.message.value.date else update.callbackQuery.value.message.value.date)
    ensures r.Ok? && r.value.Some? ==> "user_id" in r.value.value.1 && r.value.value.1["user_id"] == JInt(r.value.value.0)
  {
    if update.message.Some? then
      var source := update.message.value;
      match source.fromUser
      case None => Raised(AttributeError("id"))
      case Some(u) => Ok(Some((u.id, UserFields(u, source.date))))
    else if update.callbackQuery.Some? then
      var source := update.callbackQuery.value;
      match source.message
      case None => Raised(AttributeError("date"))
      case Some(m) => Ok(Some((source.fromUser.id, UserFields(source.fromUser, m.date))))
    else Ok(None)
  }

  /** Every document is stored under the id it holds in `user_id`. */
  predicate KeyedById(users: State.Records)
  {
    forall id :: id in users ==> "user_id" in users[id] && users[id]["user_id"] == JInt(id)
  }

  /** The writer and the reader agree on whose document it is: after a message or callback
      query is recorded, `get_user` on the same update returns a document holding the fields
      just written. */
  lemma WrittenThenRead(users: State.Records, update: Update)
    requires UserWrite(update).Ok? && UserWrite(update).value.Some?
    ensures var (id, fields) := UserWrite(update).value.value;
      var after := State.Upsert(users, id, fields);
      GetUser(after, update).Ok? && GetUser(after, update).value.Some? &&
      fields.Keys <= GetUser(after, update).value.value.Keys &&
      forall k :: k in fields ==> GetUser(after, update).value.value[k] == fields[k]
  {
    var (id, fields) := UserWrite(update).value.value;
    assert SenderId(update) == Ok(Some(id));
  }

  /** The upsert keeps the documents keyed by their ids. */
  lemma WriteKeepsKeyedById(users: State.Records, update: Update)
    requires KeyedById(users)
    requires UserWrite(update).Ok? && UserWrite(update).value.Some?
    ensures var (id, fields) := UserWrite(update).value.value;
      KeyedById(State.Upsert(users, id, fields))
  {
  }

  /** The `users` collection, one document per Telegram user id. */
  class UserTable {
    var docs: State.Records

    constructor()
      ensures docs == map[]
    {
      docs := map[];
    }

    /** `update_or_create_user(update)` (database/user.py:5-28): set the six fields on the
        sender's document, creating it if needed; the document's other fields and other users'
        documents are kept, and nothing is written when the update is of another kind or an
        attribute is missing. */
    method UpdateOrCreateUser(update: Update) returns (r: Result<()>)
      modifies this
      ensures r.Raised? <==> UserWrite(update).Raised?
      ensures UserWrite(update).Ok? && UserWrite(update).value.Some? ==>
        var (id, fields) := UserWrite(update).value.value;
        docs == State.Upsert(old(docs), id, fields) &&
        (forall k :: k in fields ==> docs[id][k] == fields[k]) &&
        (id in old(docs) ==> forall k :: k in old(docs)[id] && k !in fields ==> docs[id][k] == old(docs)[id][k]) &&
        (forall w :: w in old(docs) && w != id ==> w in docs && docs[w] == old(docs)[w])
      ensures !(UserWrite(update).Ok? && UserWrite(update).value.Some?) ==> docs == old(docs)
    {
      var source: TgUser;
      var date: int;
      if update.message.Some? {
        if update.message.value.fromUser.None? {
          return Raised(AttributeError("id"));
        }
        source := update.message.value.fromUser.value;
        date := update.message.value.date;
      } else if update.callbackQuery.Some? {
        if update.callbackQuery.value.message.None? {
          return Raised(AttributeError("date"));
        }
        date := update.callbackQuery.value.message.value.date;
        source := update.callbackQuery.value.fromUser;
      } else {
        return Ok(());
      }
      var userId := source.id;
      var userData := UserFields(source, date);
      docs := State.Upsert(docs, userId, userData);
      return Ok(());
    }

    /** `get_user(update)` against the current documents. */
    method GetUserDoc(update: Update) returns (r: Result<Option<State.Document>>)
      ensures r == GetUser(docs, update)
      ensures r.Ok? && r.value.Some? && KeyedById(docs) ==> r.value.value["user_id"] == JInt(SenderId(update).value.value)
    {
      var userId: int;
      if update.message.Some? {
        if update.message.value.fromUser.None? {
          return Raised(AttributeError("id"));
        }
        userId := update.message.value.fromUser.value.id;
      } else if update.callbackQuery.Some? {
        userId := update.callbackQuery.value.fromUser.id;
      } else if update.inlineQuery.Some? {
        userId := update.inlineQuery.value.fromUser.id;
      } else if update.chosenInlineResult.Some? {
        userId := update.chosenInlineResult.value.fromUser.id;
      } else {
        return Ok(None);
      }
      if userId in docs {
        return Ok(Some(docs[userId]));
      }
      return Ok(None);
    }
  }

  /** The holds after `amount` is added to one user's hold in one currency; nothing held
      counts as 0. */
  function Added(holds: map<(int, string), real>, userId: int, crypto: string, amount: real): (r: map<(int, string), real>)
    ensures r.Keys == holds.Keys + {(userId, crypto)}
    ensures r[(userId, crypto)] == (if (userId, crypto) in holds then holds[(userId, crypto)] else 0.0) + amount
    ensures forall k :: k in holds && k != (userId, crypto) ==> r[k] == holds[k]
  {
    holds[(userId, crypto) := (if (userId, crypto) in holds then holds[(userId, crypto)] else 0.0) + amount]
  }

  /** Adding to holds in any order gives the same holds. */
  lemma AddedCommute(holds: map<(int, string), real>, u1: int, c1: string, a1: real, u2: int, c2: string, a2: real)
    ensures Added(Added(holds, u1, c1, a1), u2, c2, a2) == Added(Added(holds, u2, c2, a2), u1, c1, a1)
  {
    var x := Added(Added(holds, u1, c1, a1), u2, c2, a2);
    var y := Added(Added(holds, u2, c2, a2), u1, c1, a1);
    assert x.Keys == y.Keys;
    forall k | k in x
      ensures x[k] == y[k]
    {
    }
  }

  /** The amount each user has on hold per currency. `update_user_hold`, which database/user.py
      is imported for but does not define, is taken to add the amount to the user's hold. */
  class HoldLedger {
    var holds: map<(int, string), real>

    constructor()
      ensures holds == map[]
    {
      holds := map[];
    }

    /** `update_user_hold(user_id=..., crypto=..., amount=...)`: the user's hold in that currency
        grows by `amount`; every other hold stays. */
    method Add(userId: int, crypto: string, amount: real)
      modifies this
      ensures holds == Added(old(holds), userId, crypto, amount)
    {
      var held := if (userId, crypto) in holds then holds[(userId, crypto)] else 0.0;
      holds := holds[(userId, crypto) := held + amount];
    }
  }
}
