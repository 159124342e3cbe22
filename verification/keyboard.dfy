/** database/keyboard.py: inline keyboards stored as rows of `[label, payload]` pairs and turned
    into Telegram inline keyboard markup. */
module Keyboard {
  import opened Wrappers
  import opened Json

  /** `InlineKeyboardButton(text=..., callback_data=...)`. */
  datatype Button = Button(text: Json, callbackData: Json)

  /** `InlineKeyboardMarkup(inline_keyboard=...)`: rows of buttons. A markup object is always
      truthy, whatever it holds. */
  type Markup = seq<seq<Button>>

  /** The one-character strings a `for` loop over a string goes through. */
  function Chars(s: string): (r: seq<Json>)
    ensures |r| == |s| && forall i :: 0 <= i < |s| ==> r[i] == JStr([s[i]])
  {
    seq(|s|, i requires 0 <= i < |s| => JStr([s[i]]))
  }

  /** `v[i]` for an integer index `i`: an item of a list, a one-character string of a string
      (IndexError past the end of either), KeyError for a dict, whose keys are strings, and
      TypeError for a value that cannot be subscripted. The key of the KeyError is the integer,
      written as its digits. */
  function At(v: Json, i: nat): (r: Result<Json>)
    ensures r.Ok? <==> (v.JList? && i < |v.items|) || (v.JStr? && i < |v.s|)
    ensures v.JList? && i < |v.items| ==> r.value == v.items[i]
    ensures v.JStr? && i < |v.s| ==> r.value == JStr([v.s[i]])
    ensures (v.JList? || v.JStr?) && r.Raised? ==> r.error == IndexError
    ensures v.JDict? ==> r.Raised? && r.error.KeyError?
    ensures !(v.JList? || v.JStr? || v.JDict?) ==> r.Raised? && r.error.TypeError?
  {
    match v
    case JList(items) => if i < |items| then Ok(items[i]) else Raised(IndexError)
    case JStr(s) => if i < |s| then Ok(JStr([s[i]])) else Raised(IndexError)
    case JDict(_) => Raised(KeyError(if i == 0 then "0" else "1"))
    case _ => Raised(TypeError("object is not subscriptable"))
  }

  /** One stored pair: `button[0]` is the label and `button[1]` the payload, read with `At`, so
      a string of two or more characters gives a button of its first two characters. */
  function ButtonOf(pair: Json): (r: Result<Button>)
    ensures r.Ok? <==> (pair.JList? && |pair.items| >= 2) || (pair.JStr? && |pair.s| >= 2)
    ensures pair.JList? && |pair.items| >= 2 ==> r == Ok(Button(pair.items[0], pair.items[1]))
    ensures pair.JStr? && |pair.s| >= 2 ==> r == Ok(Button(JStr([pair.s[0]]), JStr([pair.s[1]])))
    ensures (pair.JList? || pair.JStr?) && r.Raised? ==> r.error == IndexError
    ensures pair.JDict? ==> r == Raised(KeyError("0"))
    ensures !(pair.JList? || pair.JStr? || pair.JDict?) ==> r.Raised? && r.error.TypeError?
  {
    match At(pair, 0)
    case Raised(e) => Raised(e)
    case Ok(text) =>
      match At(pair, 1)
      case Raised(e) => Raised(e)
      case Ok(data) => Ok(Button(text, data))
  }

  /** The buttons of a list of pairs, the first bad pair raising. */
  function ButtonsOf(pairs: seq<Json>): (r: Result<seq<Button>>)
    ensures r.Ok? <==> forall j :: 0 <= j < |pairs| ==> ButtonOf(pairs[j]).Ok?
    ensures r.Ok? ==> |r.value| == |pairs| && forall j :: 0 <= j < |pairs| ==> r.value[j] == ButtonOf(pairs[j]).value
  {
    if pairs == [] then Ok([])
    else match ButtonOf(pairs[0])
      case Raised(e) => Raised(e)
      case Ok(b) =>
        match ButtonsOf(pairs[1..])
        case Raised(e) => Raised(e)
        case Ok(rest) => Ok([b] + rest)
  }

  /** `[InlineKeyboardButton(...) for button in row]`: a list gives its pairs, a string its
      one-character strings and a dict its keys; any other value cannot be iterated and raises
      TypeError. A one-character string has no `[1]`, so a non-empty string row raises
      IndexError, and so does a dict row with a key shorter than two characters. */
  function RowOf(row: Json): (r: Result<seq<Button>>)
    ensures row.JList? && r.Ok? ==>
      |r.value| == |row.items| &&
      forall j :: 0 <= j < |row.items| ==> ButtonOf(row.items[j]).Ok? && r.value[j] == ButtonOf(row.items[j]).value
    ensures !row.JList? && r.Ok? ==> r.value == []
    ensures row.JList? ==> (r.Ok? <==> forall j :: 0 <= j < |row.items| ==> ButtonOf(row.items[j]).Ok?)
    ensures row.JStr? ==> r == if row.s == "" then Ok([]) else Raised(IndexError)
    ensures row.JDict? && row.fields == map[] ==> r == Ok([])
    ensures row.JDict? && (exists k :: k in row.fields && |k| < 2) ==> r == Raised(IndexError)
    ensures !(row.JList? || row.JStr? || row.JDict?) ==> r.Raised? && r.error.TypeError?
  {
    match row
    case JList(pairs) => ButtonsOf(pairs)
    case JStr(s) =>
      if s == "" then Ok([])
      else
        assert ButtonOf(Chars(s)[0]) == Raised(IndexError);
        ButtonsOf(Chars(s))
    case JDict(fields) =>
      if fields == map[] then Ok([])
      else if exists k :: k in fields && |k| < 2 then Raised(IndexError)
      else Raised(TypeError("buttons of a dict row follow its key order"))
    case _ => Raised(TypeError("object is not iterable"))
  }

  /** The keyboard rows built from the stored rows, in order; the first bad row raises. */
  function RowsOf(rows: seq<Json>): (r: Result<Markup>)
    ensures r.Ok? <==> forall i :: 0 <= i < |rows| ==> RowOf(rows[i]).Ok?
    ensures r.Ok? ==> |r.value| == |rows| && forall i :: 0 <= i < |rows| ==> r.value[i] == RowOf(rows[i]).value
  {
    if rows == [] then Ok([])
    else
      var prefix := rows[..|rows| - 1];
      assert forall i :: 0 <= i < |prefix| ==> prefix[i] == rows[i];
      match RowsOf(prefix)
      case Raised(e) => Raised(e)
      case Ok(front) =>
        match RowOf(rows[|rows| - 1])
        case Raised(e) => Raised(e)
        case Ok(last) => Ok(front + [last])
  }

  /** The markup keeps the stored shape: as many rows, a list row with as many buttons in the
      same order, each labelled by element 0 and carrying element 1 of its pair, and every other
      row that does not raise (an empty string or dict) with no buttons. */
  lemma MarkupShape(rows: seq<Json>)
    requires RowsOf(rows).Ok?
    ensures var m := RowsOf(rows).value;
      |m| == |rows| &&
      forall i :: 0 <= i < |rows| ==>
        (rows[i].JList? ==>
           |m[i]| == |rows[i].items| &&
           forall j :: 0 <= j < |m[i]| ==>
             At(rows[i].items[j], 0).Ok? && At(rows[i].items[j], 1).Ok? &&
             m[i][j] == Button(At(rows[i].items[j], 0).value, At(rows[i].items[j], 1).value)) &&
        (!rows[i].JList? ==> m[i] == [])
  {
  }

  /** `find_one({'keyboard_id': keyboard_id})`: the first stored keyboard with that id. */
  function FindKeyboard(docs: seq<Json>, keyboardId: Json): (r: Option<Json>)
    ensures r.Some? ==> r.value in docs && Index(r.value, "keyboard_id") == Ok(keyboardId)
    ensures r.None? ==> forall i :: 0 <= i < |docs| ==> Index(docs[i], "keyboard_id") != Ok(keyboardId)
  {
    if docs == [] then None
    else if Index(docs[0], "keyboard_id") == Ok(keyboardId) then Some(docs[0])
    else
      var r := FindKeyboard(docs[1..], keyboardId);
      assert forall i :: 1 <= i < |docs| ==> docs[i] == docs[1..][i - 1];
      r
  }

  /** The rows `for row in keyboard_data['buttons']` goes through: a list's items, a string's
      one-character strings and a dict's keys; any other value cannot be iterated and raises
      TypeError. Every key of a dict other than `""` is a non-empty string row, which raises
      IndexError whichever key comes first, so a dict decides the outcome without its key
      order: IndexError when it has such a key, and otherwise the row `""` or none. */
  function StoredRows(buttons: Json): (r: Result<seq<Json>>)
    ensures buttons.JList? ==> r == Ok(buttons.items)
    ensures buttons.JStr? ==> r == Ok(Chars(buttons.s))
    ensures !(buttons.JList? || buttons.JStr? || buttons.JDict?) ==> r.Raised? && r.error.TypeError?
  {
    match buttons
    case JList(rows) => Ok(rows)
    case JStr(s) => Ok(Chars(s))
    case JDict(fields) =>
      if exists k :: k in fields && k != "" then Raised(IndexError)
      else Ok(if "" in fields then [JStr("")] else [])
    case _ => Raised(TypeError("object is not iterable"))
  }

  /** The markup built from the stored `buttons`. A list is converted row by row; a string
      gives an empty markup when it is empty and raises IndexError otherwise (its first
      character is a row whose one pair has no `[1]`); a dict gives one empty row for the key
      `""`, none when it is empty, and IndexError when it has any other key. */
  function MarkupFrom(buttons: Json): (r: Result<Markup>)
    ensures buttons.JList? ==> r == RowsOf(buttons.items)
    ensures buttons.JStr? ==> r == if buttons.s == "" then Ok([]) else Raised(IndexError)
    ensures buttons.JDict? ==>
      r == if exists k :: k in buttons.fields && k != "" then Raised(IndexError)
           else if "" in buttons.fields then Ok([[]]) else Ok([])
    ensures !(buttons.JList? || buttons.JStr? || buttons.JDict?) ==> r.Raised? && r.error.TypeError?
    ensures StoredRows(buttons).Ok? ==> r == RowsOf(StoredRows(buttons).value)
    ensures StoredRows(buttons).Raised? ==> r == Raised(StoredRows(buttons).error)
  {
    match buttons
    case JList(rows) => RowsOf(rows)
    case JStr(s) =>
      if s == "" then Ok([])
      else
        var rows := Chars(s);
        assert RowOf(rows[0]) == Raised(IndexError);
        RowsFirstFails(rows);
        Raised(IndexError)
    case JDict(fields) =>
      if exists k :: k in fields && k != "" then Raised(IndexError)
      else if "" in fields then
        var rows := [JStr("")];
        assert StoredRows(buttons) == Ok(rows);
        assert RowOf(rows[0]) == Ok([]);
        assert rows[..|rows| - 1] == [] && RowsOf(rows[..|rows| - 1]) == Ok([]);
        var empty: seq<Button> := [];
        var none: Markup := [];
        assert none + [empty] == [empty];
        assert RowsOf(rows) == Ok(none + [empty]);
        Ok([[]])
      else Ok([])
    case _ => Raised(TypeError("object is not iterable"))
  }

  /** What `get_keyboard(keyboard_id)` returns: no markup when nothing is stored, otherwise the
      stored `buttons` turned into markup. */
  function KeyboardFor(docs: seq<Json>, keyboardId: Json): Result<Option<Markup>>
  {
    match FindKeyboard(docs, keyboardId)
    case None => Ok(None)
    case Some(doc) =>
      match Index(doc, "buttons")
      case Raised(e) => Raised(e)
      case Ok(buttons) =>
        match MarkupFrom(buttons)
        case Raised(e) => Raised(e)
        case Ok(m) => Ok(Some(m))
  }

  /** What a call of `get_keyboard` with the positional arguments `args` returns. */
  function CallResult(docs: seq<Json>, args: seq<Json>): Result<Option<Markup>>
  {
    if |args| != 1 then Raised(TypeError("get_keyboard() takes 1 positional argument")) else KeyboardFor(docs, args[0])
  }

  /** The `keyboards` collection. */
  class KeyboardTable {
    var docs: seq<Json>

    constructor()
      ensures docs == []
    {
      docs := [];
    }

    /** `get_keyboard(keyboard_id)` (database/keyboard.py:4-16): the rows are converted one at
        a time and appended to the markup. */
    method GetKeyboard(keyboardId: Json) returns (r: Result<Option<Markup>>)
      ensures r == KeyboardFor(docs, keyboardId)
      ensures FindKeyboard(docs, keyboardId).None? ==> r == Ok(None)
    {
      var keyboardData := FindKeyboard(docs, keyboardId);
      if keyboardData.None? {
        return Ok(None);
      }
      var buttons := Index(keyboardData.value, "buttons");
      if buttons.Raised? {
        return Raised(buttons.error);
      }
      var stored := StoredRows(buttons.value);
      if stored.Raised? {
        return Raised(stored.error);
      }
      var rows := stored.value;
      var keyboardButtons: Markup := [];
      var i := 0;
      while i < |rows|
        invariant 0 <= i <= |rows|
        invariant RowsOf(rows[..i]) == Ok(keyboardButtons)
      {
        assert rows[..i + 1][..i] == rows[..i];
        var row := RowOf(rows[i]);
        if row.Raised? {
          assert RowsOf(rows[..i + 1]) == Raised(row.error);
          RowsFailFrom(rows, i + 1, row.error);
          assert MarkupFrom(buttons.value) == Raised(row.error);
          return Raised(row.error);
        }
        keyboardButtons := keyboardButtons + [row.value];
        i := i + 1;
      }
      assert rows[..|rows|] == rows;
      assert MarkupFrom(buttons.value) == Ok(keyboardButtons);
      return Ok(Some(keyboardButtons));
    }

    /** A call with the given positional arguments: `get_keyboard` takes exactly one, and any
        other number raises TypeError before the collection is read. */
    method Call(args: seq<Json>) returns (r: Result<Option<Markup>>)
      ensures |args| != 1 ==> r.Raised? && r.error.TypeError?
      ensures |args| == 1 ==> r == KeyboardFor(docs, args[0])
      ensures r == CallResult(docs, args)
    {
      if |args| != 1 {
        return Raised(TypeError("get_keyboard() takes 1 positional argument"));
      }
      r := GetKeyboard(args[0]);
    }
  }

  /** Once a prefix of the rows fails, the whole list fails with the same error. */
  lemma {:induction false} RowsFailFrom(rows: seq<Json>, k: nat, e: PyError)
    requires k <= |rows| && RowsOf(rows[..k]) == Raised(e)
    ensures RowsOf(rows) == Raised(e)
    decreases |rows|
  {
    if k == |rows| {
      assert rows[..k] == rows;
    } else {
      var front := rows[..|rows| - 1];
      assert front[..k] == rows[..k];
      RowsFailFrom(front, k, e);
    }
  }

  /** A first row that raises makes the whole keyboard raise with its error. */
  lemma RowsFirstFails(rows: seq<Json>)
    requires rows != [] && RowOf(rows[0]).Raised?
    ensures RowsOf(rows) == Raised(RowOf(rows[0]).error)
  {
    assert rows[..1][..0] == [];
    assert RowsOf(rows[..1]) == Raised(RowOf(rows[0]).error);
    RowsFailFrom(rows, 1, RowOf(rows[0]).error);
  }
}
