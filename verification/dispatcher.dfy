/** dispatcher.py: how an incoming update is routed to its handler and answered. Every answer
    first advances the user's navigation chain (the breadcrumb list stored under
    `selected_values`), then looks up the response record of the trigger, builds its text and
    keyboard, sends it and remembers the id of the message sent so that the next answer can
    delete it. */
module Dispatcher {
  import opened Wrappers
  import opened Json
  import opened State
  import Triggers
  import Users
  import Keyboard
  import ValidatorBase

  // ---------------------------------------------------------------------------------------
  // The chain advance (dispatcher.py:97-109)

  /** `items.index(t)`: the first position holding `t`. */
  function IndexOf(items: seq<Json>, t: Json): (r: nat)
    requires t in items
    ensures r < |items| && items[r] == t
    ensures t !in items[..r]
  {
    if items[0] == t then 0
    else
      var k := IndexOf(items[1..], t);
      assert items[..k + 1] == [items[0]] + items[1..][..k];
      k + 1
  }

  /** The chain after a trigger: cut back to the first occurrence of the trigger when it is
      already there, extended by it otherwise. Either way it ends with the trigger and holds
      it nowhere else. */
  function Advance(chain: seq<Json>, t: Json): (r: seq<Json>)
    ensures 0 < |r| && r[|r| - 1] == t && t !in r[..|r| - 1]
    ensures t in chain ==> |r| <= |chain| && r == chain[..|r|]
    ensures t !in chain ==> |r| == |chain| + 1 && r[..|chain|] == chain
  {
    if t in chain then
      var i := IndexOf(chain, t);
      assert chain[..i + 1][..i] == chain[..i];
      chain[..i + 1]
    else
      assert (chain + [t])[..|chain|] == chain;
      chain + [t]
  }

  /** No element occurs twice. */
  predicate NoDup(s: seq<Json>)
  {
    forall i, j :: 0 <= i < j < |s| ==> s[i] != s[j]
  }

  /** A trigger that is already in the chain cuts it back to the prefix ending at its first
      occurrence; any other trigger grows the chain by exactly one element. */
  lemma AdvanceCases(chain: seq<Json>, t: Json)
    ensures t in chain ==> Advance(chain, t) == chain[..IndexOf(chain, t) + 1]
    ensures t !in chain ==> Advance(chain, t) == chain + [t]
  {
    var r := Advance(chain, t);
    if t !in chain {
      assert r == r[..|chain|] + [r[|r| - 1]];
    }
  }

  /** Advancing twice by the same trigger is advancing once. */
  lemma AdvanceIdempotent(chain: seq<Json>, t: Json)
    ensures Advance(Advance(chain, t), t) == Advance(chain, t)
  {
    var r := Advance(chain, t);
    assert t in r;
  }

  /** A chain without repeats stays without repeats. */
  lemma AdvanceKeepsNoDup(chain: seq<Json>, t: Json)
    requires NoDup(chain)
    ensures NoDup(Advance(chain, t))
  {
    var r := Advance(chain, t);
    forall i, j | 0 <= i < j < |r|
      ensures r[i] != r[j]
    {
      if j == |r| - 1 {
        assert r[..|r| - 1][i] == r[i];
      } else {
        assert r[..|r| - 1][i] == r[i] && r[..|r| - 1][j] == r[j];
        if t in chain {
          assert r[i] == chain[i] && r[j] == chain[j];
        } else {
          assert r[..|chain|][i] == chain[i] && r[..|chain|][j] == chain[j];
        }
      }
    }
  }

  /** The trigger occurs exactly once in the advanced chain. */
  lemma AdvanceHoldsTriggerOnce(chain: seq<Json>, t: Json)
    ensures multiset(Advance(chain, t))[t] == 1
  {
    var r := Advance(chain, t);
    assert r == r[..|r| - 1] + [t];
    assert multiset(r[..|r| - 1])[t] == 0;
  }

  /** `t` occurs in `s` at position `j`. */
  predicate OccursAt(s: string, t: string, j: int)
  {
    0 <= j && j + |t| <= |s| && s[j..j + |t|] == t
  }

  /** `t in s` and `s.index(t)` on strings: the first position at or after `i` where `t`
      occurs in `s`. */
  function FindFrom(s: string, t: string, i: nat): (r: Option<nat>)
    ensures r.Some? ==> i <= r.value && OccursAt(s, t, r.value)
    ensures r.Some? ==> forall j :: i <= j < r.value ==> !OccursAt(s, t, j)
    ensures r.None? ==> forall j :: i <= j ==> !OccursAt(s, t, j)
    decreases |s| - i
  {
    if i + |t| > |s| then None
    else if s[i..i + |t|] == t then Some(i)
    else FindFrom(s, t, i + 1)
  }

  /** The value a trigger is stored as: the text, or `None` for a message without text. */
  function TriggerJson(t: Option<string>): (j: Json)
    ensures t.Some? ==> j == JStr(t.value)
    ensures t.None? ==> j == JNull
  {
    if t.Some? then JStr(t.value) else JNull
  }

  /** `trigger in selected` and the slice or concatenation that follows, on the value
      `get_state` returned. A list advances. A dict reports its keys to `in` and then has no
      `index` (AttributeError), or refuses `+ [trigger]` (TypeError); this is what the `{}`
      given for a user without a chain meets. A string cuts back to the end of the first
      character of the first occurrence of the trigger text, or refuses `+`; a `None` trigger
      cannot be looked for in a string. Every other value is not iterable. */
  function ChainStep(selected: Json, t: Option<string>): (r: Result<Json>)
    ensures selected.JList? ==> r == Ok(JList(Advance(selected.items, TriggerJson(t))))
    ensures selected.JDict? ==>
      r.Raised? && (if t.Some? && t.value in selected.fields then r.error.AttributeError? else r.error.TypeError?)
    ensures selected.JStr? ==>
      (r.Ok? <==> t.Some? && FindFrom(selected.s, t.value, 0).Some?)
    ensures r.Ok? && selected.JStr? ==> r.value.JStr? && |r.value.s| <= |selected.s| && r.value.s == selected.s[..|r.value.s|]
    ensures !selected.JList? && !selected.JDict? && !selected.JStr? ==> r.Raised? && r.error.TypeError?
  {
    match selected
    case JList(items) => Ok(JList(Advance(items, TriggerJson(t))))
    case JDict(fields) =>
      if t.Some? && t.value in fields then Raised(AttributeError("index"))
      else Raised(TypeError("unsupported operand type(s) for +: 'dict' and 'list'"))
    case JStr(s) =>
      if t.None? then Raised(TypeError("'in <string>' requires string as left operand"))
      else (match FindFrom(s, t.value, 0)
        case None => Raised(TypeError("can only concatenate str (not \"list\") to str"))
        case Some(i) => Ok(JStr(if i + 1 <= |s| then s[..i + 1] else s)))
    case _ => Raised(TypeError("argument of type is not iterable"))
  }

  /** The registry holds only strings, so a message without text is never a trigger. */
  lemma RegistryHoldsStrings()
    ensures forall v :: v in Triggers.Registry() ==> v.PyStr?
    ensures Triggers.PyNone !in Triggers.Registry()
  {
    Triggers.RegistryListing();
    ListingHoldsStrings(Triggers.Registry());
  }

  lemma ListingHoldsStrings(r: seq<Triggers.PyValue>)
    requires r == [Triggers.PyStr("wallet"), Triggers.PyStr("settings"), Triggers.PyStr("p2p"), Triggers.PyStr("stock"),
      Triggers.PyStr("/start"), Triggers.PyStr("BTC"), Triggers.PyStr("TON"), Triggers.PyStr("user_input"),
      Triggers.PyStr("wallet"), Triggers.PyStr("replenish"), Triggers.PyStr("withdraw"), Triggers.PyStr("check"),
      Triggers.PyStr("create_check"), Triggers.PyStr("check_amount"), Triggers.PyStr("bill"),
      Triggers.PyStr("create_bill"), Triggers.PyStr("bill_amount")]
    ensures forall v :: v in r ==> v.PyStr?
  {
  }

  /** `if trigger not in all_triggers: trigger = Triggers.USER_INPUT` (dispatcher.py:112-114):
      the key the response is looked up by, always a registered trigger. */
  function Remap(t: Option<string>): (key: string)
    ensures Triggers.IsTrigger(key)
    ensures t.Some? && Triggers.IsTrigger(t.value) ==> key == t.value
    ensures !(t.Some? && Triggers.IsTrigger(t.value)) ==> key == Triggers.USER_INPUT
  {
    Triggers.RegistryMembership();
    if t.Some? && Triggers.IsTrigger(t.value) then t.value else Triggers.USER_INPUT
  }

  /** A registered trigger is its own key, and remapping a key again changes nothing. */
  lemma RemapIdempotent(t: Option<string>)
    ensures Remap(Some(Remap(t))) == Remap(t)
    ensures Remap(Some(Triggers.START)) == Triggers.START && Remap(Some("TRX")) == Triggers.USER_INPUT
    ensures Remap(None) == Triggers.USER_INPUT
  {
    Triggers.RegistryMembership();
  }

  // ---------------------------------------------------------------------------------------
  // The callback payload (dispatcher.py:148-149)

  /** `s.split(c)[0]`: the text before the first `c`, or all of `s`. */
  function Before(s: string, c: char): (r: string)
    ensures c !in r && |r| <= |s| && r == s[..|r|]
    ensures |r| < |s| ==> s[|r|] == c
    ensures c !in s ==> r == s
    ensures c in s ==> |r| < |s|
  {
    if s == [] then []
    else if s[0] == c then []
    else
      var rest := Before(s[1..], c);
      assert s[..|rest| + 1] == [s[0]] + s[1..][..|rest|];
      [s[0]] + rest
  }

  /** The text after the first `c`. */
  function After(s: string, c: char): (r: string)
    requires c in s
    ensures s == Before(s, c) + [c] + r
  {
    var b := Before(s, c);
    assert s == s[..|b|] + [s[|b|]] + s[|b| + 1..];
    s[|b| + 1..]
  }

  /** Whitespace as `int()` strips it, in the ASCII range. */
  predicate IsSpace(c: char)
  {
    c == ' ' || c == '\t' || c == '\n' || c == '\r' || c == '\U{0B}' || c == '\U{0C}' || '\U{1C}' <= c <= '\U{1F}'
  }

  function TrimStart(s: string): (r: string)
    ensures |r| <= |s| && r == s[|s| - |r|..]
    ensures r == [] || !IsSpace(r[0])
  {
    if s != [] && IsSpace(s[0]) then TrimStart(s[1..]) else s
  }

  function TrimEnd(s: string): (r: string)
    ensures |r| <= |s| && r == s[..|r|]
    ensures r == [] || !IsSpace(r[|r| - 1])
  {
    if s != [] && IsSpace(s[|s| - 1]) then TrimEnd(s[..|s| - 1]) else s
  }

  predicate IsDigit(c: char)
  {
    '0' <= c <= '9'
  }

  /** A decimal numeral as `int()` reads it: digits, with single underscores between them. */
  predicate IsNumeral(b: string)
  {
    |b| > 0 && IsDigit(b[0]) && IsDigit(b[|b| - 1]) &&
    (forall i :: 0 <= i < |b| ==> IsDigit(b[i]) || b[i] == '_') &&
    (forall i :: 0 < i < |b| && b[i] == '_' ==> IsDigit(b[i - 1]))
  }

  /** The value of a run of digits, underscores skipped. */
  function NumeralValue(b: string): nat
  {
    if b == [] then 0
    else if IsDigit(b[|b| - 1]) then NumeralValue(b[..|b| - 1]) * 10 + (b[|b| - 1] as int - '0' as int)
    else NumeralValue(b[..|b| - 1])
  }

  /** `int(s)` in base 10: surrounding whitespace, an optional sign and a numeral; anything
      else raises ValueError. */
  function PyInt(s: string): (r: Result<int>)
    ensures r.Raised? ==> r.error.ValueError?
  {
    var x := TrimEnd(TrimStart(s));
    var negative := |x| > 0 && x[0] == '-';
    var body := if |x| > 0 && (x[0] == '-' || x[0] == '+') then x[1..] else x;
    if IsNumeral(body) then Ok(if negative then -(NumeralValue(body) as int) else NumeralValue(body))
    else Raised(ValueError("invalid literal for int() with base 10"))
  }

  /** `str(n)` for a natural number. */
  function DigitsOf(n: nat): (s: string)
    ensures |s| > 0 && IsDigit(s[0]) && IsDigit(s[|s| - 1])
    ensures forall i :: 0 <= i < |s| ==> IsDigit(s[i])
  {
    if n < 10 then [('0' as int + n) as char]
    else DigitsOf(n / 10) + [('0' as int + n % 10) as char]
  }

  /** `str(p)` for a page number. */
  function IntText(p: int): string
  {
    if p < 0 then "-" + DigitsOf(-p) else DigitsOf(p)
  }

  /** Reading back the digits of a number gives the number. */
  lemma {:induction false} NumeralOfDigits(n: nat)
    ensures IsNumeral(DigitsOf(n)) && NumeralValue(DigitsOf(n)) == n
  {
    var s := DigitsOf(n);
    if n >= 10 {
      NumeralOfDigits(n / 10);
      assert s[..|s| - 1] == DigitsOf(n / 10);
    }
  }

  /** Nothing to trim at either end leaves a string as it is. */
  lemma TrimNothing(s: string)
    requires s != [] && !IsSpace(s[0]) && !IsSpace(s[|s| - 1])
    ensures TrimEnd(TrimStart(s)) == s
  {
  }

  /** `int(str(p)) == p`. */
  lemma PyIntOfText(p: int)
    ensures PyInt(IntText(p)) == Ok(p)
  {
    var m: nat := if p < 0 then -p else p;
    var digits := DigitsOf(m);
    NumeralOfDigits(m);
    var s := IntText(p);
    TrimNothing(s);
    if p < 0 {
      assert s == "-" + digits && s[0] == '-' && s[1..] == digits;
      assert PyInt(s) == Ok(-(NumeralValue(digits) as int));
    } else {
      assert s == digits && IsDigit(s[0]) && s[0] != '-' && s[0] != '+';
      assert PyInt(s) == Ok(NumeralValue(digits));
    }
  }

  /** What `handle_callback_query` takes from the payload: the trigger and the page. A payload
      with a `|` is split there, the trigger being the text before the first `|` and the page
      `int()` of the field after it; one without is the trigger itself, on page 1. A query
      without a payload fails at `'|' in None`. */
  function ParseCallback(data: Option<string>): (r: Result<(string, int)>)
    ensures data.None? ==> r.Raised? && r.error.TypeError?
    ensures data.Some? && '|' !in data.value ==> r == Ok((data.value, 1))
    ensures data.Some? && '|' in data.value ==>
      (r.Ok? <==> PyInt(Before(After(data.value, '|'), '|')).Ok?) &&
      (r.Ok? ==> r.value == (Before(data.value, '|'), PyInt(Before(After(data.value, '|'), '|')).value))
    ensures r.Ok? ==> '|' !in r.value.0
    ensures r.Raised? ==> r.error.TypeError? || r.error.ValueError?
  {
    match data
    case None => Raised(TypeError("argument of type 'NoneType' is not iterable"))
    case Some(d) =>
      if '|' in d then
        match PyInt(Before(After(d, '|'), '|'))
        case Raised(e) => Raised(e)
        case Ok(page) => Ok((Before(d, '|'), page))
      else Ok((d, 1))
  }

  /** `Before` stops at the first separator. */
  lemma {:induction false} BeforeSeparator(a: string, b: string, c: char)
    requires c !in a && (b == [] || b[0] == c)
    ensures Before(a + b, c) == a
  {
    if a != [] {
      assert (a + b)[1..] == a[1..] + b;
      BeforeSeparator(a[1..], b, c);
    }
  }

  /** A button built as `trigger|page`, optionally followed by more `|` fields, parses back
      to that trigger and page. */
  lemma CallbackRoundTrip(t: string, p: int, rest: string)
    requires '|' !in t
    requires rest == [] || rest[0] == '|'
    ensures ParseCallback(Some(t + "|" + IntText(p) + rest)) == Ok((t, p))
  {
    var x := IntText(p) + rest;
    assert t + "|" + IntText(p) + rest == t + "|" + x;
    SplitAtFirst(t, x);
    NoSeparatorInText(p);
    BeforeSeparator(IntText(p), rest, '|');
    PyIntOfText(p);
  }

  /** The first separator splits a text into what precedes and what follows it. */
  lemma SplitAtFirst(t: string, x: string)
    requires '|' !in t
    ensures '|' in t + "|" + x
    ensures Before(t + "|" + x, '|') == t && After(t + "|" + x, '|') == x
  {
    var d := t + "|" + x;
    assert d == t + ("|" + x);
    assert d[|t|] == '|';
    BeforeSeparator(t, "|" + x, '|');
    assert d == t + "|" + After(d, '|');
    assert d[|t| + 1..] == x;
    assert (t + "|" + After(d, '|'))[|t| + 1..] == After(d, '|');
  }

  lemma NoSeparatorInText(p: int)
    ensures '|' !in IntText(p)
  {
    var m: nat := if p < 0 then -p else p;
    var s := DigitsOf(m);
    assert forall i :: 0 <= i < |s| ==> s[i] != '|';
  }

  // ---------------------------------------------------------------------------------------
  // The response (dispatcher.py:77-87, 116-129)

  /** The text sent when the trigger has no response record. */
  const NOT_FOUND := "Ответ не найден"

  /** The context class of a response record that names none. */
  const DEFAULT_CONTEXT := "base.DefaultContext"

  /** A context class found at a dotted path under `context`: the module may lack the class,
      or the class is built with `user=` and `page=` (a class whose constructor takes no
      `page` refuses that with TypeError) and then gives its `ctx()` and, if it defines one,
      its `rm()` markup. */
  datatype ContextClass =
    | ClassMissing
    | Context(takesPage: bool, ctx: map<string, Json>, rm: Option<Option<Keyboard.Markup>>)

  /** What the dispatcher reads but this model does not define: the key `States.LAST_TRIGGER`
      stands for (`None` when the class lacks it), the response records of
      database/response.py by trigger, and the context classes by dotted path (a path that is
      not there names a module that does not import). */
  datatype Env = Env(
    lastTriggerKey: Option<string>,
    responses: map<string, Json>,
    contexts: map<string, ContextClass>)

  /** `context.base.DefaultContext` as context/base.py:1-6 defines it: its constructor takes
      only the user, its context is empty and it has no `rm`. */
  const SHOWN_DEFAULT := Context(false, map[], None)

  /** The text and the keyboard of an answer. */
  datatype Reply = Reply(text: ValidatorBase.Text, markup: Option<Keyboard.Markup>)

  /** A message as it is sent: the chat and the answer. */
  datatype Outgoing = Outgoing(chatId: Json, reply: Reply)

  /** `d.get(key, default)`. */
  function GetOr(d: map<string, Json>, key: string, default: Json): (r: Json)
    ensures key in d ==> r == d[key]
    ensures key !in d ==> r == default
  {
    if key in d then d[key] else default
  }

  /** `get_response(trigger)`: the stored record, `None` when there is none. */
  function ResponseRecord(env: Env, key: string): (r: Json)
    ensures key !in env.responses ==> r == JNull
  {
    if key in env.responses then env.responses[key] else JNull
  }

  /** `_get_context(path)`: the context of the class at the path. */
  function ContextOf(contexts: map<string, ContextClass>, path: string): (r: Result<map<string, Json>>)
    ensures r.Ok? <==> path in contexts && (contexts[path].ClassMissing? || contexts[path].takesPage)
    ensures r.Ok? && contexts[path].ClassMissing? ==> r.value == map[]
    ensures r.Ok? && contexts[path].Context? ==> r.value == contexts[path].ctx
  {
    if path !in contexts then Raised(ModuleNotFoundError(path))
    else match contexts[path]
      case ClassMissing => Ok(map[])
      case Context(takesPage, ctx, _) =>
        if takesPage then Ok(ctx) else Raised(TypeError("__init__() got an unexpected keyword argument 'page'"))
  }

  /** `_get_reply_markup(path)`: the `rm()` of the class at the path, `None` without a class. */
  function MarkupOf(contexts: map<string, ContextClass>, path: string): (r: Result<Option<Keyboard.Markup>>)
    ensures r.Ok? <==>
      path in contexts && (contexts[path].ClassMissing? || (contexts[path].takesPage && contexts[path].rm.Some?))
    ensures r.Ok? && contexts[path].ClassMissing? ==> r.value == None
    ensures r.Ok? && contexts[path].Context? ==> r.value == contexts[path].rm.value
  {
    if path !in contexts then Raised(ModuleNotFoundError(path))
    else match contexts[path]
      case ClassMissing => Ok(None)
      case Context(takesPage, _, rm) =>
        if !takesPage then Raised(TypeError("__init__() got an unexpected keyword argument 'page'"))
        else if rm.None? then Raised(AttributeError("rm"))
        else Ok(rm.value)
  }

  /** A record's answer as it must be when one is sent: a string context path and a string
      template, no truthy `keyboard_id`, a context class that takes the page, the template
      rendered with its context and its markup as the keyboard. */
  predicate AnsweredFrom(env: Env, fields: map<string, Json>, reply: Reply)
  {
    var name := GetOr(fields, "context", JStr(DEFAULT_CONTEXT));
    var template := GetOr(fields, "response", JStr(NOT_FOUND));
    name.JStr? && template.JStr? && !Truthy(GetOr(fields, "keyboard_id", JNull)) &&
    ContextOf(env.contexts, "context." + name.s).Ok? && MarkupOf(env.contexts, "context." + name.s).Ok? &&
    reply == Reply(ValidatorBase.Rendered(template.s, ContextOf(env.contexts, "context." + name.s).value),
                   MarkupOf(env.contexts, "context." + name.s).value)
  }

  /** The answer to a trigger (dispatcher.py:116-129). Without a truthy response record it is
      the fixed "not found" text with no keyboard. With one, the record must be a dict; its
      `context` (a string, `base.DefaultContext` by default) names the context class under
      `context`; its `response` (the "not found" text by default) is rendered with that
      class's context; a truthy `keyboard_id` calls `get_keyboard` with the id and the user,
      which takes a single argument and so always raises TypeError; without a stored
      keyboard the context class's markup is used. */
  function ResponseFor(env: Env, keyboards: seq<Json>, user: Document, key: string): (r: Result<Reply>)
    ensures !Truthy(ResponseRecord(env, key)) ==> r == Ok(Reply(ValidatorBase.Plain(NOT_FOUND), None))
    ensures r.Ok? && Truthy(ResponseRecord(env, key)) ==>
      ResponseRecord(env, key).JDict? && AnsweredFrom(env, ResponseRecord(env, key).fields, r.value)
  {
    var data := ResponseRecord(env, key);
    if !Truthy(data) then Ok(Reply(ValidatorBase.Plain(NOT_FOUND), None))
    else if !data.JDict? then Raised(AttributeError("get"))
    else
      var name := GetOr(data.fields, "context", JStr(DEFAULT_CONTEXT));
      if !name.JStr? then Raised(TypeError("context is not a class path"))
      else
        var path := "context." + name.s;
        match ContextOf(env.contexts, path)
        case Raised(e) => Raised(e)
        case Ok(ctx) =>
          var template := GetOr(data.fields, "response", JStr(NOT_FOUND));
          if !template.JStr? then Raised(AttributeError("format"))
          else
            var keyboardId := GetOr(data.fields, "keyboard_id", JNull);
            var stored := if Truthy(keyboardId) then Keyboard.CallResult(keyboards, [keyboardId, JDict(user)]) else Ok(None);
            match stored
            case Raised(e) => Raised(e)
            case Ok(Some(m)) => Ok(Reply(ValidatorBase.Rendered(template.s, ctx), Some(m)))
            case Ok(None) =>
              match MarkupOf(env.contexts, path)
              case Raised(e) => Raised(e)
              case Ok(m) => Ok(Reply(ValidatorBase.Rendered(template.s, ctx), m))
  }

  /** A response record that names a keyboard is never answered: `get_keyboard` is given
      two arguments and raises TypeError, whatever the stored keyboards. */
  lemma KeyboardIdRaises(env: Env, keyboards: seq<Json>, user: Document, key: string)
    requires ResponseRecord(env, key).JDict? && Truthy(ResponseRecord(env, key))
    requires GetOr(ResponseRecord(env, key).fields, "context", JStr(DEFAULT_CONTEXT)).JStr?
    requires ContextOf(env.contexts, "context." + GetOr(ResponseRecord(env, key).fields, "context", JStr(DEFAULT_CONTEXT)).s).Ok?
    requires GetOr(ResponseRecord(env, key).fields, "response", JStr(NOT_FOUND)).JStr?
    requires Truthy(GetOr(ResponseRecord(env, key).fields, "keyboard_id", JNull))
    ensures ResponseFor(env, keyboards, user, key).Raised?
    ensures ResponseFor(env, keyboards, user, key).error.TypeError?
  {
  }

  /** With context/base.py's `DefaultContext`, a response record that names no context is
      never answered: the class is built with a `page` it does not take. */
  lemma DefaultContextRaises(env: Env, keyboards: seq<Json>, user: Document, key: string)
    requires ResponseRecord(env, key).JDict? && Truthy(ResponseRecord(env, key))
    requires "context" !in ResponseRecord(env, key).fields
    requires "context." + DEFAULT_CONTEXT in env.contexts && env.contexts["context." + DEFAULT_CONTEXT] == SHOWN_DEFAULT
    ensures ResponseFor(env, keyboards, user, key) == Raised(TypeError("__init__() got an unexpected keyword argument 'page'"))
  {
  }

  // ---------------------------------------------------------------------------------------
  // One answer (dispatcher.py:76-133)

  /** `user = await get_user(update)` followed by `user['user_id']`: the stored document of the
      sender. No document is `None`, which cannot be subscripted; a stored user document
      always holds its integer id. */
  function UserOf(docs: Records, update: Users.Update): (r: Result<Document>)
    ensures r.Ok? <==>
      Users.GetUser(docs, update).Ok? && Users.GetUser(docs, update).value.Some? &&
      ValidatorBase.HasUserId(Users.GetUser(docs, update).value.value)
    ensures r.Ok? ==> r.value == Users.GetUser(docs, update).value.value
    ensures Users.GetUser(docs, update) == Ok(None) ==> r.Raised? && r.error.TypeError?
  {
    match Users.GetUser(docs, update)
    case Raised(e) => Raised(e)
    case Ok(None) => Raised(TypeError("'NoneType' object is not subscriptable"))
    case Ok(Some(user)) => if ValidatorBase.HasUserId(user) then Ok(user) else Raised(KeyError("user_id"))
  }

  /** Everything one handler call does: its result (the user, or the exception that escapes),
      the `states` collection it leaves, and the messages it asked Telegram to delete (chat and
      message id), the messages it sent and the callback queries it answered. */
  datatype Outcome = Outcome(
    result: Result<Document>,
    records: Records,
    deleted: seq<(Json, Json)>,
    sent: seq<Outgoing>,
    answered: seq<string>)

  /** The last stored message of a user, deleted when it is truthy. */
  function Deleted(records: Records, uid: int): (d: seq<(Json, Json)>)
    ensures |d| <= 1
    ensures d != [] <==> Truthy(Get(records, uid, Some(LAST_MESSAGE)))
    ensures d != [] ==> d[0] == (JInt(uid), Get(records, uid, Some(LAST_MESSAGE)))
  {
    var last := Get(records, uid, Some(LAST_MESSAGE));
    if Truthy(last) then [(JInt(uid), last)] else []
  }

  /** What `_handle_response` does once the chain is stored: look up and send the answer, and
      store the id of the message Telegram returned (`reply`), if any. */
  function Answer(env: Env, keyboards: seq<Json>, user: Document, uid: int, key: string,
                  records: Records, deleted: seq<(Json, Json)>, reply: Option<int>): (o: Outcome)
    ensures o.deleted == deleted && o.answered == []
    ensures o.result.Ok? <==> ResponseFor(env, keyboards, user, key).Ok?
    ensures o.result.Ok? ==>
      o.result.value == user && o.sent == [Outgoing(JInt(uid), ResponseFor(env, keyboards, user, key).value)]
    ensures o.result.Raised? ==> o.sent == [] && o.records == records
    ensures o.result.Ok? ==>
      o.records == if reply.Some? then Put(records, uid, LAST_MESSAGE, JInt(reply.value)) else records
  {
    match ResponseFor(env, keyboards, user, key)
    case Raised(e) => Outcome(Raised(e), records, deleted, [], [])
    case Ok(answer) =>
      var after := if reply.Some? then Put(records, uid, LAST_MESSAGE, JInt(reply.value)) else records;
      Outcome(Ok(user), after, deleted, [Outgoing(JInt(uid), answer)], [])
  }

  /** What `_handle_response(update, bot, trigger, page)` does: find the user; delete the
      last message if one is stored; store the trigger under `States.LAST_TRIGGER` (an
      AttributeError when the class lacks it); advance the stored chain by the raw trigger
      and store it; then answer under the remapped trigger. The page is only handed to the
      context classes, whose context this model takes not to depend on it. */
  function Respond(docs: Records, records: Records, keyboards: seq<Json>, update: Users.Update,
                   trigger: Option<string>, env: Env, reply: Option<int>): (o: Outcome)
    ensures o.answered == []
  {
    match UserOf(docs, update)
    case Raised(e) => Outcome(Raised(e), records, [], [], [])
    case Ok(user) =>
      var uid := user["user_id"].i;
      Navigate(env, keyboards, user, uid, records, Deleted(records, uid), trigger, reply)
  }

  /** What `_handle_response` does after the old message is deleted: store the trigger under
      `States.LAST_TRIGGER`, advance and store the chain, then answer. */
  function Navigate(env: Env, keyboards: seq<Json>, user: Document, uid: int, records: Records,
                    deleted: seq<(Json, Json)>, trigger: Option<string>, reply: Option<int>): (o: Outcome)
    ensures o.deleted == deleted && o.answered == []
    ensures env.lastTriggerKey.None? ==> o == Outcome(Raised(AttributeError("LAST_TRIGGER")), records, deleted, [], [])
  {
    match env.lastTriggerKey
    case None => Outcome(Raised(AttributeError("LAST_TRIGGER")), records, deleted, [], [])
    case Some(k) =>
      var stored := Put(records, uid, k, TriggerJson(trigger));
      match ChainStep(Get(stored, uid, Some(SELECTED)), trigger)
      case Raised(e) => Outcome(Raised(e), stored, deleted, [], [])
      case Ok(chain) =>
        Answer(env, keyboards, user, uid, Remap(trigger), Put(stored, uid, SELECTED, chain), deleted, reply)
  }

  /** The user id an answer is for. */
  function UidOf(docs: Records, update: Users.Update): int
    requires UserOf(docs, update).Ok?
  {
    UserOf(docs, update).value["user_id"].i
  }

  /** The previous message is deleted exactly when the user is found and a truthy
      last-message id is stored, and it is that message in the user's chat. */
  lemma DeletesOnlyStoredMessage(docs: Records, records: Records, keyboards: seq<Json>, update: Users.Update,
                                 trigger: Option<string>, env: Env, reply: Option<int>)
    ensures var o := Respond(docs, records, keyboards, update, trigger, env, reply);
      |o.deleted| <= 1 &&
      (o.deleted != [] <==> UserOf(docs, update).Ok? && Truthy(Get(records, UidOf(docs, update), Some(LAST_MESSAGE)))) &&
      (o.deleted != [] ==> o.deleted[0] == (JInt(UidOf(docs, update)), Get(records, UidOf(docs, update), Some(LAST_MESSAGE))))
  {
  }

  /** After an answer the stored last-message id is the id Telegram returned; when it
      returned no message the previous id stays (unless `LAST_TRIGGER` stands for the same
      key). */
  lemma StoresSentMessageId(docs: Records, records: Records, keyboards: seq<Json>, update: Users.Update,
                            trigger: Option<string>, env: Env, reply: Option<int>)
    requires Respond(docs, records, keyboards, update, trigger, env, reply).result.Ok?
    ensures UserOf(docs, update).Ok? && env.lastTriggerKey.Some?
    ensures var o := Respond(docs, records, keyboards, update, trigger, env, reply);
      var uid := UidOf(docs, update);
      (reply.Some? ==> Get(o.records, uid, Some(LAST_MESSAGE)) == JInt(reply.value)) &&
      (reply.None? && env.lastTriggerKey.value != LAST_MESSAGE ==>
        Get(o.records, uid, Some(LAST_MESSAGE)) == Get(records, uid, Some(LAST_MESSAGE)))
  {
    var uid := UidOf(docs, update);
    var k := env.lastTriggerKey.value;
    var stored := Put(records, uid, k, TriggerJson(trigger));
    var chain := ChainStep(Get(stored, uid, Some(SELECTED)), trigger).value;
    var before := Put(stored, uid, SELECTED, chain);
    if reply.Some? {
      GetAfterPut(before, uid, LAST_MESSAGE, JInt(reply.value));
    } else if k != LAST_MESSAGE {
      PutKeepsOtherKeys(stored, uid, SELECTED, chain, LAST_MESSAGE);
      PutKeepsOtherKeys(records, uid, k, TriggerJson(trigger), LAST_MESSAGE);
    }
  }

  /** The chain is stored with the raw trigger (free text included) before the trigger is
      remapped, and the answer is the one for the remapped trigger: `user_input` for any text
      that is not a registered trigger. */
  lemma StoresRawChainAnswersRemapped(docs: Records, records: Records, keyboards: seq<Json>, update: Users.Update,
                                      trigger: Option<string>, env: Env, reply: Option<int>)
    requires Respond(docs, records, keyboards, update, trigger, env, reply).result.Ok?
    requires env.lastTriggerKey.Some? && env.lastTriggerKey.value != SELECTED
    ensures UserOf(docs, update).Ok?
    ensures var o := Respond(docs, records, keyboards, update, trigger, env, reply);
      var uid := UidOf(docs, update);
      var user := UserOf(docs, update).value;
      ChainStep(Get(records, uid, Some(SELECTED)), trigger).Ok? &&
      Get(o.records, uid, Some(SELECTED)) == ChainStep(Get(records, uid, Some(SELECTED)), trigger).value &&
      ResponseFor(env, keyboards, user, Remap(trigger)).Ok? &&
      o.sent == [Outgoing(JInt(uid), ResponseFor(env, keyboards, user, Remap(trigger)).value)]
    ensures var o := Respond(docs, records, keyboards, update, trigger, env, reply);
      var k := env.lastTriggerKey.value;
      k != "" && k != LAST_MESSAGE ==> Get(o.records, UidOf(docs, update), Some(k)) == TriggerJson(trigger)
  {
    var uid := UidOf(docs, update);
    var k := env.lastTriggerKey.value;
    var stored := Put(records, uid, k, TriggerJson(trigger));
    PutKeepsOtherKeys(records, uid, k, TriggerJson(trigger), SELECTED);
    var chain := ChainStep(Get(stored, uid, Some(SELECTED)), trigger).value;
    var before := Put(stored, uid, SELECTED, chain);
    GetAfterPut(stored, uid, SELECTED, chain);
    if reply.Some? {
      PutKeepsOtherKeys(before, uid, LAST_MESSAGE, JInt(reply.value), SELECTED);
    }
    if k != "" && k != LAST_MESSAGE {
      GetAfterPut(records, uid, k, TriggerJson(trigger));
      PutKeepsOtherKeys(stored, uid, SELECTED, chain, k);
      if reply.Some? {
        PutKeepsOtherKeys(before, uid, LAST_MESSAGE, JInt(reply.value), k);
      }
    }
  }

  /** A chain list advanced by the raw trigger: with a stored list, free text is appended to
      the stored chain as it was typed. */
  lemma StoredListAdvances(docs: Records, records: Records, keyboards: seq<Json>, update: Users.Update,
                           trigger: Option<string>, env: Env, reply: Option<int>)
    requires Respond(docs, records, keyboards, update, trigger, env, reply).result.Ok?
    requires env.lastTriggerKey.Some? && env.lastTriggerKey.value != SELECTED
    requires UserOf(docs, update).Ok? && Get(records, UidOf(docs, update), Some(SELECTED)).JList?
    ensures var o := Respond(docs, records, keyboards, update, trigger, env, reply);
      var uid := UidOf(docs, update);
      Get(o.records, uid, Some(SELECTED)) == JList(Advance(Get(records, uid, Some(SELECTED)).items, TriggerJson(trigger)))
  {
    StoresRawChainAnswersRemapped(docs, records, keyboards, update, trigger, env, reply);
  }

  /** As the states module defines `States`, with no `LAST_TRIGGER`, every answer to a known
      user stops with AttributeError after the old message is deleted: nothing is stored and
      nothing is sent. */
  lemma MissingLastTriggerRaises(docs: Records, records: Records, keyboards: seq<Json>, update: Users.Update,
                                 trigger: Option<string>, env: Env, reply: Option<int>)
    requires env.lastTriggerKey.None? && UserOf(docs, update).Ok?
    ensures var o := Respond(docs, records, keyboards, update, trigger, env, reply);
      o.result == Raised(AttributeError("LAST_TRIGGER")) && o.records == records && o.sent == [] &&
      o.deleted == Deleted(records, UidOf(docs, update))
  {
  }

  /** A user without a stored chain gets `{}` from `get_state`, which `+ [trigger]` refuses:
      the answer stops with TypeError and nothing is sent. */
  lemma NoChainRaises(docs: Records, records: Records, keyboards: seq<Json>, update: Users.Update,
                      trigger: Option<string>, env: Env, reply: Option<int>)
    requires UserOf(docs, update).Ok? && env.lastTriggerKey.Some? && env.lastTriggerKey.value != SELECTED
    requires Get(records, UidOf(docs, update), Some(SELECTED)) == EmptyDict
    ensures var o := Respond(docs, records, keyboards, update, trigger, env, reply);
      o.result.Raised? && o.result.error.TypeError? && o.sent == []
  {
    var uid := UidOf(docs, update);
    var k := env.lastTriggerKey.value;
    PutKeepsOtherKeys(records, uid, k, TriggerJson(trigger), SELECTED);
  }

  /** An answer for one user changes no other user's state. */
  lemma OtherUsersUntouched(docs: Records, records: Records, keyboards: seq<Json>, update: Users.Update,
                            trigger: Option<string>, env: Env, reply: Option<int>, w: int, key: Option<string>)
    requires UserOf(docs, update).Ok? ==> w != UidOf(docs, update)
    ensures Get(Respond(docs, records, keyboards, update, trigger, env, reply).records, w, key) == Get(records, w, key)
  {
    if UserOf(docs, update).Ok? {
      var uid := UidOf(docs, update);
      NavigateKeepsOtherUsers(env, keyboards, UserOf(docs, update).value, uid, records, Deleted(records, uid),
                              trigger, reply, w, key);
    }
  }

  /** `Navigate` for one user keeps every other user's state. */
  lemma NavigateKeepsOtherUsers(env: Env, keyboards: seq<Json>, user: Document, uid: int, records: Records,
                                deleted: seq<(Json, Json)>, trigger: Option<string>, reply: Option<int>,
                                w: int, key: Option<string>)
    requires w != uid
    ensures Get(Navigate(env, keyboards, user, uid, records, deleted, trigger, reply).records, w, key) == Get(records, w, key)
  {
    var o := Navigate(env, keyboards, user, uid, records, deleted, trigger, reply);
    if env.lastTriggerKey.Some? {
      var k := env.lastTriggerKey.value;
      var stored := Put(records, uid, k, TriggerJson(trigger));
      PutKeepsOtherUsers(records, uid, k, TriggerJson(trigger), w, key);
      var step := ChainStep(Get(stored, uid, Some(SELECTED)), trigger);
      if step.Ok? {
        var before := Put(stored, uid, SELECTED, step.value);
        assert o == Answer(env, keyboards, user, uid, Remap(trigger), before, deleted, reply);
        PutKeepsOtherUsers(stored, uid, SELECTED, step.value, w, key);
        if reply.Some? {
          PutKeepsOtherUsers(before, uid, LAST_MESSAGE, JInt(reply.value), w, key);
        }
      } else {
        assert o.records == stored;
      }
    }
  }

  // ---------------------------------------------------------------------------------------
  // The handlers (dispatcher.py:136-153)

  /** What `handle_message(update, bot)` does: answer the message's text (`None` for a
      message without text); an update without a message has no `.text`. */
  function MessageOutcome(docs: Records, records: Records, keyboards: seq<Json>, update: Users.Update,
                          env: Env, reply: Option<int>): (o: Outcome)
    ensures update.message.None? ==> o == Outcome(Raised(AttributeError("text")), records, [], [], [])
    ensures update.message.Some? ==> o == Respond(docs, records, keyboards, update, update.message.value.text, env, reply)
  {
    if update.message.None? then Outcome(Raised(AttributeError("text")), records, [], [], [])
    else Respond(docs, records, keyboards, update, update.message.value.text, env, reply)
  }

  /** What `handle_callback_query(update, bot)` does: parse the payload, answer its trigger,
      then answer the callback query. A payload whose page is not an integer raises before
      anything is read or written; a failed answer leaves the query unanswered. */
  function CallbackOutcome(docs: Records, records: Records, keyboards: seq<Json>, update: Users.Update,
                           env: Env, reply: Option<int>): (o: Outcome)
    ensures update.callbackQuery.None? ==> o.result.Raised? && o.records == records && o.sent == [] && o.deleted == []
    ensures update.callbackQuery.Some? && ParseCallback(update.callbackQuery.value.data).Raised? ==>
      o == Outcome(Raised(ParseCallback(update.callbackQuery.value.data).error), records, [], [], [])
    ensures update.callbackQuery.Some? && ParseCallback(update.callbackQuery.value.data).Ok? ==>
      var r := Respond(docs, records, keyboards, update, Some(ParseCallback(update.callbackQuery.value.data).value.0), env, reply);
      o.result == r.result && o.records == r.records && o.deleted == r.deleted && o.sent == r.sent &&
      o.answered == (if r.result.Ok? then [update.callbackQuery.value.id] else [])
  {
    match update.callbackQuery
    case None => Outcome(Raised(AttributeError("data")), records, [], [], [])
    case Some(query) =>
      match ParseCallback(query.data)
      case Raised(e) => Outcome(Raised(e), records, [], [], [])
      case Ok((trigger, _)) =>
        var r := Respond(docs, records, keyboards, update, Some(trigger), env, reply);
        if r.result.Ok? then r.(answered := [query.id]) else r
  }

  /** The Telegram calls the handlers make, in order. A failed delete or answer
      (TelegramBadRequest) is swallowed, so each call is only recorded. */
  class Bot {
    var deleted: seq<(Json, Json)>
    var sent: seq<Outgoing>
    var answered: seq<string>

    constructor()
      ensures deleted == [] && sent == [] && answered == []
    {
      deleted, sent, answered := [], [], [];
    }

    /** `delete_last_message(bot, user, last)` (telegram.py:4-8). */
    method DeleteLastMessage(chatId: Json, last: Json)
      modifies this
      ensures deleted == old(deleted) + [(chatId, last)] && sent == old(sent) && answered == old(answered)
    {
      deleted := deleted + [(chatId, last)];
    }

    /** `send_message(bot, chat_id, text, reply_markup)`: the message is sent and Telegram's
        answer, the id of the new message or nothing, is `reply`. */
    method SendMessage(out: Outgoing, reply: Option<int>) returns (message: Option<int>)
      modifies this
      ensures sent == old(sent) + [out] && deleted == old(deleted) && answered == old(answered)
      ensures message == reply
    {
      sent := sent + [out];
      message := reply;
    }

    /** `answer_callback_query(bot, callback_query_id)` (telegram.py:10-14). */
    method AnswerCallbackQuery(queryId: string)
      modifies this
      ensures answered == old(answered) + [queryId] && deleted == old(deleted) && sent == old(sent)
    {
      answered := answered + [queryId];
    }
  }

  /** The text and keyboard of the answer to `key`, built as dispatcher.py:118-129 does:
      the stored keyboard is asked for first, and the context's markup only when there is
      none. */
  method BuildReply(keyboards: Keyboard.KeyboardTable, env: Env, user: Document, key: string)
    returns (r: Result<Reply>)
    ensures r == ResponseFor(env, keyboards.docs, user, key)
  {
    var data := ResponseRecord(env, key);
    if !Truthy(data) {
      return Ok(Reply(ValidatorBase.Plain(NOT_FOUND), None));
    }
    if !data.JDict? {
      return Raised(AttributeError("get"));
    }
    var name := GetOr(data.fields, "context", JStr(DEFAULT_CONTEXT));
    if !name.JStr? {
      return Raised(TypeError("context is not a class path"));
    }
    var path := "context." + name.s;
    var context := ContextOf(env.contexts, path);
    if context.Raised? {
      return Raised(context.error);
    }
    var template := GetOr(data.fields, "response", JStr(NOT_FOUND));
    if !template.JStr? {
      return Raised(AttributeError("format"));
    }
    var keyboardId := GetOr(data.fields, "keyboard_id", JNull);
    var keyboard: Option<Keyboard.Markup> := None;
    if Truthy(keyboardId) {
      var stored := keyboards.Call([keyboardId, JDict(user)]);
      match stored {
        case Raised(e) => return Raised(e);
        case Ok(found) => keyboard := found;
      }
    }
    if keyboard.None? {
      var markup := MarkupOf(env.contexts, path);
      if markup.Raised? {
        return Raised(markup.error);
      }
      keyboard := markup.value;
    }
    return Ok(Reply(ValidatorBase.Rendered(template.s, context.value), keyboard));
  }

  /** `_handle_response(update, bot, trigger, page)` (dispatcher.py:76-133) over the users,
      states and keyboards collections; `reply` is what Telegram answers to the message sent. */
  method HandleResponse(users: Users.UserTable, store: StateStore, keyboards: Keyboard.KeyboardTable, bot: Bot,
                        update: Users.Update, trigger: Option<string>, page: int, env: Env, reply: Option<int>)
    returns (r: Result<Document>)
    modifies store, bot
    ensures var o := Respond(users.docs, old(store.records), keyboards.docs, update, trigger, env, reply);
      r == o.result && store.records == o.records &&
      bot.deleted == old(bot.deleted) + o.deleted && bot.sent == old(bot.sent) + o.sent && bot.answered == old(bot.answered)
  {
    ghost var o := Respond(users.docs, store.records, keyboards.docs, update, trigger, env, reply);
    var found := users.GetUserDoc(update);
    if found.Raised? {
      return Raised(found.error);
    }
    if found.value.None? {
      return Raised(TypeError("'NoneType' object is not subscriptable"));
    }
    var user := found.value.value;
    if !ValidatorBase.HasUserId(user) {
      return Raised(KeyError("user_id"));
    }
    var uid := user["user_id"].i;
    assert o == Navigate(env, keyboards.docs, user, uid, store.records, Deleted(store.records, uid), trigger, reply);
    r := DeleteAndNavigate(store, keyboards, bot, user, uid, trigger, env, reply);
  }

  /** `_handle_response` once the user is known (dispatcher.py:93-133): delete the last message
      sent, if one is stored, then navigate and answer. */
  method DeleteAndNavigate(store: StateStore, keyboards: Keyboard.KeyboardTable, bot: Bot, user: Document, uid: int,
                           trigger: Option<string>, env: Env, reply: Option<int>)
    returns (r: Result<Document>)
    requires ValidatorBase.HasUserId(user) && user["user_id"] == JInt(uid)
    modifies store, bot
    ensures var o := Navigate(env, keyboards.docs, user, uid, old(store.records), Deleted(old(store.records), uid), trigger, reply);
      r == o.result && store.records == o.records &&
      bot.deleted == old(bot.deleted) + o.deleted && bot.sent == old(bot.sent) + o.sent && bot.answered == old(bot.answered)
  {
    ghost var deleted := Deleted(store.records, uid);
    var last := Get(store.records, uid, Some(LAST_MESSAGE));
    if Truthy(last) {
      bot.DeleteLastMessage(user["user_id"], last);
    }
    assert bot.deleted == old(bot.deleted) + deleted;
    r := NavigateAndAnswer(store, keyboards, bot, user, uid, trigger, env, reply, deleted);
  }

  /** `_handle_response` from the `LAST_TRIGGER` write on (dispatcher.py:98-133). */
  method NavigateAndAnswer(store: StateStore, keyboards: Keyboard.KeyboardTable, bot: Bot, user: Document, uid: int,
                           trigger: Option<string>, env: Env, reply: Option<int>, ghost deleted: seq<(Json, Json)>)
    returns (r: Result<Document>)
    requires ValidatorBase.HasUserId(user) && user["user_id"] == JInt(uid)
    modifies store, bot
    ensures var o := Navigate(env, keyboards.docs, user, uid, old(store.records), deleted, trigger, reply);
      r == o.result && store.records == o.records &&
      bot.deleted == old(bot.deleted) && bot.sent == old(bot.sent) + o.sent && bot.answered == old(bot.answered)
  {
    if env.lastTriggerKey.None? {
      return Raised(AttributeError("LAST_TRIGGER"));
    }
    store.SetState(uid, env.lastTriggerKey.value, TriggerJson(trigger));
    var selected := Get(store.records, uid, Some(SELECTED));
    var next := ChainStep(selected, trigger);
    if next.Raised? {
      return Raised(next.error);
    }
    store.SetState(uid, SELECTED, next.value);
    ghost var before := store.records;
    assert Answer(env, keyboards.docs, user, uid, Remap(trigger), before, deleted, reply) ==
           Navigate(env, keyboards.docs, user, uid, old(store.records), deleted, trigger, reply);
    r := AnswerAndRecord(store, keyboards, bot, user, uid, Remap(trigger), env, reply, deleted);
  }

  /** `_handle_response` once the chain is stored (dispatcher.py:116-133): send the answer for
      the key and store the id of the message sent. */
  method AnswerAndRecord(store: StateStore, keyboards: Keyboard.KeyboardTable, bot: Bot, user: Document, uid: int,
                         key: string, env: Env, reply: Option<int>, ghost deleted: seq<(Json, Json)>)
    returns (r: Result<Document>)
    requires ValidatorBase.HasUserId(user) && user["user_id"] == JInt(uid)
    modifies store, bot
    ensures var o := Answer(env, keyboards.docs, user, uid, key, old(store.records), deleted, reply);
      r == o.result && store.records == o.records &&
      bot.deleted == old(bot.deleted) && bot.sent == old(bot.sent) + o.sent && bot.answered == old(bot.answered)
  {
    var answer := BuildReply(keyboards, env, user, key);
    if answer.Raised? {
      return Raised(answer.error);
    }
    var message := bot.SendMessage(Outgoing(user["user_id"], answer.value), reply);
    if message.Some? {
      store.SetState(uid, LAST_MESSAGE, JInt(message.value));
    }
    return Ok(user);
  }

  /** `handle_message(update, bot)` (dispatcher.py:137-141). */
  method HandleMessage(users: Users.UserTable, store: StateStore, keyboards: Keyboard.KeyboardTable, bot: Bot,
                       update: Users.Update, env: Env, reply: Option<int>)
    returns (r: Result<Document>)
    modifies store, bot
    ensures var o := MessageOutcome(users.docs, old(store.records), keyboards.docs, update, env, reply);
      r == o.result && store.records == o.records &&
      bot.deleted == old(bot.deleted) + o.deleted && bot.sent == old(bot.sent) + o.sent &&
      bot.answered == old(bot.answered) + o.answered
  {
    if update.message.None? {
      return Raised(AttributeError("text"));
    }
    r := HandleResponse(users, store, keyboards, bot, update, update.message.value.text, 1, env, reply);
  }

  /** `handle_callback_query(update, bot)` (dispatcher.py:145-153). */
  method HandleCallbackQuery(users: Users.UserTable, store: StateStore, keyboards: Keyboard.KeyboardTable, bot: Bot,
                             update: Users.Update, env: Env, reply: Option<int>)
    returns (r: Result<Document>)
    modifies store, bot
    ensures var o := CallbackOutcome(users.docs, old(store.records), keyboards.docs, update, env, reply);
      r == o.result && store.records == o.records &&
      bot.deleted == old(bot.deleted) + o.deleted && bot.sent == old(bot.sent) + o.sent &&
      bot.answered == old(bot.answered) + o.answered
  {
    if update.callbackQuery.None? {
      return Raised(AttributeError("data"));
    }
    var query := update.callbackQuery.value;
    var parsed := ParseCallback(query.data);
    if parsed.Raised? {
      return Raised(parsed.error);
    }
    var (trigger, page) := parsed.value;
    r := HandleResponse(users, store, keyboards, bot, update, Some(trigger), page, env, reply);
    if r.Raised? {
      return;
    }
    bot.AnswerCallbackQuery(query.id);
  }

  // ---------------------------------------------------------------------------------------
  // Routing (dispatcher.py:21-23, 42-43, 63-73)

  /** The update classes handlers are registered for. */
  datatype UpdateKind = MessageKind | CallbackQueryKind

  /** The handler functions of this module. */
  datatype Handler = MessageHandler | CallbackQueryHandler

  /** The handler `process_update` picks: by the class of the message if there is one, else
      by the class of the callback query, else none. */
  function Choose(handlers: map<UpdateKind, Handler>, update: Users.Update): (h: Option<Handler>)
    ensures update.message.Some? ==> (h.Some? <==> MessageKind in handlers) && (h.Some? ==> h.value == handlers[MessageKind])
    ensures update.message.None? && update.callbackQuery.Some? ==>
      (h.Some? <==> CallbackQueryKind in handlers) && (h.Some? ==> h.value == handlers[CallbackQueryKind])
    ensures update.message.None? && update.callbackQuery.None? ==> h.None?
  {
    if update.message.Some? then (if MessageKind in handlers then Some(handlers[MessageKind]) else None)
    else if update.callbackQuery.Some? then (if CallbackQueryKind in handlers then Some(handlers[CallbackQueryKind]) else None)
    else None
  }

  /** What a registered handler does with an update. */
  function HandlerOutcome(h: Handler, docs: Records, records: Records, keyboards: seq<Json>, update: Users.Update,
                          env: Env, reply: Option<int>): Outcome
  {
    match h
    case MessageHandler => MessageOutcome(docs, records, keyboards, update, env, reply)
    case CallbackQueryHandler => CallbackOutcome(docs, records, keyboards, update, env, reply)
  }

  /** The users collection after `update_or_create_user(update)` has completed. */
  function AfterUserWrite(docs: Records, update: Users.Update): Records
    requires Users.UserWrite(update).Ok?
  {
    match Users.UserWrite(update).value
    case None => docs
    case Some((id, fields)) => Upsert(docs, id, fields)
  }

  /** With the two registrations main.py makes, every message goes to `handle_message`, every
      callback query to `handle_callback_query`, and every other update to no handler. */
  lemma MainRouting(update: Users.Update)
    ensures var handlers := map[][MessageKind := MessageHandler][CallbackQueryKind := CallbackQueryHandler];
      (update.message.Some? ==> Choose(handlers, update) == Some(MessageHandler)) &&
      (update.message.None? && update.callbackQuery.Some? ==> Choose(handlers, update) == Some(CallbackQueryHandler)) &&
      (update.message.None? && update.callbackQuery.None? ==> Choose(handlers, update) == None)
  {
  }

  /** A routed message is answered from its own text: after the sender is recorded, the
      message's text is the trigger. */
  lemma RoutedMessageAnswersText(docs: Records, records: Records, keyboards: seq<Json>, update: Users.Update,
                                 env: Env, reply: Option<int>)
    requires update.message.Some?
    ensures HandlerOutcome(MessageHandler, docs, records, keyboards, update, env, reply) ==
      Respond(docs, records, keyboards, update, update.message.value.text, env, reply)
  {
  }

  /** `CustomDispatcher`: the handlers by update class. */
  class CustomDispatcher {
    var handlers: map<UpdateKind, Handler>

    constructor()
      ensures handlers == map[]
    {
      handlers := map[];
    }

    /** `register_handler(update_type, handler)` (dispatcher.py:42-43): a later registration
        for the same class replaces the earlier one. */
    method RegisterHandler(kind: UpdateKind, handler: Handler)
      modifies this
      ensures handlers == old(handlers)[kind := handler]
    {
      handlers := handlers[kind := handler];
    }

    /** `process_update(update, bot)` (dispatcher.py:63-73): without a handler nothing
        happens; with one, the sender is recorded first, and the handler runs against the
        updated users collection unless recording raised. */
    method ProcessUpdate(users: Users.UserTable, store: StateStore, keyboards: Keyboard.KeyboardTable, bot: Bot,
                         update: Users.Update, env: Env, reply: Option<int>)
      returns (r: Result<()>)
      modifies users, store, bot
      ensures Choose(handlers, update).None? ==>
        r == Ok(()) && users.docs == old(users.docs) && store.records == old(store.records) &&
        bot.deleted == old(bot.deleted) && bot.sent == old(bot.sent) && bot.answered == old(bot.answered)
      ensures Choose(handlers, update).Some? && Users.UserWrite(update).Raised? ==>
        r.Raised? && users.docs == old(users.docs) && store.records == old(store.records) &&
        bot.deleted == old(bot.deleted) && bot.sent == old(bot.sent) && bot.answered == old(bot.answered)
      ensures Choose(handlers, update).Some? && Users.UserWrite(update).Ok? ==>
        users.docs == AfterUserWrite(old(users.docs), update) &&
        var o := HandlerOutcome(Choose(handlers, update).value, users.docs, old(store.records), keyboards.docs, update, env, reply);
        r == (if o.result.Ok? then Ok(()) else Raised(o.result.error)) && store.records == o.records &&
        bot.deleted == old(bot.deleted) + o.deleted && bot.sent == old(bot.sent) + o.sent &&
        bot.answered == old(bot.answered) + o.answered
    {
      var handler := Choose(handlers, update);
      if handler.None? {
        return Ok(());
      }
      var recorded := users.UpdateOrCreateUser(update);
      if recorded.Raised? {
        return Raised(recorded.error);
      }
      var answered: Result<Document>;
      match handler.value {
        case MessageHandler =>
          answered := HandleMessage(users, store, keyboards, bot, update, env, reply);
        case CallbackQueryHandler =>
          answered := HandleCallbackQuery(users, store, keyboards, bot, update, env, reply);
      }
      r := if answered.Ok? then Ok(()) else Raised(answered.error);
    }
  }
}
