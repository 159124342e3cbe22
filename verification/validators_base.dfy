/** validators/base.py: what every input validator shares. A validator receives the user's
    navigation chain (the breadcrumb list stored under `selected_values`) as its context read
    it, with the raw input as its last element, and rolls back or commits that chain. */
module ValidatorBase {
  import opened Wrappers
  import opened Json
  import opened State
  import Triggers
  import Vouchers
  import Users

  /** The parts of a validator's context that the validators read: the user document,
      `await context.selected()`, the trigger class whose registry decides what counts as a
      trigger (`context.triggers`, given by its MRO), `await context.bot_settings` and
      `await context.get_rates()`. */
  datatype Context = Context(
    user: map<string, Json>,
    selected: seq<string>,
    triggersMro: seq<Triggers.PyClass>,
    botSettings: Json,
    rates: map<string, real>)

  /** The context's user is a stored user document, which always has an integer `user_id`. */
  predicate HasUserId(user: map<string, Json>)
  {
    "user_id" in user && user["user_id"].JInt?
  }

  /** `context.user['user_id']`. */
  function ContextUserId(user: map<string, Json>): int
    requires HasUserId(user)
  {
    user["user_id"].i
  }

  /** What a template is given to render: its path and arguments. Rendering is not modelled;
      text made without a template is `Plain`. */
  datatype Text = Rendered(template: string, args: map<string, Json>) | Plain(s: string)

  /** A chain as it is stored: a list of strings. */
  function ChainJson(chain: seq<string>): (r: Json)
    ensures r.JList? && |r.items| == |chain|
    ensures forall i :: 0 <= i < |chain| ==> r.items[i] == JStr(chain[i])
  {
    JList(seq(|chain|, i requires 0 <= i < |chain| => JStr(chain[i])))
  }

  /** Different chains are stored as different values. */
  lemma ChainJsonInjective(a: seq<string>, b: seq<string>)
    requires ChainJson(a) == ChainJson(b)
    ensures a == b
  {
    assert |a| == |b|;
    forall i | 0 <= i < |a|
      ensures a[i] == b[i]
    {
      assert ChainJson(a).items[i] == ChainJson(b).items[i];
    }
  }

  /** `selected[-k]`: element `k` from the end, IndexError for a shorter chain. */
  function FromEnd(selected: seq<string>, k: nat): (r: Result<string>)
    requires k >= 1
    ensures r.Ok? <==> |selected| >= k
    ensures r.Ok? ==> r.value == selected[|selected| - k]
    ensures r.Raised? ==> r.error == IndexError
  {
    if |selected| < k then Raised(IndexError) else Ok(selected[|selected| - k])
  }

  /** What `clear_chain(selected)` writes, given the trigger registry: the chain without its
      last element when that element is not a registered trigger, nothing when it is;
      IndexError for an empty chain. */
  function Rollback(selected: seq<string>, registry: seq<Triggers.PyValue>): (r: Result<Option<seq<string>>>)
    ensures r.Raised? <==> selected == []
    ensures r.Raised? ==> r.error == IndexError
    ensures r.Ok? ==> (r.value.Some? <==> Triggers.PyStr(selected[|selected| - 1]) !in registry)
    ensures r.Ok? && r.value.Some? ==>
      |r.value.value| == |selected| - 1 && r.value.value + [selected[|selected| - 1]] == selected
  {
    if selected == [] then Raised(IndexError)
    else if Triggers.PyStr(selected[|selected| - 1]) !in registry then
      assert selected[..|selected| - 1] + [selected[|selected| - 1]] == selected;
      Ok(Some(selected[..|selected| - 1]))
    else Ok(None)
  }

  /** The chains a completed `clear_chain` wrote: none or one. */
  function Written(rollback: Result<Option<seq<string>>>): (w: seq<seq<string>>)
    ensures |w| <= 1
    ensures |w| == 1 <==> rollback.Ok? && rollback.value.Some?
    ensures |w| == 1 ==> w[0] == rollback.value.value
  {
    if rollback.Ok? && rollback.value.Some? then [rollback.value.value] else []
  }

  /** What `update_chain(selected, value)` writes: `selected[:-1] + [str(value)]`, which for an
      empty chain is the value alone. */
  function Commit(selected: seq<string>, value: string): (r: seq<string>)
    ensures |selected| > 0 ==> |r| == |selected| && r[..|r| - 1] == selected[..|selected| - 1]
    ensures |selected| == 0 ==> r == [value]
    ensures |r| > 0 && r[|r| - 1] == value
  {
    (if selected == [] then [] else selected[..|selected| - 1]) + [value]
  }

  /** A commit after a rollback is the same chain as a commit alone: the rollback removes the
      same last element that the commit replaces. */
  lemma CommitAfterRollback(selected: seq<string>, registry: seq<Triggers.PyValue>, value: string)
    requires Rollback(selected, registry).Ok? && Rollback(selected, registry).value.Some?
    ensures var rolled := Rollback(selected, registry).value.value;
      Commit(selected, value) == rolled + [value]
  {
  }

  /** The store after the chains in `writes` are written in turn under `selected_values`. */
  function AfterWrites(records: Records, u: UserId, writes: seq<seq<string>>): Records
    decreases |writes|
  {
    if writes == [] then records else AfterWrites(Put(records, u, SELECTED, ChainJson(writes[0])), u, writes[1..])
  }

  /** Writing one batch of chains and then another is writing both in order. */
  lemma {:induction false} AfterWritesAppend(records: Records, u: UserId, w1: seq<seq<string>>, w2: seq<seq<string>>)
    ensures AfterWrites(AfterWrites(records, u, w1), u, w2) == AfterWrites(records, u, w1 + w2)
    decreases |w1|
  {
    if w1 == [] {
      assert w1 + w2 == w2;
    } else {
      assert (w1 + w2)[1..] == w1[1..] + w2;
      AfterWritesAppend(Put(records, u, SELECTED, ChainJson(w1[0])), u, w1[1..], w2);
    }
  }

  /** After a non-empty batch of writes the user's chain is the last chain written. */
  lemma {:induction false} AfterWritesLast(records: Records, u: UserId, writes: seq<seq<string>>)
    requires writes != []
    ensures Get(AfterWrites(records, u, writes), u, Some(SELECTED)) == ChainJson(writes[|writes| - 1])
    decreases |writes|
  {
    var next := Put(records, u, SELECTED, ChainJson(writes[0]));
    if |writes| == 1 {
      GetAfterPut(records, u, SELECTED, ChainJson(writes[0]));
    } else {
      AfterWritesLast(next, u, writes[1..]);
    }
  }

  /** Writes for one user leave every other user's state as it was. */
  lemma {:induction false} AfterWritesOthers(records: Records, u: UserId, writes: seq<seq<string>>, w: UserId, k: Option<string>)
    requires w != u
    ensures Get(AfterWrites(records, u, writes), w, k) == Get(records, w, k)
    decreases |writes|
  {
    if writes != [] {
      var next := Put(records, u, SELECTED, ChainJson(writes[0]));
      PutKeepsOtherUsers(records, u, SELECTED, ChainJson(writes[0]), w, k);
      AfterWritesOthers(next, u, writes[1..], w, k);
    }
  }

  /** A commit overwrites any rollback written before it: the store ends as if the commit had
      been the only write. */
  lemma CommitOverwritesRollback(records: Records, u: UserId, rollback: seq<seq<string>>, commit: seq<string>)
    requires |rollback| <= 1
    ensures AfterWrites(records, u, rollback + [commit]) == AfterWrites(records, u, [commit])
  {
    if |rollback| == 1 {
      var first := Put(records, u, SELECTED, ChainJson(rollback[0]));
      assert (rollback + [commit])[1..] == [commit];
      PutLastWriteWins(records, u, SELECTED, ChainJson(rollback[0]), ChainJson(commit));
      assert AfterWrites(first, u, [commit]) == Put(first, u, SELECTED, ChainJson(commit));
      assert AfterWrites(records, u, [commit]) == Put(records, u, SELECTED, ChainJson(commit));
    } else {
      assert rollback + [commit] == [commit];
    }
  }

  /** A bill or check that a validator created, a hold it placed, coins it sent. */
  datatype Hold = Hold(userId: int, crypto: string, amount: real)
  datatype Transfer = Transfer(crypto: string, userId: int, toAddress: string, amount: real)

  /** Everything one call of a validator does, in the order it happens: the result (the text
      or the exception that escapes), the chains written under `selected_values`, the record
      inserted, the hold added and the coins sent. */
  datatype Verdict = Verdict(
    result: Result<Text>,
    writes: seq<seq<string>>,
    record: Option<Vouchers.Voucher>,
    hold: Option<Hold>,
    transfer: Option<Transfer>)

  /** The records a validator inserted, as a list. */
  function Inserted(record: Option<Vouchers.Voucher>): (r: seq<Vouchers.Voucher>)
    ensures |r| == if record.Some? then 1 else 0
    ensures record.Some? ==> r[0] == record.value
  {
    if record.Some? then [record.value] else []
  }

  /** The holds after a validator placed `hold`, if it did. */
  function HoldsAfter(holds: map<(int, string), real>, hold: Option<Hold>): map<(int, string), real>
  {
    if hold.Some? then Users.Added(holds, hold.value.userId, hold.value.crypto, hold.value.amount) else holds
  }

  /** A call that stops with `e` after writing `writes` and nothing else. */
  function Halt(e: PyError, writes: seq<seq<string>>): Verdict
  {
    Verdict(Raised(e), writes, None, None, None)
  }

  /** A call that returns `text` after writing `writes` and nothing else. */
  function Done(text: Text, writes: seq<seq<string>>): Verdict
  {
    Verdict(Ok(text), writes, None, None, None)
  }

  /** `a <= b`, or `a < b` when strict. */
  predicate Below(a: real, b: real, strict: bool)
  {
    if strict then a < b else a <= b
  }

  /** Python's chained comparison `lo <= x <= hi` (or with `<`) of a Decimal against two stored
      bounds: a bound that is no number raises TypeError when it is compared, and the upper
      bound is not looked at once the lower comparison fails. */
  function Within(lo: Json, x: real, hi: Json, strict: bool): (r: Result<bool>)
    ensures r == Ok(true) <==>
      Number(lo).Some? && Number(hi).Some? && Below(Number(lo).value, x, strict) && Below(x, Number(hi).value, strict)
    ensures Number(lo).Some? && Number(hi).Some? ==> r.Ok?
    ensures r.Raised? ==> r.error.TypeError?
  {
    match Number(lo)
    case None => Raised(TypeError("comparison with a value that is not a number"))
    case Some(a) =>
      if !Below(a, x, strict) then Ok(false)
      else match Number(hi)
        case None => Raised(TypeError("comparison with a value that is not a number"))
        case Some(b) => Ok(Below(x, b, strict))
  }

  /** `clear_chain(selected)` (validators/base.py:9-12): drop the last element of the stored
      chain when it is not a trigger of the context's trigger class. */
  method ClearChain(context: Context, store: StateStore, selected: seq<string>) returns (r: Result<()>)
    requires HasUserId(context.user)
    modifies store
    ensures var rollback := Rollback(selected, Triggers.Collected(context.triggersMro));
      (r.Raised? <==> rollback.Raised?) && (r.Raised? ==> r.error == IndexError) &&
      store.records == AfterWrites(old(store.records), ContextUserId(context.user), Written(rollback))
  {
    if selected == [] {
      return Raised(IndexError);
    }
    var last := selected[|selected| - 1];
    var triggers := Triggers.GetAllTriggers(context.triggersMro);
    if Triggers.PyStr(last) !in triggers {
      store.SetState(ContextUserId(context.user), SELECTED, ChainJson(selected[..|selected| - 1]));
    }
    return Ok(());
  }

  /** `update_chain(selected, value)` (validators/base.py:14-15): store the snapshot with its
      last element replaced by the value. The snapshot, not the stored chain, is the base, so
      an earlier rollback is overwritten. */
  method UpdateChain(context: Context, store: StateStore, selected: seq<string>, value: string)
    requires HasUserId(context.user)
    modifies store
    ensures store.records == AfterWrites(old(store.records), ContextUserId(context.user), [Commit(selected, value)])
  {
    store.SetState(ContextUserId(context.user), SELECTED, ChainJson(selected[..if selected == [] then 0 else |selected| - 1] + [value]));
    assert selected[..if selected == [] then 0 else |selected| - 1] + [value] == Commit(selected, value);
  }

  /** `DefaultValidator`: a validator over a context. */
  class DefaultValidator {
    const context: Context

    constructor(context: Context)
      ensures this.context == context
    {
      this.context := context;
    }

    /** `validate(value)` (validators/base.py:17-18): accepts any input, answers with it, and
        writes nothing. */
    method Validate(value: string) returns (text: string)
      ensures text == "Can validate: " + value
      ensures |text| == |value| + 14 && text[14..] == value
    {
      text := "Can validate: " + value;
    }
  }
}
