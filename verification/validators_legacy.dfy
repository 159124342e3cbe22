/** context/validators/wallet.py: the older check and bill amount validators. They roll back
    the raw input like the validators of validators/wallet.py, but compare the amount with fixed
    bounds, answer with a fixed balance, rate, currency and bot name, and place no hold. */
module LegacyValidators {
  import opened Wrappers
  import opened Json
  import opened State
  import opened Decimals
  import opened Vouchers
  import opened ValidatorBase
  import Utils
  import Checks
  import Bills
  import WalletValidators

  /** The record a legacy validator creates. */
  datatype Kind = CheckKind | BillKind

  /** `min_check_amount = 0.001`, a float: the bound compared with is the binary64 value
      nearest to 0.001, which lies just above it. */
  const LEGACY_MIN: real := Float0_001
  /** `max_check_amount = 2`. */
  const LEGACY_MAX: int := 2
  /** The balance shown in the error text, `Decimal('1.777')`. */
  const LEGACY_BALANCE: real := 1.777
  /** The fiat amount, currency and bot name shown on success. */
  const LEGACY_FIAT: int := 777
  const LEGACY_CURRENCY := "RUB"
  const LEGACY_BOT_NAME := "Crawler_Robot"

  /** The name of the record in the template arguments: `check` or `bill`. */
  function Noun(kind: Kind): string
  {
    match kind
    case CheckKind => "check"
    case BillKind => "bill"
  }

  function Status(kind: Kind): string
  {
    match kind
    case CheckKind => Checks.NEW
    case BillKind => Bills.NEW
  }

  /** The error text: the currency, the fixed balance and the fixed bounds. */
  function ErrorText(kind: Kind, crypto: string): (t: Text)
    ensures t.Rendered? && "crypto" in t.args && "balance" in t.args
    ensures t.args["crypto"] == JStr(crypto) && t.args["balance"] == JNum(LEGACY_BALANCE)
  {
    var template := if kind == CheckKind then WalletValidators.CHECK_ERROR_TEMPLATE else WalletValidators.BILL_ERROR_TEMPLATE;
    WalletValidators.AmountErrorText(template, Noun(kind), crypto, JNum(LEGACY_BALANCE), JNum(LEGACY_MIN), JInt(LEGACY_MAX))
  }

  /** The success text: the record and the fixed fiat amount, currency and bot name. */
  function SuccessText(kind: Kind, record: Voucher): (t: Text)
    ensures t.Rendered? && t.args.Keys == {"fiat_amount", Noun(kind), "wallet_currency", "bot_name"}
    ensures t.args[Noun(kind)] == ToJson(record) && t.args["fiat_amount"] == JInt(LEGACY_FIAT)
  {
    match kind
    case CheckKind =>
      Rendered(WalletValidators.CHECK_TEMPLATE,
               map["fiat_amount" := JInt(LEGACY_FIAT), "check" := ToJson(record),
                   "wallet_currency" := JStr(LEGACY_CURRENCY), "bot_name" := JStr(LEGACY_BOT_NAME)])
    case BillKind =>
      Rendered(WalletValidators.BILL_TEMPLATE,
               map["fiat_amount" := JInt(LEGACY_FIAT), "bill" := ToJson(record),
                   "wallet_currency" := JStr(LEGACY_CURRENCY), "bot_name" := JStr(LEGACY_BOT_NAME)])
  }

  /** `min_amount < value < max_amount`, both bounds excluded. */
  predicate InBounds(x: real)
  {
    LEGACY_MIN < x < LEGACY_MAX as real
  }

  /** `validate(value)` of either legacy validator (context/validators/wallet.py:7-39 and
      41-73): `parsed` is `Decimal(value)`, `None` when that raises InvalidOperation. An empty
      chain makes the rollback raise IndexError; a chain of one element is rolled back and then
      `selected[-2]` raises IndexError. */
  function LegacyAmount(ctx: Context, kind: Kind, parsed: Option<Decimal>, uuid: seq<Utils.Byte>, now: int): Verdict
    requires HasUserId(ctx.user) && |uuid| == 16
  {
    var s := ctx.selected;
    if s == [] then Halt(IndexError, [])
    else
      var w := WalletValidators.RolledBack(ctx);
      if |s| < 2 then Halt(IndexError, w)
      else
        var crypto := s[|s| - 2];
        if parsed.None? || !InBounds(parsed.value.value) then Done(ErrorText(kind, crypto), w)
        else
          var record := NewVoucher(ctx.user, parsed.value, crypto, now, Status(kind), Utils.UniqueCode(uuid));
          Verdict(Ok(SuccessText(kind, record)), w + [Commit(s, parsed.value.text)], Some(record), None, None)
  }

  /** A record is created if and only if the chain names a currency and the amount lies
      strictly between 0.001 and 2. The record is new, of the currency `selected[-2]`, for the
      amount; the chain is committed with the amount after the rollback, and the answer is the
      success text. Nothing is ever held or sent. */
  lemma LegacyAccepts(ctx: Context, kind: Kind, parsed: Option<Decimal>, uuid: seq<Utils.Byte>, now: int)
    requires HasUserId(ctx.user) && |uuid| == 16
    ensures var v := LegacyAmount(ctx, kind, parsed, uuid, now);
      v.record.Some? <==> |ctx.selected| >= 2 && parsed.Some? && InBounds(parsed.value.value)
    ensures var v := LegacyAmount(ctx, kind, parsed, uuid, now);
      v.record.Some? ==>
        var s := ctx.selected;
        v.record.value.status == Status(kind) && v.record.value.amount == parsed.value &&
        v.record.value.cryptocurrency == s[|s| - 2] && v.record.value.userId == UserIdOf(ctx.user) &&
        v.writes == WalletValidators.RolledBack(ctx) + [Commit(s, parsed.value.text)] &&
        v.result == Ok(SuccessText(kind, v.record.value))
    ensures LegacyAmount(ctx, kind, parsed, uuid, now).hold.None?
    ensures LegacyAmount(ctx, kind, parsed, uuid, now).transfer.None?
  {
    var s := ctx.selected;
    if |s| >= 2 && parsed.Some? && InBounds(parsed.value.value) {
      LegacyAccepted(ctx, kind, parsed.value, uuid, now);
    }
  }

  /** The verdict of an amount within the bounds, once the chain names a currency. */
  lemma LegacyAccepted(ctx: Context, kind: Kind, d: Decimal, uuid: seq<Utils.Byte>, now: int)
    requires HasUserId(ctx.user) && |uuid| == 16 && |ctx.selected| >= 2 && InBounds(d.value)
    ensures var s := ctx.selected;
      var record := NewVoucher(ctx.user, d, s[|s| - 2], now, Status(kind), Utils.UniqueCode(uuid));
      LegacyAmount(ctx, kind, Some(d), uuid, now) ==
        Verdict(Ok(SuccessText(kind, record)), WalletValidators.RolledBack(ctx) + [Commit(s, d.text)], Some(record), None, None)
  {
  }

  /** Input that is no number, or a number outside the bounds, is answered with the error text
      showing the currency and the balance 1.777, and only the rollback is written. */
  lemma LegacyRejects(ctx: Context, kind: Kind, parsed: Option<Decimal>, uuid: seq<Utils.Byte>, now: int)
    requires HasUserId(ctx.user) && |uuid| == 16 && |ctx.selected| >= 2
    requires parsed.None? || !InBounds(parsed.value.value)
    ensures var s := ctx.selected;
      LegacyAmount(ctx, kind, parsed, uuid, now) == Done(ErrorText(kind, s[|s| - 2]), WalletValidators.RolledBack(ctx))
  {
  }

  /** The rollback comes first: whatever the input, it is the first thing written, and a chain
      too short to name a currency fails only after the rollback is stored. */
  lemma LegacyRollbackFirst(ctx: Context, kind: Kind, parsed: Option<Decimal>, uuid: seq<Utils.Byte>, now: int)
    requires HasUserId(ctx.user) && |uuid| == 16 && ctx.selected != []
    ensures var w := WalletValidators.RolledBack(ctx);
      var v := LegacyAmount(ctx, kind, parsed, uuid, now);
      |w| <= |v.writes| && v.writes[..|w|] == w
    ensures |ctx.selected| < 2 ==>
      LegacyAmount(ctx, kind, parsed, uuid, now) == Halt(IndexError, WalletValidators.RolledBack(ctx))
  {
    var s := ctx.selected;
    var w := WalletValidators.RolledBack(ctx);
    var v := LegacyAmount(ctx, kind, parsed, uuid, now);
    if |s| < 2 || parsed.None? || !InBounds(parsed.value.value) {
      assert v.writes == w;
      assert w[..|w|] == w;
    } else {
      var c := Commit(s, parsed.value.text);
      assert v.writes == w + [c];
      assert (w + [c])[..|w|] == w;
    }
  }

  /** The decimal amounts 0.001 and 2 are both refused: 2 is a bound, and the float 0.001 is
      above the decimal 0.001. */
  lemma LegacyEdgesRefused(ctx: Context, kind: Kind, d: Decimal, uuid: seq<Utils.Byte>, now: int)
    requires HasUserId(ctx.user) && |uuid| == 16
    requires d.value == 0.001 || d.value == 2.0
    ensures LegacyAmount(ctx, kind, Some(d), uuid, now).record.None?
  {
    FloatLiteralsAboveDecimals();
  }

  /** The check and the bill validator accept exactly the same inputs. */
  lemma LegacySameBounds(ctx: Context, parsed: Option<Decimal>, uuid: seq<Utils.Byte>, now: int)
    requires HasUserId(ctx.user) && |uuid| == 16
    ensures LegacyAmount(ctx, CheckKind, parsed, uuid, now).record.Some? <==>
            LegacyAmount(ctx, BillKind, parsed, uuid, now).record.Some?
    ensures LegacyAmount(ctx, CheckKind, parsed, uuid, now).writes == LegacyAmount(ctx, BillKind, parsed, uuid, now).writes
  {
  }

  /** `CheckAmountValidator` of context/validators/wallet.py. */
  class CheckAmountValidator {
    const context: Context

    constructor(context: Context)
      ensures this.context == context
    {
      this.context := context;
    }

    /** `validate(value)` (context/validators/wallet.py:8-39) against the stores it writes. */
    method Validate(store: StateStore, checks: VoucherTable, parsed: Option<Decimal>, uuid: seq<Utils.Byte>, now: int)
      returns (r: Result<Text>)
      requires HasUserId(context.user) && |uuid| == 16
      modifies store, checks
      ensures var v := LegacyAmount(context, CheckKind, parsed, uuid, now);
        r == v.result &&
        store.records == AfterWrites(old(store.records), ContextUserId(context.user), v.writes) &&
        checks.rows == old(checks.rows) + Inserted(v.record)
    {
      ghost var v := LegacyAmount(context, CheckKind, parsed, uuid, now);
      var selected := context.selected;
      var cleared := ClearChain(context, store, selected);
      if cleared.Raised? {
        return Raised(cleared.error);
      }
      ghost var w := WalletValidators.RolledBack(context);
      assert store.records == AfterWrites(old(store.records), ContextUserId(context.user), w);
      var minCheckAmount := LEGACY_MIN;
      var maxCheckAmount := LEGACY_MAX;
      var crypto := FromEnd(selected, 2);
      if crypto.Raised? {
        assert v == Halt(IndexError, w);
        return Raised(crypto.error);
      }
      var text := WalletValidators.AmountErrorText(WalletValidators.CHECK_ERROR_TEMPLATE, "check", crypto.value,
                                                   JNum(LEGACY_BALANCE), JNum(minCheckAmount), JInt(maxCheckAmount));
      if parsed.Some? && minCheckAmount < parsed.value.value < maxCheckAmount as real {
        var value := parsed.value;
        assert v.writes == w + [Commit(selected, value.text)];
        UpdateChain(context, store, selected, value.text);
        AfterWritesAppend(old(store.records), ContextUserId(context.user), w, [Commit(selected, value.text)]);
        var check := Checks.CreateCheck(checks, context.user, value, crypto.value, uuid, now);
        text := Rendered(WalletValidators.CHECK_TEMPLATE,
                         map["fiat_amount" := JInt(LEGACY_FIAT), "check" := ToJson(check),
                             "wallet_currency" := JStr(LEGACY_CURRENCY), "bot_name" := JStr(LEGACY_BOT_NAME)]);
        assert v == Verdict(Ok(text), w + [Commit(selected, value.text)], Some(check), None, None);
      } else {
        assert v == Done(text, w);
      }
      return Ok(text);
    }
  }

  /** `BillAmountValidator` of context/validators/wallet.py. */
  class BillAmountValidator {
    const context: Context

    constructor(context: Context)
      ensures this.context == context
    {
      this.context := context;
    }

    /** `validate(value)` (context/validators/wallet.py:42-73) against the stores it writes. */
    method Validate(store: StateStore, bills: VoucherTable, parsed: Option<Decimal>, uuid: seq<Utils.Byte>, now: int)
      returns (r: Result<Text>)
      requires HasUserId(context.user) && |uuid| == 16
      modifies store, bills
      ensures var v := LegacyAmount(context, BillKind, parsed, uuid, now);
        r == v.result &&
        store.records == AfterWrites(old(store.records), ContextUserId(context.user), v.writes) &&
        bills.rows == old(bills.rows) + Inserted(v.record)
    {
      ghost var v := LegacyAmount(context, BillKind, parsed, uuid, now);
      var selected := context.selected;
      var cleared := ClearChain(context, store, selected);
      if cleared.Raised? {
        return Raised(cleared.error);
      }
      ghost var w := WalletValidators.RolledBack(context);
      assert store.records == AfterWrites(old(store.records), ContextUserId(context.user), w);
      var minBillAmount := LEGACY_MIN;
      var maxBillAmount := LEGACY_MAX;
      var crypto := FromEnd(selected, 2);
      if crypto.Raised? {
        assert v == Halt(IndexError, w);
        return Raised(crypto.error);
      }
      var text := WalletValidators.AmountErrorText(WalletValidators.BILL_ERROR_TEMPLATE, "bill", crypto.value,
                                                   JNum(LEGACY_BALANCE), JNum(minBillAmount), JInt(maxBillAmount));
      if parsed.Some? && minBillAmount < parsed.value.value < maxBillAmount as real {
        var value := parsed.value;
        assert v.writes == w + [Commit(selected, value.text)];
        UpdateChain(context, store, selected, value.text);
        AfterWritesAppend(old(store.records), ContextUserId(context.user), w, [Commit(selected, value.text)]);
        var bill := Bills.CreateBill(bills, context.user, value, crypto.value, uuid, now);
        text := Rendered(WalletValidators.BILL_TEMPLATE,
                         map["fiat_amount" := JInt(LEGACY_FIAT), "bill" := ToJson(bill),
                             "wallet_currency" := JStr(LEGACY_CURRENCY), "bot_name" := JStr(LEGACY_BOT_NAME)]);
        assert v == Verdict(Ok(text), w + [Commit(selected, value.text)], Some(bill), None, None);
      } else {
        assert v == Done(text, w);
      }
      return Ok(text);
    }
  }
}
