/** validators/wallet.py: the validators of the amounts and addresses a user types while
    creating a check or a bill or withdrawing coins. Each first rolls back the raw input from the
    stored chain, then either answers with an error text or commits the canonical value to the
    chain and acts on it. */
module WalletValidators {
  import opened Wrappers
  import opened Json
  import opened State
  import opened Decimals
  import opened Vouchers
  import opened ValidatorBase
  import Utils
  import Users
  import Checks
  import Bills
  import Mixins

  const CHECK_ERROR_TEMPLATE := "errors/create_check_error.html"
  const CHECK_TEMPLATE := "wallet/check.html"
  const BILL_ERROR_TEMPLATE := "errors/create_bill_error.html"
  const BILL_TEMPLATE := "wallet/bill.html"
  const WITHDRAW_AMOUNT_TEMPLATE := "wallet/withdraw_amount.html"
  const WITHDRAW_ERROR_TEMPLATE := "errors/withdraw_error.html"
  const INVALID_ADDRESS := "Неправильный адрес кошелька"
  const COINS_SENT := "Монеты успешно отправлены"

  /** `bot_settings['limits'][crypto][bound]`. */
  function Limit(ctx: Context, crypto: string, bound: string): Result<Json>
  {
    Path(ctx.botSettings, ["limits", crypto, bound])
  }

  /** `context.user['profile']['wallet'][crypto]`. */
  function Wallet(ctx: Context, crypto: string): Result<Json>
  {
    Path(JDict(ctx.user), ["profile", "wallet", crypto])
  }

  /** `context.user['profile']['wallet'][crypto]['balance']`. */
  function Balance(ctx: Context, crypto: string): Result<Json>
  {
    Path(JDict(ctx.user), ["profile", "wallet", crypto, "balance"])
  }

  /** The chain writes of the rollback with which every validator starts. */
  function RolledBack(ctx: Context): seq<seq<string>>
  {
    Written(Rollback(ctx.selected, Triggers.Collected(ctx.triggersMro)))
  }

  /** The check or bill amount validators get as far as parsing the input: the chain names a
      currency, its limits are numbers and the user has a balance in it. */
  predicate AmountReady(ctx: Context)
  {
    |ctx.selected| >= 2 &&
    var crypto := ctx.selected[|ctx.selected| - 2];
    Limit(ctx, crypto, "min").Ok? && Limit(ctx, crypto, "max").Ok? && Balance(ctx, crypto).Ok? &&
    Number(Limit(ctx, crypto, "min").value).Some? && Number(Limit(ctx, crypto, "max").value).Some?
  }

  /** The currency of a check or bill: `selected[-2]`. */
  function AmountCrypto(ctx: Context): string
    requires |ctx.selected| >= 2
  {
    ctx.selected[|ctx.selected| - 2]
  }

  function MinAmount(ctx: Context): real
    requires AmountReady(ctx)
  {
    Number(Limit(ctx, AmountCrypto(ctx), "min").value).value
  }

  function MaxAmount(ctx: Context): real
    requires AmountReady(ctx)
  {
    Number(Limit(ctx, AmountCrypto(ctx), "max").value).value
  }

  /** The error text of the check and bill validators. */
  function AmountErrorText(template: string, prefix: string, crypto: string, balance: Json, lo: Json, hi: Json): Text
  {
    Rendered(template, map["crypto" := JStr(crypto), "balance" := balance,
                           "min_" + prefix + "_amount" := lo, "max_" + prefix + "_amount" := hi])
  }

  /** What the check and bill validators read before they parse the input: the currency's
      limits and the user's balance in it, and the error text made from them. */
  datatype AmountForm = AmountForm(lo: Json, hi: Json, text: Text)

  /** The lookups of the check and bill validators, in their order; the first missing key
      raises. */
  function AmountLookups(ctx: Context, crypto: string, template: string, prefix: string): (r: Result<AmountForm>)
    ensures r.Ok? <==> Limit(ctx, crypto, "min").Ok? && Limit(ctx, crypto, "max").Ok? && Balance(ctx, crypto).Ok?
    ensures r.Ok? ==>
      r.value.lo == Limit(ctx, crypto, "min").value && r.value.hi == Limit(ctx, crypto, "max").value &&
      r.value.text == AmountErrorText(template, prefix, crypto, Balance(ctx, crypto).value, r.value.lo, r.value.hi)
  {
    match Limit(ctx, crypto, "min")
    case Raised(e) => Raised(e)
    case Ok(lo) =>
      match Limit(ctx, crypto, "max")
      case Raised(e) => Raised(e)
      case Ok(hi) =>
        match Balance(ctx, crypto)
        case Raised(e) => Raised(e)
        case Ok(balance) => Ok(AmountForm(lo, hi, AmountErrorText(template, prefix, crypto, balance, lo, hi)))
  }

  /** `CheckAmountValidator.validate(value)` (validators/wallet.py:13-54): `parsed` is
      `Decimal(value)`, `None` when that raises InvalidOperation; `fees` holds the stored
      network fee of each currency; `botName` is `BOT_NAME`; `uuid` and `now` make the new
      check's code and date. */
  function CheckAmount(ctx: Context, parsed: Option<Decimal>, fees: map<string, real>, botName: string,
                       uuid: seq<Utils.Byte>, now: int): Verdict
    requires HasUserId(ctx.user) && |uuid| == 16
  {
    var s := ctx.selected;
    if |s| < 2 then Halt(IndexError, [])
    else
      var crypto := s[|s| - 2];
      var w := RolledBack(ctx);
      match AmountLookups(ctx, crypto, CHECK_ERROR_TEMPLATE, "check")
      case Raised(e) => Halt(e, w)
      case Ok(form) => CheckParsed(ctx, crypto, form, parsed, fees, botName, uuid, now, w)
  }

  /** The part of `CheckAmount` after the lookups: the error text for input that is no number
      or lies outside the limits, otherwise the check is stored and `CheckIssued` goes on. */
  function CheckParsed(ctx: Context, crypto: string, form: AmountForm, parsed: Option<Decimal>, fees: map<string, real>,
                       botName: string, uuid: seq<Utils.Byte>, now: int, w: seq<seq<string>>): Verdict
    requires HasUserId(ctx.user) && |uuid| == 16 && |ctx.selected| >= 2
  {
    if parsed.None? then Done(form.text, w)
    else
      match Within(form.lo, parsed.value.value, form.hi, false)
      case Raised(e) => Halt(e, w)
      case Ok(accepted) =>
        if !accepted then Done(form.text, w)
        else
          var check := NewVoucher(ctx.user, parsed.value, crypto, now, Checks.NEW, Utils.UniqueCode(uuid));
          CheckIssued(ctx, parsed.value, crypto, Mixins.FiatValue(parsed.value.value, Mixins.RateOf(ctx.rates, crypto)), fees,
                      botName, check, w + [Commit(ctx.selected, parsed.value.text)])
  }

  /** The part of `CheckAmount` after the check is stored: the hold of the amount plus the
      network fee (a currency without a fee raises TypeError), then the success text with the
      amount's value in fiat. */
  function CheckIssued(ctx: Context, value: Decimal, crypto: string, fiat: real, fees: map<string, real>,
                       botName: string, check: Voucher, writes: seq<seq<string>>): (v: Verdict)
    requires HasUserId(ctx.user)
    ensures v.writes == writes && v.record == Some(check) && v.transfer.None?
    ensures v.hold.Some? <==> crypto in fees
    ensures crypto in fees ==> v.hold == Some(Hold(ContextUserId(ctx.user), crypto, value.value + fees[crypto]))
  {
    if crypto !in fees then
      Verdict(Raised(TypeError("'NoneType' object is not subscriptable")), writes, Some(check), None, None)
    else
      var hold := Hold(ContextUserId(ctx.user), crypto, value.value + fees[crypto]);
      Verdict(CheckAnswer(ctx, fiat, botName, check), writes, Some(check), Some(hold), None)
  }

  /** The answer once the hold is placed: the check template with the check, its value in fiat,
      the user's wallet currency (a KeyError when the profile lacks it) and the bot's name. */
  function CheckAnswer(ctx: Context, fiat: real, botName: string, check: Voucher): (r: Result<Text>)
    ensures r.Ok? <==> Path(JDict(ctx.user), ["profile", "wallet_currency"]).Ok?
    ensures r.Ok? ==>
      (r.value.Rendered? && r.value.template == CHECK_TEMPLATE &&
       "check" in r.value.args && "fiat_amount" in r.value.args &&
       r.value.args["check"] == ToJson(check) && r.value.args["fiat_amount"] == JNum(fiat))
  {
    match Path(JDict(ctx.user), ["profile", "wallet_currency"])
    case Raised(e) => Raised(e)
    case Ok(currency) =>
      var args := map["fiat_amount" := JNum(fiat),
                      "check" := ToJson(check), "wallet_currency" := currency,
                      "bot_name" := JStr(botName)];
      Ok(Rendered(CHECK_TEMPLATE, args))
  }

  /** A check is created exactly when the amount lies within the currency's limits, bounds
      included. On acceptance the chain ends with the amount, the check is new, of the chain's
      currency and for the amount. Otherwise only the rollback is written and the error text is
      the answer. */
  lemma CheckAmountAccepts(ctx: Context, parsed: Option<Decimal>, fees: map<string, real>, botName: string,
                           uuid: seq<Utils.Byte>, now: int)
    requires HasUserId(ctx.user) && |uuid| == 16 && AmountReady(ctx)
    ensures var v := CheckAmount(ctx, parsed, fees, botName, uuid, now);
      v.record.Some? <==> parsed.Some? && MinAmount(ctx) <= parsed.value.value <= MaxAmount(ctx)
    ensures var v := CheckAmount(ctx, parsed, fees, botName, uuid, now);
      v.record.None? ==>
        v.result.Ok? && v.writes == RolledBack(ctx) && v.hold.None? &&
        v.result.value == AmountErrorText(CHECK_ERROR_TEMPLATE, "check", AmountCrypto(ctx), Balance(ctx, AmountCrypto(ctx)).value,
                                          Limit(ctx, AmountCrypto(ctx), "min").value, Limit(ctx, AmountCrypto(ctx), "max").value)
    ensures var v := CheckAmount(ctx, parsed, fees, botName, uuid, now);
      v.record.Some? ==>
        v.writes == RolledBack(ctx) + [Commit(ctx.selected, parsed.value.text)] &&
        v.record.value.status == Checks.NEW && v.record.value.amount == parsed.value &&
        v.record.value.cryptocurrency == AmountCrypto(ctx) && v.record.value.userId == ctx.user["user_id"]
  {
    if parsed.Some? && MinAmount(ctx) <= parsed.value.value <= MaxAmount(ctx) {
      CheckAmountIssues(ctx, parsed.value, fees, botName, uuid, now);
    } else {
      CheckAmountRefuses(ctx, parsed, fees, botName, uuid, now);
    }
  }

  /** An amount within the limits creates the check, commits the chain and holds the amount
      plus the fee. */
  lemma CheckAmountIssues(ctx: Context, d: Decimal, fees: map<string, real>, botName: string,
                          uuid: seq<Utils.Byte>, now: int)
    requires HasUserId(ctx.user) && |uuid| == 16 && AmountReady(ctx)
    requires MinAmount(ctx) <= d.value <= MaxAmount(ctx)
    ensures var crypto := AmountCrypto(ctx);
      var v := CheckAmount(ctx, Some(d), fees, botName, uuid, now);
      v.record == Some(NewVoucher(ctx.user, d, crypto, now, Checks.NEW, Utils.UniqueCode(uuid))) &&
      v.record.value.status == Checks.NEW && v.record.value.amount == d &&
      v.record.value.cryptocurrency == crypto && v.record.value.userId == ctx.user["user_id"] &&
      v.writes == RolledBack(ctx) + [Commit(ctx.selected, d.text)] &&
      (AmountCrypto(ctx) in fees ==>
        v.hold == Some(Hold(ContextUserId(ctx.user), AmountCrypto(ctx), d.value + fees[AmountCrypto(ctx)])))
  {
    var crypto := AmountCrypto(ctx);
    var w := RolledBack(ctx);
    var form := AmountLookups(ctx, crypto, CHECK_ERROR_TEMPLATE, "check").value;
    var v := CheckParsed(ctx, crypto, form, Some(d), fees, botName, uuid, now, w);
    assert CheckAmount(ctx, Some(d), fees, botName, uuid, now) == v;
    assert Within(form.lo, d.value, form.hi, false) == Ok(true);
    var check := NewVoucher(ctx.user, d, crypto, now, Checks.NEW, Utils.UniqueCode(uuid));
    assert v == CheckIssued(ctx, d, crypto, Mixins.FiatValue(d.value, Mixins.RateOf(ctx.rates, crypto)), fees,
                            botName, check, w + [Commit(ctx.selected, d.text)]);
  }

  /** Input that is no number, or a number outside the limits, gets the error text and only
      the rollback. */
  lemma CheckAmountRefuses(ctx: Context, parsed: Option<Decimal>, fees: map<string, real>, botName: string,
                           uuid: seq<Utils.Byte>, now: int)
    requires HasUserId(ctx.user) && |uuid| == 16 && AmountReady(ctx)
    requires parsed.None? || !(MinAmount(ctx) <= parsed.value.value <= MaxAmount(ctx))
    ensures var v := CheckAmount(ctx, parsed, fees, botName, uuid, now);
      v.record.None? && v.result.Ok? && v.writes == RolledBack(ctx) && v.hold.None? &&
      v.result.value == AmountLookups(ctx, AmountCrypto(ctx), CHECK_ERROR_TEMPLATE, "check").value.text
  {
    if parsed.Some? {
      var form := AmountLookups(ctx, AmountCrypto(ctx), CHECK_ERROR_TEMPLATE, "check").value;
      assert Within(form.lo, parsed.value.value, form.hi, false) == Ok(false);
    }
  }

  /** Input that is no number and a number out of bounds get the same answer and effects. */
  lemma CheckAmountSameRejection(ctx: Context, outside: Decimal, fees: map<string, real>, botName: string,
                                 uuid: seq<Utils.Byte>, now: int)
    requires HasUserId(ctx.user) && |uuid| == 16 && AmountReady(ctx)
    requires !(MinAmount(ctx) <= outside.value <= MaxAmount(ctx))
    ensures CheckAmount(ctx, None, fees, botName, uuid, now) == CheckAmount(ctx, Some(outside), fees, botName, uuid, now)
  {
  }

  /** `BillAmountValidator.validate(value)` (validators/wallet.py:57-94), like the check
      validator but with both bounds excluded and no hold. An accepted bill is inserted, and
      then `bill.amount` on the inserted dictionary raises AttributeError. */
  function BillAmount(ctx: Context, parsed: Option<Decimal>, uuid: seq<Utils.Byte>, now: int): Verdict
    requires HasUserId(ctx.user) && |uuid| == 16
  {
    var s := ctx.selected;
    if |s| < 2 then Halt(IndexError, [])
    else
      var crypto := s[|s| - 2];
      var w := RolledBack(ctx);
      match AmountLookups(ctx, crypto, BILL_ERROR_TEMPLATE, "bill")
      case Raised(e) => Halt(e, w)
      case Ok(form) =>
        if parsed.None? then Done(form.text, w)
        else
          match Within(form.lo, parsed.value.value, form.hi, true)
          case Raised(e) => Halt(e, w)
          case Ok(accepted) =>
            if !accepted then Done(form.text, w)
            else
              var bill := NewVoucher(ctx.user, parsed.value, crypto, now, Bills.NEW, Utils.UniqueCode(uuid));
              Verdict(Raised(AttributeError("amount")), w + [Commit(s, parsed.value.text)], Some(bill), None, None)
  }

  /** A bill is created exactly when the amount lies strictly between the currency's limits;
      either bound itself is refused. An accepted bill is new, of the chain's currency and for
      the amount, the chain ends with the amount, and the call then raises AttributeError.
      Otherwise only the rollback is written and the error text is the answer. */
  lemma BillAmountAccepts(ctx: Context, parsed: Option<Decimal>, uuid: seq<Utils.Byte>, now: int)
    requires HasUserId(ctx.user) && |uuid| == 16 && AmountReady(ctx)
    ensures var v := BillAmount(ctx, parsed, uuid, now);
      v.record.Some? <==> parsed.Some? && MinAmount(ctx) < parsed.value.value < MaxAmount(ctx)
    ensures var v := BillAmount(ctx, parsed, uuid, now);
      v.record.None? ==>
        v.result.Ok? && v.writes == RolledBack(ctx) &&
        v.result.value == AmountErrorText(BILL_ERROR_TEMPLATE, "bill", AmountCrypto(ctx), Balance(ctx, AmountCrypto(ctx)).value,
                                          Limit(ctx, AmountCrypto(ctx), "min").value, Limit(ctx, AmountCrypto(ctx), "max").value)
    ensures var v := BillAmount(ctx, parsed, uuid, now);
      v.record.Some? ==>
        v.result == Raised(AttributeError("amount")) &&
        v.writes == RolledBack(ctx) + [Commit(ctx.selected, parsed.value.text)] &&
        v.record.value.status == Bills.NEW && v.record.value.amount == parsed.value &&
        v.record.value.cryptocurrency == AmountCrypto(ctx)
    ensures BillAmount(ctx, parsed, uuid, now).hold.None? && BillAmount(ctx, parsed, uuid, now).transfer.None?
  {
  }

  /** The bounds themselves: accepted for a check, refused for a bill. */
  lemma BoundsDiffer(ctx: Context, atBound: Decimal, fees: map<string, real>, botName: string,
                     uuid: seq<Utils.Byte>, now: int)
    requires HasUserId(ctx.user) && |uuid| == 16 && AmountReady(ctx)
    requires MinAmount(ctx) <= MaxAmount(ctx)
    requires atBound.value == MinAmount(ctx) || atBound.value == MaxAmount(ctx)
    ensures CheckAmount(ctx, Some(atBound), fees, botName, uuid, now).record.Some?
    ensures BillAmount(ctx, Some(atBound), uuid, now).record.None?
  {
    CheckAmountAccepts(ctx, Some(atBound), fees, botName, uuid, now);
    BillAmountAccepts(ctx, Some(atBound), uuid, now);
  }

  /** `WithdrawAddressValidator.validate(value)` (validators/wallet.py:97-115): `addressValid`
      is what the currency unit's `validate_address(value)` answers. */
  function WithdrawAddress(ctx: Context, value: string, addressValid: bool): Verdict
    requires HasUserId(ctx.user)
  {
    var s := ctx.selected;
    if |s| < 2 then Halt(IndexError, [])
    else
      var crypto := s[|s| - 2];
      var w := RolledBack(ctx);
      match Utils.GetUnit(crypto)
      case Raised(e) => Halt(e, w)
      case Ok(_) =>
        match Wallet(ctx, crypto)
        case Raised(e) => Halt(e, w)
        case Ok(wallet) =>
          if !addressValid then Done(Plain(INVALID_ADDRESS), w)
          else
            var writes := w + [Commit(s, value)];
            match Index(wallet, "balance")
            case Raised(e) => Halt(e, writes)
            case Ok(balance) =>
              Done(Rendered(WITHDRAW_AMOUNT_TEMPLATE, map["crypto" := JStr(crypto), "available_balance" := balance]), writes)
  }

  /** The withdraw address validator gets as far as checking the address. */
  predicate AddressReady(ctx: Context)
  {
    |ctx.selected| >= 2 && AmountCrypto(ctx) in Utils.CryptoSettings && Wallet(ctx, AmountCrypto(ctx)).Ok?
  }

  /** A valid address is committed to the chain, which then ends with it, and is answered with
      the amount prompt showing the wallet's balance; the commit happens before the balance is
      read, so a wallet without `balance` raises KeyError after it. An invalid address leaves
      only the rollback and is answered with the fixed error text. */
  lemma WithdrawAddressCommits(ctx: Context, value: string, addressValid: bool)
    requires HasUserId(ctx.user) && AddressReady(ctx)
    ensures var v := WithdrawAddress(ctx, value, addressValid);
      addressValid <==> v.writes == RolledBack(ctx) + [Commit(ctx.selected, value)]
    ensures var v := WithdrawAddress(ctx, value, addressValid);
      !addressValid ==> v == Done(Plain(INVALID_ADDRESS), RolledBack(ctx))
    ensures var v := WithdrawAddress(ctx, value, addressValid);
      var balance := Index(Wallet(ctx, AmountCrypto(ctx)).value, "balance");
      addressValid && balance.Ok? ==>
        v == Done(Rendered(WITHDRAW_AMOUNT_TEMPLATE,
                           map["crypto" := JStr(AmountCrypto(ctx)), "available_balance" := balance.value]),
                  RolledBack(ctx) + [Commit(ctx.selected, value)])
    ensures var v := WithdrawAddress(ctx, value, addressValid);
      var wallet := Wallet(ctx, AmountCrypto(ctx)).value;
      addressValid && wallet.JDict? && "balance" !in wallet.fields ==>
        v == Halt(KeyError("balance"), RolledBack(ctx) + [Commit(ctx.selected, value)])
    ensures var v := WithdrawAddress(ctx, value, addressValid);
      v.record.None? && v.hold.None? && v.transfer.None?
  {
    var v := WithdrawAddress(ctx, value, addressValid);
    if !addressValid {
      assert |RolledBack(ctx)| < |RolledBack(ctx) + [Commit(ctx.selected, value)]|;
    }
  }

  /** `WithdrawAmountValidator.validate(value)` (validators/wallet.py:118-140): the currency is
      `selected[-3]` and the destination address `selected[-2]`. `balanceCheck` is what the
      unit's `has_sufficient_balance` gives (whether the balance suffices, and the fee), or the
      exception it raises; `sendOutcome` is the transaction hash `send_coins` returns, or its
      exception. */
  function WithdrawAmount(ctx: Context, parsed: Option<Decimal>, balanceCheck: Result<(bool, Json)>,
                          sendOutcome: Result<string>): Verdict
    requires HasUserId(ctx.user)
  {
    var s := ctx.selected;
    if |s| < 3 then Halt(IndexError, [])
    else
      var crypto := s[|s| - 3];
      match Wallet(ctx, crypto)
      case Raised(e) => Halt(e, [])
      case Ok(wallet) =>
        var w := RolledBack(ctx);
        match Utils.GetUnit(crypto)
        case Raised(e) => Halt(e, w)
        case Ok(_) =>
          match Index(wallet, "address")
          case Raised(e) => Halt(e, w)
          case Ok(_) =>
            match balanceCheck
            case Raised(e) => Halt(e, w)
            case Ok((hasBalance, fee)) =>
              var text := Rendered(WITHDRAW_ERROR_TEMPLATE, map["fee" := fee, "crypto" := JStr(crypto)]);
              if parsed.None? then Done(text, w)
              else
                match Limit(ctx, crypto, "min")
                case Raised(e) => Halt(e, w)
                case Ok(lo) =>
                  match Limit(ctx, crypto, "max")
                  case Raised(e) => Halt(e, w)
                  case Ok(hi) =>
                    if !hasBalance then Done(text, w)
                    else
                      match Within(lo, parsed.value.value, hi, false)
                      case Raised(e) => Halt(e, w)
                      case Ok(accepted) =>
                        if !accepted then Done(text, w)
                        else
                          var writes := w + [Commit(s, parsed.value.text)];
                          var transfer := Transfer(crypto, ContextUserId(ctx.user), s[|s| - 2], parsed.value.value);
                          match sendOutcome
                          case Raised(e) => Verdict(Raised(e), writes, None, None, Some(transfer))
                          case Ok(txHash) => Verdict(Ok(Plain(COINS_SENT + "\n" + txHash)), writes, None, None, Some(transfer))
  }

  /** The withdraw amount validator gets as far as asking whether the balance suffices. */
  predicate WithdrawReady(ctx: Context)
  {
    |ctx.selected| >= 3 &&
    var crypto := ctx.selected[|ctx.selected| - 3];
    crypto in Utils.CryptoSettings && Wallet(ctx, crypto).Ok? && Index(Wallet(ctx, crypto).value, "address").Ok?
  }

  /** ... and then as far as comparing the amount with the limits, which are numbers. */
  predicate WithdrawLimitsReady(ctx: Context)
  {
    WithdrawReady(ctx) &&
    var crypto := ctx.selected[|ctx.selected| - 3];
    Limit(ctx, crypto, "min").Ok? && Limit(ctx, crypto, "max").Ok? &&
    Number(Limit(ctx, crypto, "min").value).Some? && Number(Limit(ctx, crypto, "max").value).Some?
  }

  /** Coins are sent exactly when the balance suffices and the amount lies within the
      currency's limits, bounds included; they go from the user, in the currency `selected[-3]`,
      to the address `selected[-2]`, and the chain ends with the amount. */
  lemma WithdrawAmountSends(ctx: Context, parsed: Option<Decimal>, hasBalance: bool, fee: Json, sendOutcome: Result<string>)
    requires HasUserId(ctx.user) && WithdrawLimitsReady(ctx)
    ensures var s := ctx.selected;
      var crypto := s[|s| - 3];
      var v := WithdrawAmount(ctx, parsed, Ok((hasBalance, fee)), sendOutcome);
      (v.transfer.Some? <==>
        hasBalance && parsed.Some? &&
        Number(Limit(ctx, crypto, "min").value).value <= parsed.value.value <= Number(Limit(ctx, crypto, "max").value).value) &&
      (v.transfer.Some? ==>
        v.transfer.value == Transfer(crypto, ContextUserId(ctx.user), s[|s| - 2], parsed.value.value) &&
        v.writes == RolledBack(ctx) + [Commit(s, parsed.value.text)] &&
        v.result == (if sendOutcome.Ok? then Ok(Plain(COINS_SENT + "\n" + sendOutcome.value)) else Raised(sendOutcome.error))) &&
      (v.transfer.None? ==>
        v == Done(Rendered(WITHDRAW_ERROR_TEMPLATE, map["fee" := fee, "crypto" := JStr(crypto)]), RolledBack(ctx)))
  {
  }

  /** The balance check runs after the rollback and outside the `try`: when it raises, as it
      does for input that is no amount, the rollback stands and the exception escapes. */
  lemma WithdrawRollbackStands(ctx: Context, parsed: Option<Decimal>, e: PyError, sendOutcome: Result<string>)
    requires HasUserId(ctx.user) && WithdrawReady(ctx)
    ensures WithdrawAmount(ctx, parsed, Raised(e), sendOutcome) == Halt(e, RolledBack(ctx))
  {
  }

  /** The coin transfers made through the currency units' `send_coins`. */
  class CoinNetwork {
    var sent: seq<Transfer>

    constructor()
      ensures sent == []
    {
      sent := [];
    }

    /** `unit.send_coins(user=..., to_address=..., amount=...)`: the transfer is made and
        `outcome` is the transaction hash or the exception. */
    method SendCoins(transfer: Transfer, outcome: Result<string>) returns (r: Result<string>)
      modifies this
      ensures sent == old(sent) + [transfer] && r == outcome
    {
      sent := sent + [transfer];
      r := outcome;
    }
  }

  /** The transfers a validator made, as a list. */
  function Sent(transfer: Option<Transfer>): seq<Transfer>
  {
    if transfer.Some? then [transfer.value] else []
  }

  class CheckAmountValidator {
    const context: Context

    constructor(context: Context)
      ensures this.context == context
    {
      this.context := context;
    }

    /** `validate(value)` (validators/wallet.py:13-54) against the stores it writes. */
    method Validate(store: StateStore, checks: VoucherTable, holds: Users.HoldLedger, fees: map<string, real>,
                    botName: string, parsed: Option<Decimal>, uuid: seq<Utils.Byte>, now: int) returns (r: Result<Text>)
      requires HasUserId(context.user) && |uuid| == 16
      modifies store, checks, holds
      ensures var v := CheckAmount(context, parsed, fees, botName, uuid, now);
        r == v.result &&
        store.records == AfterWrites(old(store.records), ContextUserId(context.user), v.writes) &&
        checks.rows == old(checks.rows) + Inserted(v.record) &&
        holds.holds == HoldsAfter(old(holds.holds), v.hold)
    {
      ghost var v := CheckAmount(context, parsed, fees, botName, uuid, now);
      var selected := context.selected;
      if |selected| < 2 {
        return Raised(IndexError);
      }
      var crypto := selected[|selected| - 2];
      var _ := ClearChain(context, store, selected);
      ghost var w := RolledBack(context);
      assert store.records == AfterWrites(old(store.records), ContextUserId(context.user), w);
      var lo := Limit(context, crypto, "min");
      if lo.Raised? {
        assert v == Halt(lo.error, w);
        return Raised(lo.error);
      }
      var hi := Limit(context, crypto, "max");
      if hi.Raised? {
        assert v == Halt(hi.error, w);
        return Raised(hi.error);
      }
      var balance := Balance(context, crypto);
      if balance.Raised? {
        assert v == Halt(balance.error, w);
        return Raised(balance.error);
      }
      var text := AmountErrorText(CHECK_ERROR_TEMPLATE, "check", crypto, balance.value, lo.value, hi.value);
      assert AmountLookups(context, crypto, CHECK_ERROR_TEMPLATE, "check") == Ok(AmountForm(lo.value, hi.value, text));
      if parsed.None? {
        assert v == Done(text, w);
        return Ok(text);
      }
      var value := parsed.value;
      var accepted := Within(lo.value, value.value, hi.value, false);
      if accepted.Raised? {
        assert v == Halt(accepted.error, w);
        return Raised(accepted.error);
      }
      if accepted.value {
        ghost var writes := w + [Commit(selected, value.text)];
        assert v == CheckIssued(context, value, crypto, Mixins.FiatValue(value.value, Mixins.RateOf(context.rates, crypto)), fees,
                                botName, NewVoucher(context.user, value, crypto, now, Checks.NEW, Utils.UniqueCode(uuid)), writes);
        ghost var before := store.records;
        r := Accept(store, checks, holds, selected, value, crypto, fees, botName, uuid, now, writes);
        assert store.records == AfterWrites(before, ContextUserId(context.user), [Commit(selected, value.text)]);
        AfterWritesAppend(old(store.records), ContextUserId(context.user), w, [Commit(selected, value.text)]);
        assert store.records == AfterWrites(old(store.records), ContextUserId(context.user), v.writes);
        return;
      } else {
        assert v == Done(text, w);
      }
      return Ok(text);
    }

    /** The accepted amount (validators/wallet.py:36-51): the chain ends with it, the check is
        stored, the amount plus the network fee goes on hold, and the answer names the check and
        its value in fiat. */
    method Accept(store: StateStore, checks: VoucherTable, holds: Users.HoldLedger, selected: seq<string>, value: Decimal,
                  crypto: string, fees: map<string, real>, botName: string, uuid: seq<Utils.Byte>, now: int,
                  ghost writes: seq<seq<string>>) returns (r: Result<Text>)
      requires HasUserId(context.user) && |uuid| == 16 && |selected| > 0
      modifies store, checks, holds
      ensures var v := CheckIssued(context, value, crypto, Mixins.FiatValue(value.value, Mixins.RateOf(context.rates, crypto)), fees,
                                   botName, NewVoucher(context.user, value, crypto, now, Checks.NEW, Utils.UniqueCode(uuid)), writes);
        r == v.result &&
        store.records == AfterWrites(old(store.records), ContextUserId(context.user), [Commit(selected, value.text)]) &&
        checks.rows == old(checks.rows) + Inserted(v.record) &&
        holds.holds == HoldsAfter(old(holds.holds), v.hold)
    {
      // The rate is `Decimal(rates.get(crypto, 0))`, taken as the decimal the rate map holds.
      var fiat := Mixins.FiatValue(value.value, Mixins.RateOf(context.rates, crypto));
      UpdateChain(context, store, selected, value.text);
      var check := Checks.CreateCheck(checks, context.user, value, crypto, uuid, now);
      ghost var records, rows := store.records, checks.rows;
      r := HoldAndAnswer(holds, value, crypto, fiat, fees, botName, check, writes);
      assert store.records == records && checks.rows == rows;
    }

    /** The hold and the answer once the check is stored (validators/wallet.py:38-51). */
    method HoldAndAnswer(holds: Users.HoldLedger, value: Decimal, crypto: string, fiat: real, fees: map<string, real>,
                         botName: string, check: Voucher, ghost writes: seq<seq<string>>) returns (r: Result<Text>)
      requires HasUserId(context.user)
      modifies holds
      ensures var v := CheckIssued(context, value, crypto, fiat, fees, botName, check, writes);
        r == v.result && holds.holds == HoldsAfter(old(holds.holds), v.hold)
    {
      if crypto !in fees {
        return Raised(TypeError("'NoneType' object is not subscriptable"));
      }
      var amount := value.value + fees[crypto];
      holds.Add(ContextUserId(context.user), crypto, amount);
      var currency := Path(JDict(context.user), ["profile", "wallet_currency"]);
      if currency.Raised? {
        return Raised(currency.error);
      }
      var text := Rendered(CHECK_TEMPLATE, map["fiat_amount" := JNum(fiat),
                                               "check" := ToJson(check), "wallet_currency" := currency.value,
                                               "bot_name" := JStr(botName)]);
      return Ok(text);
    }
  }

  class BillAmountValidator {
    const context: Context

    constructor(context: Context)
      ensures this.context == context
    {
      this.context := context;
    }

    /** `validate(value)` (validators/wallet.py:57-94) against the stores it writes. */
    method Validate(store: StateStore, bills: VoucherTable, parsed: Option<Decimal>, uuid: seq<Utils.Byte>, now: int)
      returns (r: Result<Text>)
      requires HasUserId(context.user) && |uuid| == 16
      modifies store, bills
      ensures var v := BillAmount(context, parsed, uuid, now);
        r == v.result &&
        store.records == AfterWrites(old(store.records), ContextUserId(context.user), v.writes) &&
        bills.rows == old(bills.rows) + Inserted(v.record)
    {
      ghost var v := BillAmount(context, parsed, uuid, now);
      var selected := context.selected;
      if |selected| < 2 {
        return Raised(IndexError);
      }
      var crypto := selected[|selected| - 2];
      var _ := ClearChain(context, store, selected);
      ghost var w := RolledBack(context);
      assert store.records == AfterWrites(old(store.records), ContextUserId(context.user), w);
      var lo := Limit(context, crypto, "min");
      if lo.Raised? {
        assert v == Halt(lo.error, w);
        return Raised(lo.error);
      }
      var hi := Limit(context, crypto, "max");
      if hi.Raised? {
        assert v == Halt(hi.error, w);
        return Raised(hi.error);
      }
      var balance := Balance(context, crypto);
      if balance.Raised? {
        assert v == Halt(balance.error, w);
        return Raised(balance.error);
      }
      var text := AmountErrorText(BILL_ERROR_TEMPLATE, "bill", crypto, balance.value, lo.value, hi.value);
      assert AmountLookups(context, crypto, BILL_ERROR_TEMPLATE, "bill") == Ok(AmountForm(lo.value, hi.value, text));
      if parsed.None? {
        assert v == Done(text, w);
        return Ok(text);
      }
      var value := parsed.value;
      var accepted := Within(lo.value, value.value, hi.value, true);
      if accepted.Raised? {
        assert v == Halt(accepted.error, w);
        return Raised(accepted.error);
      }
      if accepted.value {
        UpdateChain(context, store, selected, value.text);
        AfterWritesAppend(old(store.records), ContextUserId(context.user), RolledBack(context), [Commit(selected, value.text)]);
        var bill := Bills.CreateBill(bills, context.user, value, crypto, uuid, now);
        // `bill.amount`: the record is a dictionary, which has no attribute `amount`.
        assert v.writes == w + [Commit(selected, value.text)] && v.record == Some(bill);
        return Raised(AttributeError("amount"));
      }
      assert v == Done(text, w);
      return Ok(text);
    }
  }

  class WithdrawAddressValidator {
    const context: Context

    constructor(context: Context)
      ensures this.context == context
    {
      this.context := context;
    }

    /** `validate(value)` (validators/wallet.py:97-115) against the chain store. */
    method Validate(store: StateStore, value: string, addressValid: bool) returns (r: Result<Text>)
      requires HasUserId(context.user)
      modifies store
      ensures var v := WithdrawAddress(context, value, addressValid);
        r == v.result && store.records == AfterWrites(old(store.records), ContextUserId(context.user), v.writes)
    {
      ghost var v := WithdrawAddress(context, value, addressValid);
      var selected := context.selected;
      if |selected| < 2 {
        return Raised(IndexError);
      }
      var crypto := selected[|selected| - 2];
      var _ := ClearChain(context, store, selected);
      ghost var w := RolledBack(context);
      assert store.records == AfterWrites(old(store.records), ContextUserId(context.user), w);
      var unit := Utils.GetUnit(crypto);
      if unit.Raised? {
        assert v == Halt(unit.error, w);
        return Raised(unit.error);
      }
      var text := Plain(INVALID_ADDRESS);
      var wallet := Wallet(context, crypto);
      if wallet.Raised? {
        assert v == Halt(wallet.error, w);
        return Raised(wallet.error);
      }
      if addressValid {
        UpdateChain(context, store, selected, value);
        AfterWritesAppend(old(store.records), ContextUserId(context.user), RolledBack(context), [Commit(selected, value)]);
        assert v.writes == w + [Commit(selected, value)];
        var balance := Index(wallet.value, "balance");
        if balance.Raised? {
          return Raised(balance.error);
        }
        text := Rendered(WITHDRAW_AMOUNT_TEMPLATE, map["crypto" := JStr(crypto), "available_balance" := balance.value]);
      } else {
        assert v == Done(text, w);
      }
      return Ok(text);
    }
  }

  class WithdrawAmountValidator {
    const context: Context

    constructor(context: Context)
      ensures this.context == context
    {
      this.context := context;
    }

    /** `validate(value)` (validators/wallet.py:118-140) against the chain store and the
        network the coins go out on. */
    method Validate(store: StateStore, network: CoinNetwork, parsed: Option<Decimal>,
                    balanceCheck: Result<(bool, Json)>, sendOutcome: Result<string>) returns (r: Result<Text>)
      requires HasUserId(context.user)
      modifies store, network
      ensures var v := WithdrawAmount(context, parsed, balanceCheck, sendOutcome);
        r == v.result &&
        store.records == AfterWrites(old(store.records), ContextUserId(context.user), v.writes) &&
        network.sent == old(network.sent) + Sent(v.transfer)
    {
      ghost var v := WithdrawAmount(context, parsed, balanceCheck, sendOutcome);
      var selected := context.selected;
      if |selected| < 3 {
        return Raised(IndexError);
      }
      var crypto := selected[|selected| - 3];
      var wallet := Wallet(context, crypto);
      if wallet.Raised? {
        return Raised(wallet.error);
      }
      var _ := ClearChain(context, store, selected);
      ghost var w := RolledBack(context);
      assert store.records == AfterWrites(old(store.records), ContextUserId(context.user), w);
      var unit := Utils.GetUnit(crypto);
      if unit.Raised? {
        assert v == Halt(unit.error, w);
        return Raised(unit.error);
      }
      var address := Index(wallet.value, "address");
      if address.Raised? {
        assert v == Halt(address.error, w);
        return Raised(address.error);
      }
      if balanceCheck.Raised? {
        assert v == Halt(balanceCheck.error, w);
        return Raised(balanceCheck.error);
      }
      var (hasBalance, fee) := balanceCheck.value;
      var text := Rendered(WITHDRAW_ERROR_TEMPLATE, map["fee" := fee, "crypto" := JStr(crypto)]);
      if parsed.None? {
        assert v == Done(text, w);
        return Ok(text);
      }
      var value := parsed.value;
      var lo := Limit(context, crypto, "min");
      if lo.Raised? {
        assert v == Halt(lo.error, w);
        return Raised(lo.error);
      }
      var hi := Limit(context, crypto, "max");
      if hi.Raised? {
        assert v == Halt(hi.error, w);
        return Raised(hi.error);
      }
      if hasBalance {
        var accepted := Within(lo.value, value.value, hi.value, false);
        if accepted.Raised? {
          assert v == Halt(accepted.error, w);
          return Raised(accepted.error);
        }
        if accepted.value {
          UpdateChain(context, store, selected, value.text);
          AfterWritesAppend(old(store.records), ContextUserId(context.user), RolledBack(context), [Commit(selected, value.text)]);
          var txHash := network.SendCoins(Transfer(crypto, ContextUserId(context.user), selected[|selected| - 2], value.value), sendOutcome);
          if txHash.Raised? {
            return Raised(txHash.error);
          }
          text := Plain(COINS_SENT + "\n" + txHash.value);
        }
      }
      return Ok(text);
    }
  }
}
