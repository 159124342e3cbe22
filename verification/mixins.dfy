/** mixins/base.py: `UserInputMixin.get_model_amount_in_fiat`, the fiat value of a stored check
    or bill at the current rates. */
module Mixins {
  import opened Wrappers
  import opened Decimals
  import opened Vouchers
  import Triggers

  /** The rate of a currency as `Decimal(str(rates.get(crypto, 0)))`: the rate as printed, or 0
      for a currency without one. */
  function RateOf(rates: map<string, real>, crypto: string): (r: real)
    ensures crypto !in rates ==> r == 0.0
    ensures crypto in rates ==> r == rates[crypto]
  {
    if crypto in rates then rates[crypto] else 0.0
  }

  /** `round(amount * rate, 2)`: an amount in fiat, to the cent. */
  function FiatValue(amount: real, rate: real): (r: real)
    ensures IsCents(r) && -0.005 <= r - amount * rate <= 0.005
  {
    Round2(amount * rate)
  }

  /** The collection `get_model_amount_in_fiat` searches: the checks exactly when the trigger
      is `check`, the bills otherwise. */
  function Searched(trigger: string, checks: seq<Voucher>, bills: seq<Voucher>): (rows: seq<Voucher>)
    ensures trigger == Triggers.CHECK ==> rows == checks
    ensures trigger != Triggers.CHECK ==> rows == bills
  {
    if trigger == Triggers.CHECK then checks else bills
  }

  /** `get_model_amount_in_fiat(rates, code, trigger)` (mixins/base.py:14-20) over the stored
      checks and bills: the record with the code in the searched collection, returned as it is
      together with its amount times the rate of its currency rounded to cents. No record is
      `None`, and `None['amount']` raises TypeError. */
  function GetModelAmountInFiat(rates: map<string, real>, code: string, trigger: string,
                                checks: seq<Voucher>, bills: seq<Voucher>): (r: Result<(Voucher, real)>)
    ensures r.Ok? <==> FindByCode(Searched(trigger, checks, bills), code).Some?
    ensures r.Ok? ==>
      r.value.0 == FindByCode(Searched(trigger, checks, bills), code).value &&
      r.value.0 in Searched(trigger, checks, bills) && r.value.0.code == code
    ensures r.Raised? ==> r.error.TypeError?
    ensures r.Ok? ==>
      IsCents(r.value.1) &&
      -0.005 <= r.value.1 - r.value.0.amount.value * RateOf(rates, r.value.0.cryptocurrency) <= 0.005
    ensures r.Ok? && r.value.0.cryptocurrency !in rates ==> r.value.1 == 0.0
  {
    FiatOf(rates, FindByCode(Searched(trigger, checks, bills), code))
  }

  /** The pair returned for the looked-up record, if there is one. */
  function FiatOf(rates: map<string, real>, found: Option<Voucher>): (r: Result<(Voucher, real)>)
    ensures r.Ok? <==> found.Some?
    ensures r.Ok? ==> r.value == (found.value, FiatValue(found.value.amount.value, RateOf(rates, found.value.cryptocurrency)))
    ensures r.Raised? ==> r.error.TypeError?
  {
    match found
    case None => Raised(TypeError("'NoneType' object is not subscriptable"))
    case Some(instance) => Ok((instance, FiatValue(instance.amount.value, RateOf(rates, instance.cryptocurrency))))
  }

  /** A `check` trigger never looks at the bills, and any other trigger never at the checks. */
  lemma LookupChoice(rates: map<string, real>, code: string, trigger: string,
                     checks: seq<Voucher>, bills: seq<Voucher>, otherChecks: seq<Voucher>, otherBills: seq<Voucher>)
    ensures trigger == Triggers.CHECK ==>
      GetModelAmountInFiat(rates, code, trigger, checks, bills) == GetModelAmountInFiat(rates, code, trigger, checks, otherBills)
    ensures trigger != Triggers.CHECK ==>
      GetModelAmountInFiat(rates, code, trigger, checks, bills) == GetModelAmountInFiat(rates, code, trigger, otherChecks, bills)
  {
    var rows := Searched(trigger, checks, bills);
    assert GetModelAmountInFiat(rates, code, trigger, checks, bills) == FiatOf(rates, FindByCode(rows, code));
    assert trigger == Triggers.CHECK ==>
      GetModelAmountInFiat(rates, code, trigger, checks, otherBills) == FiatOf(rates, FindByCode(rows, code));
    assert trigger != Triggers.CHECK ==>
      GetModelAmountInFiat(rates, code, trigger, otherChecks, bills) == FiatOf(rates, FindByCode(rows, code));
  }

  /** When the product is already in whole cents it is the fiat amount itself. */
  lemma FiatExactWhenCents(rates: map<string, real>, code: string, trigger: string,
                           checks: seq<Voucher>, bills: seq<Voucher>)
    requires GetModelAmountInFiat(rates, code, trigger, checks, bills).Ok?
    ensures var (instance, fiat) := GetModelAmountInFiat(rates, code, trigger, checks, bills).value;
      IsCents(instance.amount.value * RateOf(rates, instance.cryptocurrency)) ==>
        fiat == instance.amount.value * RateOf(rates, instance.cryptocurrency)
  {
    var (instance, fiat) := GetModelAmountInFiat(rates, code, trigger, checks, bills).value;
    var x := instance.amount.value * RateOf(rates, instance.cryptocurrency);
    if IsCents(x) {
      Round2Exact(x);
    }
  }

  /** Rounding the fiat amount again changes nothing. */
  lemma FiatIsRounded(rates: map<string, real>, code: string, trigger: string,
                      checks: seq<Voucher>, bills: seq<Voucher>)
    requires GetModelAmountInFiat(rates, code, trigger, checks, bills).Ok?
    ensures var fiat := GetModelAmountInFiat(rates, code, trigger, checks, bills).value.1;
      Round2(fiat) == fiat
  {
    Round2Exact(GetModelAmountInFiat(rates, code, trigger, checks, bills).value.1);
  }
}
