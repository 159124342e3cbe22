/** database/bot_settings.py: the single bot settings document, created with default limits
    the first time it is asked for. */
module BotSettings {
  import opened Wrappers
  import opened Json
  import opened Decimals
  import Triggers

  /** `Triggers.<name>` used as a dictionary key: the attribute found along the MRO, or
      AttributeError when no class defines it. The model's limit keys are strings, so an
      attribute that is not one is refused with TypeError. */
  function TriggerKey(mro: seq<Triggers.PyClass>, name: string): (r: Result<string>)
    ensures Triggers.LookupAttr(mro, name).None? ==> r == Raised(AttributeError(name))
    ensures r.Ok? ==> Triggers.LookupAttr(mro, name) == Some(Triggers.PyStr(r.value))
  {
    match Triggers.LookupAttr(mro, name)
    case None => Raised(AttributeError(name))
    case Some(v) => if v.PyStr? then Ok(v.s) else Raised(TypeError("limit keys are strings"))
  }

  /** One `{"min": ..., "max": ...}` entry. */
  function Bounds(min: Json, max: Json): Json
  {
    JDict(map["min" := min, "max" := max])
  }

  /** The `limits` dictionary of the default record, once its four keys are known; as in a
      dictionary display, a repeated key keeps the later entry. */
  function DefaultLimits(btc: string, eth: string, trx: string, ton: string): Json
  {
    JDict(map[
      btc := Bounds(JNum(Float0_0001), JNum(Float0_1))][
      eth := Bounds(JNum(Float0_001), JInt(1))][
      trx := Bounds(JInt(1), JInt(10000))][
      ton := Bounds(JInt(1), JInt(1000))])
  }

  /** The default record (database/bot_settings.py:8-30) with the given currency keys. */
  function DefaultRecord(btc: string, eth: string, trx: string, ton: string): Json
  {
    JDict(map[
      "limits" := DefaultLimits(btc, eth, trx, ton),
      "pagination" := JDict(map["per_page" := JInt(5)]),
      "links" := JDict(map["channel" := JStr("https://t.me/"), "chat" := JStr("https://t.me/")])])
  }

  /** Evaluating the default record's display, with `mro` the MRO of `Triggers`: the keys `Triggers.BTC`, `Triggers.ETH`,
      `Triggers.TRX`, `Triggers.TON` in that order, the first failing one raising. */
  function DefaultSettings(mro: seq<Triggers.PyClass>): Result<Json>
  {
    match TriggerKey(mro, "BTC")
    case Raised(e) => Raised(e)
    case Ok(btc) =>
      match TriggerKey(mro, "ETH")
      case Raised(e) => Raised(e)
      case Ok(eth) =>
        match TriggerKey(mro, "TRX")
        case Raised(e) => Raised(e)
        case Ok(trx) =>
          match TriggerKey(mro, "TON")
          case Raised(e) => Raised(e)
          case Ok(ton) => Ok(DefaultRecord(btc, eth, trx, ton))
  }

  /** `Triggers` defines neither `ETH` nor `TRX`: building the default record raises
      AttributeError at `Triggers.ETH`, so it is never built. */
  lemma DefaultSettingsRaises()
    ensures DefaultSettings(Triggers.TriggersMro) == Raised(AttributeError("ETH"))
  {
    Triggers.TriggerAttributes();
  }

  /** In the default record every currency's minimum lies below its maximum. */
  lemma DefaultLimitsOrdered(btc: string, eth: string, trx: string, ton: string)
    ensures var limits := DefaultLimits(btc, eth, trx, ton).fields;
      forall k :: k in limits ==>
        limits[k].JDict? && "min" in limits[k].fields && "max" in limits[k].fields &&
        Number(limits[k].fields["min"]).Some? && Number(limits[k].fields["max"]).Some? &&
        Number(limits[k].fields["min"]).value < Number(limits[k].fields["max"]).value
  {
  }

  /** The default pagination shows five items per page. */
  lemma DefaultPerPage(btc: string, eth: string, trx: string, ton: string)
    ensures Path(DefaultRecord(btc, eth, trx, ton), ["pagination", "per_page"]) == Ok(JInt(5))
  {
  }

  /** The `bot_settings` collection. */
  class SettingsTable {
    var docs: seq<Json>
    /** The MRO of the `Triggers` class the module imports. */
    const triggersMro: seq<Triggers.PyClass>

    constructor()
      ensures docs == [] && triggersMro == Triggers.TriggersMro
    {
      docs := [];
      triggersMro := Triggers.TriggersMro;
    }

    /** `get_or_create_bot_settings()` (database/bot_settings.py:5-36): the stored record if
        there is one, untouched; otherwise the default record, inserted once and returned. An
        exception while the default is built leaves the collection empty. */
    method GetOrCreate() returns (r: Result<Json>)
      modifies this
      ensures |old(docs)| > 0 ==> r == Ok(old(docs)[0]) && docs == old(docs)
      ensures |old(docs)| == 0 && DefaultSettings(triggersMro).Ok? ==> r == DefaultSettings(triggersMro) && docs == [r.value]
      ensures |old(docs)| == 0 && DefaultSettings(triggersMro).Raised? ==> r == DefaultSettings(triggersMro) && docs == []
    {
      if |docs| > 0 {
        return Ok(docs[0]);
      }
      r := DefaultSettings(triggersMro);
      if r.Ok? {
        docs := docs + [r.value];
      }
    }
  }

  /** With the trigger classes as they are, a bot without settings gets AttributeError and
      nothing is stored. */
  method GetOrCreateWithoutSettings(table: SettingsTable) returns (r: Result<Json>)
    requires table.docs == [] && table.triggersMro == Triggers.TriggersMro
    modifies table
    ensures r == Raised(AttributeError("ETH")) && table.docs == []
  {
    DefaultSettingsRaises();
    r := table.GetOrCreate();
  }
}
