/** The trigger catalogue of triggers.py: the trigger classes as Python sees them (their
    attribute dictionaries and the method resolution order of `Triggers`), and
    `get_all_triggers`, which flattens them into the registry the dispatcher and the
    validators test membership against. */
module Triggers {
  import opened Wrappers

  /** The kinds of class attribute values the flattening tells apart. */
  datatype PyValue = PyStr(s: string) | PyNone | PyDescriptor | PyFunction

  predicate Callable(v: PyValue)
  {
    v.PyFunction?
  }

  /** A class: its name and `vars(cls)` in definition order. */
  datatype PyClass = PyClass(name: string, attrs: seq<(string, PyValue)>)

  /** `key.startswith('__')`. */
  predicate IsDunder(key: string)
  {
    |key| >= 2 && key[0] == '_' && key[1] == '_'
  }

  // The trigger values (triggers.py:1-27).
  const START := "/start"
  const BTC := "BTC"
  const TON := "TON"
  const USER_INPUT := "user_input"
  const CHECK := "check"
  const CREATE_CHECK := "create_check"
  const CHECK_AMOUNT := "check_amount"
  const BILL := "bill"
  const CREATE_BILL := "create_bill"
  const BILL_AMOUNT := "bill_amount"
  const WALLET := "wallet"
  const REPLENISH := "replenish"
  const WITHDRAW := "withdraw"
  const SETTINGS := "settings"
  const P2P := "p2p"
  const STOCK := "stock"

  /** `object`: only dunder and callable entries. */
  const ObjectClass := PyClass("object", [("__repr__", PyFunction), ("__init__", PyFunction), ("__doc__", PyStr("The base class of the class hierarchy."))])

  /** Classes deriving directly from `object` also get the `__dict__` and `__weakref__` descriptors. */
  const BaseTriggersClass := PyClass("BaseTriggers", [
    ("__module__", PyStr("triggers")),
    ("START", PyStr("/start")), ("BTC", PyStr("BTC")), ("TON", PyStr("TON")), ("USER_INPUT", PyStr("user_input")),
    ("__dict__", PyDescriptor), ("__weakref__", PyDescriptor), ("__doc__", PyNone)])

  const CheckTriggersClass := PyClass("CheckTriggers", [
    ("__module__", PyStr("triggers")),
    ("CHECK", PyStr("check")), ("CREATE_CHECK", PyStr("create_check")), ("CHECK_AMOUNT", PyStr("check_amount")),
    ("__dict__", PyDescriptor), ("__weakref__", PyDescriptor), ("__doc__", PyNone)])

  const BillTriggersClass := PyClass("BillTriggers", [
    ("__module__", PyStr("triggers")),
    ("BILL", PyStr("bill")), ("CREATE_BILL", PyStr("create_bill")), ("BILL_AMOUNT", PyStr("bill_amount")),
    ("__dict__", PyDescriptor), ("__weakref__", PyDescriptor), ("__doc__", PyNone)])

  const WalletTriggersClass := PyClass("WalletTriggers", [
    ("__module__", PyStr("triggers")),
    ("WALLET", PyStr("wallet")), ("REPLENISH", PyStr("replenish")), ("WITHDRAW", PyStr("withdraw")),
    ("__doc__", PyNone)])

  const TriggersClass := PyClass("Triggers", [
    ("__module__", PyStr("triggers")),
    ("WALLET", PyStr("wallet")), ("SETTINGS", PyStr("settings")), ("P2P", PyStr("p2p")), ("STOCK", PyStr("stock")),
    ("__doc__", PyNone)])

  /** `Triggers.__mro__`, the C3 linearisation of `Triggers(BaseTriggers, WalletTriggers)`
      with `WalletTriggers(CheckTriggers, BillTriggers)`. */
  const TriggersMro: seq<PyClass> :=
    [TriggersClass, BaseTriggersClass, WalletTriggersClass, CheckTriggersClass, BillTriggersClass, ObjectClass]

  /** `base_class == object`: classes are told apart by name. */
  predicate IsObject(c: PyClass)
  {
    c.name == "object"
  }

  /** Whether one `vars()` entry is collected: not a dunder name and not callable. */
  predicate Collects(entry: (string, PyValue))
  {
    !IsDunder(entry.0) && !Callable(entry.1)
  }

  /** The values one class contributes, in `vars()` order. */
  function OwnTriggers(attrs: seq<(string, PyValue)>): seq<PyValue>
  {
    if attrs == [] then []
    else (if Collects(attrs[0]) then [attrs[0].1] else []) + OwnTriggers(attrs[1..])
  }

  /** What one class of the MRO contributes; `object` contributes nothing. */
  function Contribution(c: PyClass): seq<PyValue>
  {
    if IsObject(c) then [] else OwnTriggers(c.attrs)
  }

  /** The flattened list `get_all_triggers` builds over a class's MRO. */
  function Collected(mro: seq<PyClass>): seq<PyValue>
  {
    if mro == [] then [] else Contribution(mro[0]) + Collected(mro[1..])
  }

  lemma OwnTriggersStep(attrs: seq<(string, PyValue)>, j: nat, done: seq<PyValue>)
    requires j < |attrs|
    ensures done + OwnTriggers(attrs[j..]) ==
      (if Collects(attrs[j]) then done + [attrs[j].1] else done) + OwnTriggers(attrs[j + 1..])
  {
    var rest := OwnTriggers(attrs[j + 1..]);
    assert attrs[j..][1..] == attrs[j + 1..];
    assert OwnTriggers(attrs[j..]) == (if Collects(attrs[j]) then [attrs[j].1] else []) + rest;
    if Collects(attrs[j]) {
      AppendAssoc(done, [attrs[j].1], rest);
    } else {
      assert [] + rest == rest;
    }
  }

  lemma AppendAssoc<T>(a: seq<T>, b: seq<T>, c: seq<T>)
    ensures a + (b + c) == (a + b) + c
  {
  }

  lemma CollectedStep(mro: seq<PyClass>, i: nat)
    requires i < |mro|
    ensures Collected(mro[i..]) == Contribution(mro[i]) + Collected(mro[i + 1..])
  {
    assert mro[i..][1..] == mro[i + 1..];
  }

  /** `get_all_triggers(cls)` (triggers.py:29-37), given `cls.__mro__`. */
  method GetAllTriggers(mro: seq<PyClass>) returns (triggers: seq<PyValue>)
    ensures triggers == Collected(mro)
  {
    triggers := [];
    var i := 0;
    while i < |mro|
      invariant 0 <= i <= |mro|
      invariant triggers + Collected(mro[i..]) == Collected(mro)
    {
      CollectedStep(mro, i);
      var baseClass := mro[i];
      if !IsObject(baseClass) {
        AppendAssoc(triggers, Contribution(baseClass), Collected(mro[i + 1..]));
        triggers := CollectOwn(baseClass.attrs, triggers);
      } else {
        assert [] + Collected(mro[i + 1..]) == Collected(mro[i + 1..]);
      }
      i := i + 1;
    }
    assert mro[|mro|..] == [];
  }

  /** The inner loop of `get_all_triggers`: the entries of one class's `vars()` that are
      collected, appended in order to those already collected. */
  method CollectOwn(attrs: seq<(string, PyValue)>, done: seq<PyValue>) returns (triggers: seq<PyValue>)
    ensures triggers == done + OwnTriggers(attrs)
  {
    triggers := done;
    var j := 0;
    while j < |attrs|
      invariant 0 <= j <= |attrs|
      invariant triggers + OwnTriggers(attrs[j..]) == done + OwnTriggers(attrs)
    {
      OwnTriggersStep(attrs, j, triggers);
      var (key, value) := attrs[j];
      assert Collects(attrs[j]) <==> !IsDunder(key) && !Callable(value);
      if !IsDunder(key) && !Callable(value) {
        triggers := triggers + [value];
      }
      j := j + 1;
    }
    assert attrs[|attrs|..] == [];
  }

  /** The registry the bot uses: `get_all_triggers(Triggers)`. */
  function Registry(): seq<PyValue>
  {
    Collected(TriggersMro)
  }

  /** A string is a registered trigger. */
  predicate IsTrigger(t: string)
  {
    PyStr(t) in Registry()
  }

  /** Entry `j` of class `i` of the MRO is collected. */
  predicate Contributes(mro: seq<PyClass>, i: int, j: int)
  {
    0 <= i < |mro| && !IsObject(mro[i]) && 0 <= j < |mro[i].attrs| && Collects(mro[i].attrs[j])
  }

  lemma {:induction false} OwnTriggersMembers(attrs: seq<(string, PyValue)>, v: PyValue)
    ensures v in OwnTriggers(attrs) <==> exists j :: 0 <= j < |attrs| && Collects(attrs[j]) && attrs[j].1 == v
  {
    if attrs != [] {
      OwnTriggersMembers(attrs[1..], v);
      if v in OwnTriggers(attrs) && v !in OwnTriggers(attrs[1..]) {
        assert Collects(attrs[0]) && attrs[0].1 == v;
      }
      if exists j :: 0 <= j < |attrs| && Collects(attrs[j]) && attrs[j].1 == v {
        var j :| 0 <= j < |attrs| && Collects(attrs[j]) && attrs[j].1 == v;
        if j > 0 {
          assert attrs[1..][j - 1] == attrs[j];
        }
      }
    }
  }

  /** The registry holds a value if and only if some class of the MRO other than `object`
      has a non-dunder, non-callable attribute with that value. */
  lemma {:induction false} CollectedMembers(mro: seq<PyClass>, v: PyValue)
    ensures v in Collected(mro) <==> exists i, j :: Contributes(mro, i, j) && mro[i].attrs[j].1 == v
  {
    if mro != [] {
      CollectedMembers(mro[1..], v);
      OwnTriggersMembers(mro[0].attrs, v);
      if v in Collected(mro) {
        if v in Contribution(mro[0]) {
          var j :| 0 <= j < |mro[0].attrs| && Collects(mro[0].attrs[j]) && mro[0].attrs[j].1 == v;
          assert Contributes(mro, 0, j);
        } else {
          var i, j :| Contributes(mro[1..], i, j) && mro[1..][i].attrs[j].1 == v;
          assert Contributes(mro, i + 1, j);
        }
      }
      if exists i, j :: Contributes(mro, i, j) && mro[i].attrs[j].1 == v {
        var i, j :| Contributes(mro, i, j) && mro[i].attrs[j].1 == v;
        if i > 0 {
          assert mro[1..][i - 1] == mro[i];
          assert Contributes(mro[1..], i - 1, j);
        } else {
          assert v in Contribution(mro[0]);
        }
      }
    }
  }

  /** Flattening distributes over a split of the MRO: earlier classes come first. */
  lemma {:induction false} CollectedAppend(a: seq<PyClass>, b: seq<PyClass>)
    ensures Collected(a + b) == Collected(a) + Collected(b)
  {
    if a != [] {
      assert (a + b)[1..] == a[1..] + b;
      CollectedAppend(a[1..], b);
    } else {
      assert a + b == b;
    }
  }

  /** `Triggers`' own attributes open the registry, ahead of every base class. */
  lemma RegistryStartsWithOwn()
    ensures OwnTriggers(TriggersClass.attrs) <= Registry()
  {
  }

  /** Unfolding the collection of a class's entries at position `i`. */
  lemma OwnAt(a: seq<(string, PyValue)>, i: nat)
    requires i < |a|
    ensures OwnTriggers(a[i..]) == (if Collects(a[i]) then [a[i].1] else []) + OwnTriggers(a[i + 1..])
  {
    assert a[i..][1..] == a[i + 1..];
  }

  /** Entries none of which is collected contribute nothing. */
  lemma {:induction false} NoneCollected(a: seq<(string, PyValue)>, k: nat)
    requires k <= |a|
    requires forall j :: k <= j < |a| ==> !Collects(a[j])
    ensures OwnTriggers(a[k..]) == []
    decreases |a| - k
  {
    if k < |a| {
      OwnAt(a, k);
      NoneCollected(a, k + 1);
    } else {
      assert a[k..] == [];
    }
  }

  /** A class dictionary of one uncollected entry, three triggers, and uncollected entries. */
  lemma OwnFramed3(a: seq<(string, PyValue)>)
    requires |a| >= 4 && !Collects(a[0]) && Collects(a[1]) && Collects(a[2]) && Collects(a[3])
    requires forall j :: 4 <= j < |a| ==> !Collects(a[j])
    ensures OwnTriggers(a) == [a[1].1, a[2].1, a[3].1]
  {
    NoneCollected(a, 4);
    OwnAt(a, 3);
    OwnAt(a, 2);
    OwnAt(a, 1);
    OwnAt(a, 0);
    assert a[0..] == a;
  }

  /** A class dictionary of one uncollected entry, four triggers, and uncollected entries. */
  lemma OwnFramed4(a: seq<(string, PyValue)>)
    requires |a| >= 5 && !Collects(a[0]) && Collects(a[1]) && Collects(a[2]) && Collects(a[3]) && Collects(a[4])
    requires forall j :: 5 <= j < |a| ==> !Collects(a[j])
    ensures OwnTriggers(a) == [a[1].1, a[2].1, a[3].1, a[4].1]
  {
    NoneCollected(a, 5);
    OwnAt(a, 0);
    assert a[0..] == a;
    OwnPair(a, 1);
    OwnPair(a, 3);
  }

  /** Two collected entries at `i` and `i + 1` open what is collected from `i` on. */
  lemma OwnPair(a: seq<(string, PyValue)>, i: nat)
    requires i + 1 < |a| && Collects(a[i]) && Collects(a[i + 1])
    ensures OwnTriggers(a[i..]) == [a[i].1, a[i + 1].1] + OwnTriggers(a[i + 2..])
  {
    OwnAt(a, i);
    OwnAt(a, i + 1);
  }

  lemma TriggersOwnListed()
    ensures OwnTriggers(TriggersClass.attrs) == [PyStr("wallet"), PyStr("settings"), PyStr("p2p"), PyStr("stock")]
  {
    OwnFramed4(TriggersClass.attrs);
  }

  lemma BaseTriggersListed()
    ensures OwnTriggers(BaseTriggersClass.attrs) == [PyStr("/start"), PyStr("BTC"), PyStr("TON"), PyStr("user_input")]
  {
    OwnFramed4(BaseTriggersClass.attrs);
  }

  lemma WalletTriggersListed()
    ensures OwnTriggers(WalletTriggersClass.attrs) == [PyStr("wallet"), PyStr("replenish"), PyStr("withdraw")]
  {
    OwnFramed3(WalletTriggersClass.attrs);
  }

  lemma CheckTriggersListed()
    ensures OwnTriggers(CheckTriggersClass.attrs) == [PyStr("check"), PyStr("create_check"), PyStr("check_amount")]
  {
    OwnFramed3(CheckTriggersClass.attrs);
  }

  lemma BillTriggersListed()
    ensures OwnTriggers(BillTriggersClass.attrs) == [PyStr("bill"), PyStr("create_bill"), PyStr("bill_amount")]
  {
    OwnFramed3(BillTriggersClass.attrs);
  }

  lemma CollectedOfSix(m: seq<PyClass>)
    requires |m| == 6 && IsObject(m[5])
    ensures Collected(m) == Contribution(m[0]) + (Contribution(m[1]) + (Contribution(m[2]) + (Contribution(m[3]) + Contribution(m[4]))))
  {
    CollectedStep(m, 5);
    assert m[6..] == [];
    assert Collected(m[5..]) == [];
    assert Contribution(m[4]) + [] == Contribution(m[4]);
    CollectedStep(m, 4);
    CollectedStep(m, 3);
    CollectedStep(m, 2);
    CollectedStep(m, 1);
    CollectedStep(m, 0);
    assert m[0..] == m;
  }

  lemma JoinListing(c0: seq<PyValue>, c1: seq<PyValue>, c2: seq<PyValue>, c3: seq<PyValue>, c4: seq<PyValue>)
    requires c0 == [PyStr("wallet"), PyStr("settings"), PyStr("p2p"), PyStr("stock")] && c1 == [PyStr("/start"), PyStr("BTC"), PyStr("TON"), PyStr("user_input")]
    requires c2 == [PyStr("wallet"), PyStr("replenish"), PyStr("withdraw")] && c3 == [PyStr("check"), PyStr("create_check"), PyStr("check_amount")] && c4 == [PyStr("bill"), PyStr("create_bill"), PyStr("bill_amount")]
    ensures c0 + (c1 + (c2 + (c3 + c4))) == [PyStr("wallet"), PyStr("settings"), PyStr("p2p"), PyStr("stock"), PyStr("/start"), PyStr("BTC"), PyStr("TON"), PyStr("user_input"), PyStr("wallet"), PyStr("replenish"), PyStr("withdraw"), PyStr("check"), PyStr("create_check"), PyStr("check_amount"), PyStr("bill"), PyStr("create_bill"), PyStr("bill_amount")]
  {
  }

  /** The registry, entry by entry: the MRO order, with `wallet` listed twice. */
  lemma RegistryListing()
    ensures Registry() == [PyStr("wallet"), PyStr("settings"), PyStr("p2p"), PyStr("stock"), PyStr("/start"), PyStr("BTC"), PyStr("TON"), PyStr("user_input"), PyStr("wallet"), PyStr("replenish"), PyStr("withdraw"), PyStr("check"), PyStr("create_check"), PyStr("check_amount"), PyStr("bill"), PyStr("create_bill"), PyStr("bill_amount")]
  {
    TriggersOwnListed();
    BaseTriggersListed();
    WalletTriggersListed();
    CheckTriggersListed();
    BillTriggersListed();
    CollectedOfSix(TriggersMro);
    JoinListing(OwnTriggers(TriggersClass.attrs), OwnTriggers(BaseTriggersClass.attrs), OwnTriggers(WalletTriggersClass.attrs),
      OwnTriggers(CheckTriggersClass.attrs), OwnTriggers(BillTriggersClass.attrs));
  }

  lemma ListingHas(r: seq<PyValue>)
    requires r == [PyStr("wallet"), PyStr("settings"), PyStr("p2p"), PyStr("stock"), PyStr("/start"), PyStr("BTC"), PyStr("TON"), PyStr("user_input"), PyStr("wallet"), PyStr("replenish"), PyStr("withdraw"), PyStr("check"), PyStr("create_check"), PyStr("check_amount"), PyStr("bill"), PyStr("create_bill"), PyStr("bill_amount")]
    ensures PyStr("user_input") in r && PyStr("/start") in r && PyStr("BTC") in r && PyStr("TON") in r
    ensures PyStr("create_check") in r && PyStr("create_bill") in r && PyStr("withdraw") in r
    ensures PyStr("check_amount") in r && PyStr("bill_amount") in r
  {
    assert r[7] == PyStr("user_input");
    assert r[4] == PyStr("/start");
    assert r[5] == PyStr("BTC");
    assert r[6] == PyStr("TON");
    assert r[12] == PyStr("create_check");
    assert r[15] == PyStr("create_bill");
    assert r[10] == PyStr("withdraw");
    assert r[13] == PyStr("check_amount");
    assert r[16] == PyStr("bill_amount");
  }

  lemma ListingLacks(r: seq<PyValue>)
    requires r == [PyStr("wallet"), PyStr("settings"), PyStr("p2p"), PyStr("stock"), PyStr("/start"), PyStr("BTC"), PyStr("TON"), PyStr("user_input"), PyStr("wallet"), PyStr("replenish"), PyStr("withdraw"), PyStr("check"), PyStr("create_check"), PyStr("check_amount"), PyStr("bill"), PyStr("create_bill"), PyStr("bill_amount")]
    ensures PyStr("TRX") !in r && PyStr("ETH") !in r
  {
    forall i | 0 <= i < |r|
      ensures r[i] != PyStr("TRX") && r[i] != PyStr("ETH")
    {
      assert r[i].s[0] != 'E' && (r[i].s[0] != 'T' || r[i].s == "TON");
    }
  }

  /** The triggers the bot relies on are registered, and neither `TRX` nor `ETH` is. */
  lemma RegistryMembership()
    ensures IsTrigger(USER_INPUT) && IsTrigger(START) && IsTrigger(BTC) && IsTrigger(TON)
    ensures IsTrigger(CREATE_CHECK) && IsTrigger(CREATE_BILL) && IsTrigger(WITHDRAW)
    ensures IsTrigger(CHECK_AMOUNT) && IsTrigger(BILL_AMOUNT)
    ensures !IsTrigger("TRX") && !IsTrigger("ETH")
  {
    RegistryListing();
    ListingHas(Registry());
    ListingLacks(Registry());
  }

  /** `wallet` is collected twice, from `Triggers` and from `WalletTriggers`: the registry is
      a list with repeats, and only membership in it is used. */
  lemma RegistryRepeatsWallet()
    ensures |Registry()| == 17
    ensures Registry()[0] == Registry()[8] == PyStr(WALLET)
  {
    RegistryListing();
    ListingRepeats(Registry());
  }

  lemma ListingRepeats(r: seq<PyValue>)
    requires r == [PyStr("wallet"), PyStr("settings"), PyStr("p2p"), PyStr("stock"), PyStr("/start"), PyStr("BTC"), PyStr("TON"), PyStr("user_input"), PyStr("wallet"), PyStr("replenish"), PyStr("withdraw"), PyStr("check"), PyStr("create_check"), PyStr("check_amount"), PyStr("bill"), PyStr("create_bill"), PyStr("bill_amount")]
    ensures |r| == 17 && r[0] == r[8] == PyStr(WALLET)
  {
  }

  /** The value of `name` in one class's own dictionary. */
  function OwnAttr(attrs: seq<(string, PyValue)>, name: string): (r: Option<PyValue>)
    ensures r.Some? <==> exists j :: 0 <= j < |attrs| && attrs[j].0 == name
    ensures r.Some? ==> exists j :: 0 <= j < |attrs| && attrs[j] == (name, r.value)
  {
    if attrs == [] then None
    else if attrs[0].0 == name then Some(attrs[0].1)
    else
      var rest := OwnAttr(attrs[1..], name);
      assert forall j :: 0 < j < |attrs| ==> attrs[j] == attrs[1..][j - 1];
      rest
  }

  /** The position along the MRO of the first class whose own dictionary has `name`, or -1. */
  function FirstOwner(mro: seq<PyClass>, name: string): (i: int)
    ensures -1 <= i < |mro|
    ensures i >= 0 ==> (OwnAttr(mro[i].attrs, name).Some? &&
      forall k :: 0 <= k < i ==> OwnAttr(mro[k].attrs, name).None?)
    ensures i < 0 ==> forall k :: 0 <= k < |mro| ==> OwnAttr(mro[k].attrs, name).None?
  {
    if mro == [] then -1
    else if OwnAttr(mro[0].attrs, name).Some? then 0
    else
      var i := FirstOwner(mro[1..], name);
      assert forall k :: 0 < k < |mro| ==> mro[k] == mro[1..][k - 1];
      if i < 0 then -1 else i + 1
  }

  /** `getattr(cls, name)` on a class: the first class along the MRO whose own dictionary
      has the name decides, and no class before it has the name; `None` stands for the
      AttributeError. */
  function LookupAttr(mro: seq<PyClass>, name: string): (r: Option<PyValue>)
    ensures r.None? <==> forall i, j :: 0 <= i < |mro| && 0 <= j < |mro[i].attrs| ==> mro[i].attrs[j].0 != name
    ensures r.Some? ==> exists i, j :: 0 <= i < |mro| && 0 <= j < |mro[i].attrs| && mro[i].attrs[j] == (name, r.value)
    ensures r == if FirstOwner(mro, name) < 0 then None else OwnAttr(mro[FirstOwner(mro, name)].attrs, name)
  {
    if mro == [] then None
    else
      match OwnAttr(mro[0].attrs, name)
      case Some(v) => Some(v)
      case None =>
        var rest := LookupAttr(mro[1..], name);
        assert forall i :: 0 < i < |mro| ==> mro[i] == mro[1..][i - 1];
        rest
  }

  lemma LookupAttrStep(mro: seq<PyClass>, i: nat, name: string)
    requires i < |mro|
    ensures LookupAttr(mro[i..], name) ==
      if OwnAttr(mro[i].attrs, name).Some? then OwnAttr(mro[i].attrs, name) else LookupAttr(mro[i + 1..], name)
  {
    assert mro[i..][1..] == mro[i + 1..];
  }

  /** A name that is neither `ETH` nor `TRX`, told by its first two letters. */
  predicate NotCurrencyName(k: string)
  {
    |k| >= 2 && k[0] != 'E' && !(k[0] == 'T' && k[1] == 'R')
  }

  predicate NoCurrencyNames(attrs: seq<(string, PyValue)>)
  {
    attrs == [] || (NotCurrencyName(attrs[0].0) && NoCurrencyNames(attrs[1..]))
  }

  lemma {:induction false} NoCurrencyAttr(attrs: seq<(string, PyValue)>, name: string)
    requires NoCurrencyNames(attrs)
    requires name == "ETH" || name == "TRX"
    ensures OwnAttr(attrs, name) == None
  {
    if attrs != [] {
      NoCurrencyAttr(attrs[1..], name);
    }
  }

  lemma ObjectNoCurrencyNames()
    ensures NoCurrencyNames(ObjectClass.attrs)
  {
  }

  lemma BaseNoCurrencyNames()
    ensures NoCurrencyNames(BaseTriggersClass.attrs)
  {
  }

  lemma CheckNoCurrencyNames()
    ensures NoCurrencyNames(CheckTriggersClass.attrs)
  {
  }

  lemma BillNoCurrencyNames()
    ensures NoCurrencyNames(BillTriggersClass.attrs)
  {
  }

  lemma WalletNoCurrencyNames()
    ensures NoCurrencyNames(WalletTriggersClass.attrs)
  {
  }

  lemma TriggersNoCurrencyNames()
    ensures NoCurrencyNames(TriggersClass.attrs)
  {
  }

  lemma CurrencyAttrMissing(name: string)
    requires name == "ETH" || name == "TRX"
    ensures LookupAttr(TriggersMro, name) == None
  {
    var m := TriggersMro;
    assert LookupAttr(m[6..], name) == None by { assert m[6..] == []; }
    assert LookupAttr(m[5..], name) == None by {
      ObjectNoCurrencyNames();
      NoCurrencyAttr(ObjectClass.attrs, name);
      LookupAttrStep(m, 5, name);
    }
    assert LookupAttr(m[4..], name) == None by {
      BillNoCurrencyNames();
      NoCurrencyAttr(BillTriggersClass.attrs, name);
      LookupAttrStep(m, 4, name);
    }
    assert LookupAttr(m[3..], name) == None by {
      CheckNoCurrencyNames();
      NoCurrencyAttr(CheckTriggersClass.attrs, name);
      LookupAttrStep(m, 3, name);
    }
    assert LookupAttr(m[2..], name) == None by {
      WalletNoCurrencyNames();
      NoCurrencyAttr(WalletTriggersClass.attrs, name);
      LookupAttrStep(m, 2, name);
    }
    assert LookupAttr(m[1..], name) == None by {
      BaseNoCurrencyNames();
      NoCurrencyAttr(BaseTriggersClass.attrs, name);
      LookupAttrStep(m, 1, name);
    }
    assert LookupAttr(m[0..], name) == None by {
      TriggersNoCurrencyNames();
      NoCurrencyAttr(TriggersClass.attrs, name);
      LookupAttrStep(m, 0, name);
    }
    assert m[0..] == m;
  }

  /** `Triggers.BTC` and `Triggers.TON` resolve through `BaseTriggers`; `Triggers.ETH` and
      `Triggers.TRX` are defined by no class of the MRO and raise AttributeError. */
  lemma TriggerAttributes()
    ensures LookupAttr(TriggersMro, "BTC") == Some(PyStr(BTC))
    ensures LookupAttr(TriggersMro, "TON") == Some(PyStr(TON))
    ensures LookupAttr(TriggersMro, "ETH") == None
    ensures LookupAttr(TriggersMro, "TRX") == None
  {
    var m := TriggersMro;
    assert m[0..] == m;
    TriggersOwnNoCurrency();
    BaseOwnsCurrencies();
    LookupAttrStep(m, 0, "BTC");
    LookupAttrStep(m, 1, "BTC");
    LookupAttrStep(m, 0, "TON");
    LookupAttrStep(m, 1, "TON");
    CurrencyAttrMissing("ETH");
    CurrencyAttrMissing("TRX");
  }

  /** `Triggers` itself defines neither currency name. */
  lemma TriggersOwnNoCurrency()
    ensures OwnAttr(TriggersClass.attrs, "BTC") == None && OwnAttr(TriggersClass.attrs, "TON") == None
  {
  }

  /** `BaseTriggers` defines both currency names. */
  lemma BaseOwnsCurrencies()
    ensures OwnAttr(BaseTriggersClass.attrs, "BTC") == Some(PyStr(BTC))
    ensures OwnAttr(BaseTriggersClass.attrs, "TON") == Some(PyStr(TON))
  {
  }
}
