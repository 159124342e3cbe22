/** The `checks` and `bills` collections of database/check.py and database/bill.py. Both hold
    the same record shape and are read and written the same way; they differ in the status
    constants and in which collection a record goes to. */
module Vouchers {
  import opened Wrappers
  import opened Json
  import opened Decimals
  import Utils

  /** A check or bill document. `amount` is stored as `str(amount)`, kept here with its value;
      `creationDate` is the creation time in seconds. */
  datatype Voucher = Voucher(
    userId: Json,
    amount: Decimal,
    cryptocurrency: string,
    creationDate: int,
    status: string,
    code: string)

  /** `user.get('user_id')`: the id, or `None` when the user dict has none. */
  function UserIdOf(user: map<string, Json>): (r: Json)
    ensures "user_id" in user ==> r == user["user_id"]
    ensures "user_id" !in user ==> r == JNull
  {
    if "user_id" in user then user["user_id"] else JNull
  }

  /** The record `create_check` / `create_bill` builds before inserting it. */
  function NewVoucher(user: map<string, Json>, amount: Decimal, cryptocurrency: string, now: int, status: string, code: string): Voucher
  {
    Voucher(UserIdOf(user), amount, cryptocurrency, now, status, code)
  }

  /** The record as the dictionary that is inserted and handed to templates. */
  function ToJson(v: Voucher): (j: Json)
    ensures j.JDict? && j.fields.Keys == {"user_id", "amount", "cryptocurrency", "creation_date", "status", "code"}
    ensures j.fields["amount"] == JStr(v.amount.text) && j.fields["code"] == JStr(v.code)
  {
    JDict(map["user_id" := v.userId, "amount" := JStr(v.amount.text), "cryptocurrency" := JStr(v.cryptocurrency),
              "creation_date" := JInt(v.creationDate), "status" := JStr(v.status), "code" := JStr(v.code)])
  }

  /** `find_one({"code": code})`: the first record, in stored order, with that code. */
  function FindByCode(rows: seq<Voucher>, code: string): (r: Option<Voucher>)
    ensures r.Some? ==> r.value in rows && r.value.code == code
    ensures r.None? <==> forall i :: 0 <= i < |rows| ==> rows[i].code != code
  {
    if rows == [] then None
    else if rows[0].code == code then Some(rows[0])
    else
      var r := FindByCode(rows[1..], code);
      assert forall i :: 1 <= i < |rows| ==> rows[i] == rows[1..][i - 1];
      r
  }

  /** `find({"user_id": user_id}).to_list(length=None)`: the user's records in stored order. */
  function FindByUser(rows: seq<Voucher>, userId: Json): (r: seq<Voucher>)
    ensures forall v :: v in r ==> v in rows && v.userId == userId
    ensures forall v :: multiset(r)[v] == if v.userId == userId then multiset(rows)[v] else 0
  {
    if rows == [] then []
    else
      var rest := FindByUser(rows[1..], userId);
      assert rows == [rows[0]] + rows[1..];
      if rows[0].userId == userId then [rows[0]] + rest else rest
  }

  /** The index of the first record with `code`, if any. */
  function FirstWithCode(rows: seq<Voucher>, code: string): (i: int)
    ensures -1 <= i < |rows|
    ensures i >= 0 ==> rows[i].code == code && forall j :: 0 <= j < i ==> rows[j].code != code
    ensures i < 0 ==> forall j :: 0 <= j < |rows| ==> rows[j].code != code
  {
    if rows == [] then -1
    else if rows[0].code == code then 0
    else
      var i := FirstWithCode(rows[1..], code);
      assert forall j :: 1 <= j < |rows| ==> rows[j] == rows[1..][j - 1];
      if i < 0 then -1 else i + 1
  }

  /** The collection after `delete_one({"code": code})`: the first record with the code is gone
      and the others keep their order. */
  function DeleteFirst(rows: seq<Voucher>, code: string): (r: seq<Voucher>)
    ensures FirstWithCode(rows, code) < 0 ==> r == rows
    ensures FirstWithCode(rows, code) >= 0 ==>
      |r| == |rows| - 1 && multiset(r) + multiset{rows[FirstWithCode(rows, code)]} == multiset(rows)
    ensures FirstWithCode(rows, code) >= 0 ==>
      (forall j :: 0 <= j < FirstWithCode(rows, code) ==> r[j] == rows[j]) &&
      (forall j :: FirstWithCode(rows, code) <= j < |r| ==> r[j] == rows[j + 1])
  {
    var i := FirstWithCode(rows, code);
    if i < 0 then rows
    else
      assert rows == rows[..i] + [rows[i]] + rows[i + 1..];
      rows[..i] + rows[i + 1..]
  }

  /** The record `find_one` returns for a code is the one `delete_one` removes. */
  lemma {:induction false} FindAndDeleteAgree(rows: seq<Voucher>, code: string)
    ensures FindByCode(rows, code).None? <==> FirstWithCode(rows, code) < 0
    ensures FindByCode(rows, code).Some? ==> FindByCode(rows, code).value == rows[FirstWithCode(rows, code)]
  {
    if rows != [] && rows[0].code != code {
      FindAndDeleteAgree(rows[1..], code);
    }
  }

  /** A just-inserted record is found by its user. */
  lemma InsertedFoundByUser(rows: seq<Voucher>, v: Voucher)
    ensures v in FindByUser(rows + [v], v.userId)
  {
    assert multiset(rows + [v])[v] >= 1;
  }

  /** One MongoDB collection of check or bill records, in insertion order. */
  class VoucherTable {
    var rows: seq<Voucher>

    constructor()
      ensures rows == []
    {
      rows := [];
    }

    /** `create_check` / `create_bill` (database/check.py:14-30): a new record with a fresh
        code, the given status and the caller's user id, amount and currency, inserted once and
        returned. `uuid` is the 16 random bytes behind the code, `now` the current time. */
    method Create(user: map<string, Json>, amount: Decimal, cryptocurrency: string, status: string,
                  uuid: seq<Utils.Byte>, now: int) returns (v: Voucher)
      requires |uuid| == 16
      modifies this
      ensures v == NewVoucher(user, amount, cryptocurrency, now, status, Utils.UniqueCode(uuid))
      ensures rows == old(rows) + [v]
    {
      var code := Utils.UniqueCode(uuid);
      v := Voucher(UserIdOf(user), amount, cryptocurrency, now, status, code);
      rows := rows + [v];
    }

    /** `delete_check_by_code` / `delete_bill_by_code` (database/check.py:39-41): remove the
        first record with the code and return how many were removed. */
    method DeleteByCode(code: string) returns (deleted: nat)
      modifies this
      ensures rows == DeleteFirst(old(rows), code)
      ensures deleted == |old(rows)| - |rows|
      ensures deleted <= 1
      ensures deleted == 1 <==> FindByCode(old(rows), code).Some?
    {
      FindAndDeleteAgree(rows, code);
      var before := rows;
      rows := DeleteFirst(rows, code);
      deleted := |before| - |rows|;
    }
  }
}
