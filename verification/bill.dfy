/** database/bill.py: bill records, created with status `new`. */
module Bills {
  import opened Json
  import opened Decimals
  import opened Vouchers
  import Utils

  // `BillStatus` (database/bill.py:8-10).
  const NEW := "new"
  const PAYED := "payed"

  /** `create_bill(user, amount, cryptocurrency)` (database/bill.py:13-29): one new record in
      `bills` with status `new`, the amount as `str(amount)` and the caller's user id and
      currency; the same record is returned. */
  method CreateBill(bills: VoucherTable, user: map<string, Json>, amount: Decimal, cryptocurrency: string,
                     uuid: seq<Utils.Byte>, now: int) returns (bill: Voucher)
    requires |uuid| == 16
    modifies bills
    ensures bill == NewVoucher(user, amount, cryptocurrency, now, NEW, Utils.UniqueCode(uuid))
    ensures bill.status == NEW && bill.amount == amount && bill.cryptocurrency == cryptocurrency
    ensures bill.userId == UserIdOf(user) && bill.creationDate == now
    ensures bill.code == Utils.UniqueCode(uuid) && |bill.code| == 12
    ensures bills.rows == old(bills.rows) + [bill]
  {
    Utils.UniqueCodeShape(uuid);
    bill := bills.Create(user, amount, cryptocurrency, NEW, uuid, now);
  }
}
