/** database/check.py: check records, created with status `new`. */
module Checks {
  import opened Json
  import opened Decimals
  import opened Vouchers
  import Utils

  // `CheckStatus` (database/check.py:8-11).
  const NEW := "new"
  const WINNING := "winning"
  const CASHED := "cashed"

  /** `create_check(user, amount, cryptocurrency)` (database/check.py:14-30): one new record in
      `checks` with status `new`, the amount as `str(amount)` and the caller's user id and
      currency; the same record is returned. */
  method CreateCheck(checks: VoucherTable, user: map<string, Json>, amount: Decimal, cryptocurrency: string,
                     uuid: seq<Utils.Byte>, now: int) returns (check: Voucher)
    requires |uuid| == 16
    modifies checks
    ensures check == NewVoucher(user, amount, cryptocurrency, now, NEW, Utils.UniqueCode(uuid))
    ensures check.status == NEW && check.amount == amount && check.cryptocurrency == cryptocurrency
    ensures check.userId == UserIdOf(user) && check.creationDate == now
    ensures check.code == Utils.UniqueCode(uuid) && |check.code| == 12
    ensures checks.rows == old(checks.rows) + [check]
  {
    Utils.UniqueCodeShape(uuid);
    check := checks.Create(user, amount, cryptocurrency, NEW, uuid, now);
  }
}
