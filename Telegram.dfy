/** The fields of `window.Telegram.WebApp` that the app and the admin page read. */
module Telegram {
  import opened Js

  /** `tg.initData` (the signed init string) and `tg.initDataUnsafe` (its parsed, unsigned form). */
  datatype WebApp = WebApp(initData: Value, initDataUnsafe: Value)

  /** `tg.initDataUnsafe.user` when `initDataUnsafe` is truthy, else that falsy value. */
  function UnsafeUser(tg: WebApp): Value
  {
    And(tg.initDataUnsafe, Get(tg.initDataUnsafe, "user"))
  }

  /** `tg.initData || tg.initDataUnsafe && tg.initDataUnsafe.initData` */
  function Signed(tg: WebApp): (r: Value)
    ensures Truthy(tg.initData) ==> r == tg.initData
    ensures !Truthy(tg.initData) && Truthy(tg.initDataUnsafe) ==> r == Get(tg.initDataUnsafe, "initData")
    ensures Truthy(r) ==> r == tg.initData || r == Get(tg.initDataUnsafe, "initData")
  {
    Or(tg.initData, And(tg.initDataUnsafe, Get(tg.initDataUnsafe, "initData")))
  }
}
