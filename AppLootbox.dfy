/**
 * The lootbox transaction of app.js: `openLootbox` (its local simulation, which spends from
 * the user object in place, and its online branch, which maps the HTTP reply), and the
 * click handler that finds the box behind a button and reconciles the cached balance.
 *
 * `Math.random` becomes the caller's `draw`; the 500 ms `setTimeout` between the
 * affordability check and the spend is not modelled (a single writer is assumed).
 */
module AppLootbox {
  import opened Wrappers
  import opened Js
  import opened Http
  import opened Html

  /** What a rejected promise carries: an `Error` with its message, or an engine error (a TypeError, a SyntaxError) whose text is the engine's. */
  datatype Thrown = Error(message: string) | EngineError

  /** The two balance fields of a user object; an absent field is `Undefined`. */
  datatype Wallet = Wallet(xpBalance: Value, xp: Value)

  /** `user.xp_balance ?? user.xp` */
  function Balance(w: Wallet): (r: Value)
    ensures !Nullish(w.xpBalance) ==> r == w.xpBalance
    ensures Nullish(w.xpBalance) ==> r == w.xp
  {
    Coalesce(w.xpBalance, w.xp)
  }

  /** `box.cost_xp ?? box.cost` */
  function Cost(box: Value): (r: Value)
    ensures !Nullish(Get(box, "cost_xp")) ==> r == Get(box, "cost_xp")
    ensures Nullish(Get(box, "cost_xp")) ==> r == Get(box, "cost")
  {
    Coalesce(Get(box, "cost_xp"), Get(box, "cost"))
  }

  /** The elements `prizes[i]` can reach: an array's items, a string's characters, nothing otherwise. */
  function PoolItems(v: Value): (r: seq<Value>)
    ensures v.List? ==> r == v.items
  {
    match v
    case List(items) => items
    case Str(s) => seq(|s|, i requires 0 <= i < |s| => Str([s[i]]))
    case _ => []
  }

  /** `box.prize_preview ?? box.prizes ?? []` */
  function PrizePool(box: Value): (r: seq<Value>)
    ensures Get(box, "prize_preview").List? ==> r == Get(box, "prize_preview").items
    ensures Nullish(Get(box, "prize_preview")) && Get(box, "prizes").List? ==> r == Get(box, "prizes").items
    ensures Nullish(Get(box, "prize_preview")) && Nullish(Get(box, "prizes")) ==> r == []
  {
    PoolItems(Coalesce(Get(box, "prize_preview"), Coalesce(Get(box, "prizes"), List([]))))
  }

  /** `Math.floor(Math.random() * prizes.length)` lies below the length; with no prizes it is 0. */
  predicate ValidDraw(box: Value, draw: nat)
  {
    if |PrizePool(box)| == 0 then draw == 0 else draw < |PrizePool(box)|
  }

  /** `prizes[draw] || 'Nothing'` */
  function Prize(box: Value, draw: nat): (r: Value)
    requires ValidDraw(box, draw)
    ensures Truthy(r)
    ensures r == Str("Nothing") || (draw < |PrizePool(box)| && r == PrizePool(box)[draw])
  {
    var pool := PrizePool(box);
    if draw < |pool| then Or(pool[draw], Str("Nothing")) else Str("Nothing")
  }

  /** The outcome of a local open: what the promise settles with, and the user's balance fields after. */
  datatype LocalOpen = LocalOpen(result: Result<Value, Thrown>, wallet: Wallet)

  /**
   * The local simulation of `openLootbox`: refuse when the balance is below the price,
   * otherwise debit the price from `xp_balance` (or, when that is undefined, from `xp`) and
   * report the prize and the balance left.
   */
  function OpenLocally(w: Wallet, box: Value, draw: nat): (o: LocalOpen)
    requires ValidDraw(box, draw)
    ensures o.result.Err? <==> Less(Balance(w), Cost(box))
    ensures o.result.Err? ==> o.result.error == Error("Not enough XP") && o.wallet == w
    ensures o.result.Ok? ==> Get(o.result.value, "remaining_xp") == Balance(o.wallet)
    ensures o.result.Ok? ==> Get(o.result.value, "prize") == Prize(box, draw)
    ensures o.result.Ok? && !w.xpBalance.Undefined? ==> o.wallet == w.(xpBalance := Sub(w.xpBalance, Cost(box)))
    ensures o.result.Ok? && w.xpBalance.Undefined? && !w.xp.Undefined? ==> o.wallet == w.(xp := Sub(w.xp, Cost(box)))
    ensures o.result.Ok? && w.xpBalance.Undefined? && w.xp.Undefined? ==> o.wallet == w
  {
    var cost := Cost(box);
    if Less(Balance(w), cost) then LocalOpen(Err(Error("Not enough XP")), w)
    else
      var after :=
        if !w.xpBalance.Undefined? then w.(xpBalance := Sub(w.xpBalance, cost))
        else if !w.xp.Undefined? then w.(xp := Sub(w.xp, cost))
        else w;
      var prize, remaining := Prize(box, draw), Balance(after);
      var fields := map["prize" := prize, "remaining_xp" := remaining];
      assert fields["prize"] == prize && fields["remaining_xp"] == remaining;
      LocalOpen(Ok(Record(fields)), after)
  }

  /**
   * With numeric balance and price: the open is refused exactly when the balance is below the
   * price; otherwise the balance drops by exactly the price and the reported remainder is the
   * new balance. (A `null` xp_balance is excluded: it is skipped by `??` but debited by the update.)
   */
  lemma LocalSpendExact(w: Wallet, box: Value, draw: nat, balance: int, cost: int)
    requires ValidDraw(box, draw)
    requires Balance(w) == Num(balance) && Cost(box) == Num(cost) && !w.xpBalance.Null?
    ensures OpenLocally(w, box, draw).result.Err? <==> balance < cost
    ensures OpenLocally(w, box, draw).result.Ok? ==>
      && Balance(OpenLocally(w, box, draw).wallet) == Num(balance - cost)
      && Get(OpenLocally(w, box, draw).result.value, "remaining_xp") == Num(balance - cost)
  {
  }

  /** When xp_balance is `null`, the check reads `xp` but the debit lands on xp_balance. */
  lemma LocalNullBalanceDebitsOtherField()
    ensures var box := Record(map["cost_xp" := Num(200), "prize_preview" := List([Str("Pod")])]);
      OpenLocally(Wallet(Null, Num(500)), box, 0) ==
      LocalOpen(Ok(Record(map["prize" := Str("Pod"), "remaining_xp" := Num(-200)])), Wallet(Num(-200), Num(500)))
  {
  }

  /** The prize is an element of the pool, or 'Nothing' when the pool is empty or the element falsy. */
  lemma LocalPrizeFromPool(w: Wallet, box: Value, draw: nat)
    requires ValidDraw(box, draw)
    requires OpenLocally(w, box, draw).result.Ok?
    ensures var prize := Get(OpenLocally(w, box, draw).result.value, "prize");
      (|PrizePool(box)| > 0 && Truthy(PrizePool(box)[draw]) && prize == PrizePool(box)[draw])
      || (prize == Str("Nothing") && (|PrizePool(box)| == 0 || !Truthy(PrizePool(box)[draw])))
  {
  }

  /** A one-prize pool always yields that prize. */
  lemma LocalSingletonPool(w: Wallet, box: Value, draw: nat, p: string)
    requires PrizePool(box) == [Str(p)] && p != ""
    requires ValidDraw(box, draw)
    requires OpenLocally(w, box, draw).result.Ok?
    ensures draw == 0 && Get(OpenLocally(w, box, draw).result.value, "prize") == Str(p)
  {
  }

  /** Without prizes, a local open still succeeds and reports 'Nothing'. */
  lemma LocalEmptyPool(w: Wallet, box: Value)
    requires PrizePool(box) == [] && !Less(Balance(w), Cost(box))
    ensures OpenLocally(w, box, 0).result.Ok?
    ensures Get(OpenLocally(w, box, 0).result.value, "prize") == Str("Nothing")
  {
  }

  /** A user object as the click handler and the local open see it. */
  class User {
    var xpBalance: Value
    var xp: Value

    /** The balance fields as a value. */
    function Fields(): Wallet
      reads this
    {
      Wallet(xpBalance, xp)
    }

    /** Adopts the balance fields of a user record. */
    constructor (record: Value)
      ensures Fields() == Wallet(Get(record, "xp_balance"), Get(record, "xp"))
    {
      xpBalance := Get(record, "xp_balance");
      xp := Get(record, "xp");
    }

    /** `openLootbox(box, user)` without an API: the affordability check, then the in-place debit. */
    method OpenLocal(box: Value, draw: nat) returns (r: Result<Value, Thrown>)
      requires ValidDraw(box, draw)
      modifies this
      ensures r == OpenLocally(old(Fields()), box, draw).result
      ensures Fields() == OpenLocally(old(Fields()), box, draw).wallet
    {
      var cost := Coalesce(Get(box, "cost_xp"), Get(box, "cost"));
      var prizes := PrizePool(box);
      if Less(Coalesce(xpBalance, xp), cost) {
        return Err(Error("Not enough XP"));
      }
      var prize := if draw < |prizes| then Or(prizes[draw], Str("Nothing")) else Str("Nothing");
      if !xpBalance.Undefined? {
        xpBalance := Sub(xpBalance, cost);
      } else if !xp.Undefined? {
        xp := Sub(xp, cost);
      }
      r := Ok(Record(map["prize" := prize, "remaining_xp" := Coalesce(xpBalance, xp)]));
    }
  }

  /**
   * The online branch of `openLootbox`: a 400 raises the body's `detail` (or "Open failed"),
   * any other non-OK status raises "Open failed", and an OK reply yields its body.
   */
  function OpenOnline(reply: Reply): (r: Result<Value, Thrown>)
    ensures r.Ok? <==> OkBody(reply).Some?
    ensures r.Ok? ==> r.value == OkBody(reply).value
    ensures reply.Response? && reply.status != 400 && !IsOk(reply.status) ==> r == Err(Error("Open failed"))
    ensures reply.Response? && reply.status == 400 && reply.body.Some? && !Nullish(reply.body.value) ==>
      r == Err(Error(ToString(Or(Get(reply.body.value, "detail"), Str("Open failed")))))
    ensures r == Err(EngineError) <==>
      || reply.NoResponse?
      || (reply.status == 400 && (reply.body.None? || Nullish(reply.body.value)))
      || (IsOk(reply.status) && reply.body.None?)
  {
    match reply
    case NoResponse => Err(EngineError)
    case Response(status, body) =>
      if status == 400 then
        match body
        case None => Err(EngineError)
        case Some(b) =>
          // reading `detail` of a null body throws
          if Nullish(b) then Err(EngineError) else Err(Error(ToString(Or(Get(b, "detail"), Str("Open failed")))))
      else if !IsOk(status) then Err(Error("Open failed"))
      else
        match body
        case None => Err(EngineError)
        case Some(b) => Ok(b)
  }

  /** A 400 passes a non-empty string `detail` through as the message, and an empty one falls back. */
  lemma OnlineRejectionMessage(detail: string)
    ensures OpenOnline(Response(400, Some(Record(map["detail" := Str(detail)])))) ==
      Err(Error(if detail != "" then detail else "Open failed"))
  {
  }

  /** What the user is shown after a click. */
  datatype Notice =
    | Modal(text: string)  // `You won: ${result.prize}`
    | Toast(text: string)  // `err.message || 'Failed to open box'`
    | EngineErrorToast     // the toast of an engine error, whose text is the engine's

  /** The toast of the catch block: `err.message || 'Failed to open box'`. */
  function FailureNotice(e: Thrown): (n: Notice)
    ensures n.Toast? ==> n.text != ""
    ensures e.Error? && e.message != "" ==> n == Toast(e.message)
    ensures e.Error? && e.message == "" ==> n == Toast("Failed to open box")
    ensures e.EngineError? ==> n == EngineErrorToast
  {
    match e
    case Error(m) => Toast(if m != "" then m else "Failed to open box")
    case EngineError => EngineErrorToast
  }

  /** Where an open is settled: locally with a draw, or by the API's reply. */
  datatype OpenSource = Local(draw: nat) | Online(reply: Reply)

  /** The outcome of a click: the notice, and the current user's balance fields after (`None`: no current user). */
  datatype Click = Click(notice: Notice, wallet: Option<Wallet>)

  /** `remaining_xp` if defined, else `remainingXp` if defined. */
  function ReportedBalance(result: Value): (r: Option<Value>)
    ensures r.Some? ==> !r.value.Undefined?
    ensures !Get(result, "remaining_xp").Undefined? ==> r == Some(Get(result, "remaining_xp"))
    ensures Get(result, "remaining_xp").Undefined? && !Get(result, "remainingXp").Undefined? ==>
      r == Some(Get(result, "remainingXp"))
    ensures r.None? <==> Get(result, "remaining_xp").Undefined? && Get(result, "remainingXp").Undefined?
  {
    if !Get(result, "remaining_xp").Undefined? then Some(Get(result, "remaining_xp"))
    else if !Get(result, "remainingXp").Undefined? then Some(Get(result, "remainingXp"))
    else None
  }

  /** The handler of an Open button, once the box is found. */
  function Clicked(user: Option<Wallet>, box: Value, source: OpenSource): (c: Click)
    requires source.Local? ==> ValidDraw(box, source.draw)
    ensures c.wallet.None? <==> user.None?
    ensures source.Online? && !c.notice.Modal? ==> c.wallet == user
    ensures source.Local? && user.Some? && Less(Balance(user.value), Cost(box)) ==>
      c == Click(Toast("Not enough XP"), user)
  {
    var (r, after) :=
      match source
      case Local(draw) =>
        if user.None? then (Err(EngineError), user)  // `user.xp_balance` of null throws
        else (OpenLocally(user.value, box, draw).result, Some(OpenLocally(user.value, box, draw).wallet))
      case Online(reply) => (OpenOnline(reply), user);
    if r.Err? then Click(FailureNotice(r.error), after)
    else if Nullish(r.value) then Click(EngineErrorToast, after)  // reading a field of a null result throws
    else
      var won := Modal("You won: " + ToString(Get(r.value, "prize")));
      match ReportedBalance(r.value)
      case None => Click(won, after)
      case Some(v) =>
        if after.None? then Click(EngineErrorToast, after)  // assigning to a field of null throws
        else Click(won, Some(after.value.(xpBalance := v)))
  }

  /** A failed open, local or online, changes nothing and shows no prize. */
  lemma ClickFailureKeepsBalance(user: Option<Wallet>, box: Value, source: OpenSource)
    requires source.Local? ==> ValidDraw(box, source.draw)
    requires source.Online? ==> OpenOnline(source.reply).Err?
    requires source.Local? ==> user.None? || Less(Balance(user.value), Cost(box))
    ensures Clicked(user, box, source).wallet == user
    ensures !Clicked(user, box, source).notice.Modal?
  {
  }

  /** A successful online open adopts the server's balance, preferring `remaining_xp`. */
  lemma ClickAdoptsServerBalance(w: Wallet, box: Value, reply: Reply)
    requires OkBody(reply).Some? && !Nullish(OkBody(reply).value)
    ensures var body := OkBody(reply).value;
      Clicked(Some(w), box, Online(reply)).wallet ==
        (match ReportedBalance(body) case Some(v) => Some(w.(xpBalance := v)) case None => Some(w))
    ensures !Get(OkBody(reply).value, "remaining_xp").Undefined? ==>
      Clicked(Some(w), box, Online(reply)).wallet.value.xpBalance == Get(OkBody(reply).value, "remaining_xp")
    ensures Clicked(Some(w), box, Online(reply)).notice ==
      Modal("You won: " + ToString(Get(OkBody(reply).value, "prize")))
  {
  }

  /** Local and reconciled balances agree: after a local open the shown balance is the old one minus the price. */
  lemma ClickLocalAgrees(w: Wallet, box: Value, draw: nat, balance: int, cost: int)
    requires ValidDraw(box, draw)
    requires Balance(w) == Num(balance) && Cost(box) == Num(cost) && !w.xpBalance.Null?
    requires cost <= balance
    ensures Clicked(Some(w), box, Local(draw)).wallet.Some?
    ensures Balance(Clicked(Some(w), box, Local(draw)).wallet.value) == Num(balance - cost)
    ensures Clicked(Some(w), box, Local(draw)).notice == Modal("You won: " + ToString(Prize(box, draw)))
  {
    LocalSpendExact(w, box, draw, balance, cost);
  }

  /** The page's state: the user whose balance is shown (`null` when initialisation found none). */
  class Page {
    var currentUser: User?

    /** The click handler of an Open button (app.js, `renderLootboxes`), once the box is found. */
    method OpenClicked(box: Value, source: OpenSource) returns (notice: Notice)
      requires source.Local? ==> ValidDraw(box, source.draw)
      modifies currentUser
      ensures currentUser == old(currentUser)
      ensures var c := Clicked(if currentUser == null then None else Some(old(currentUser.Fields())), box, source);
        notice == c.notice && (currentUser != null ==> Some(currentUser.Fields()) == c.wallet)
    {
      var r: Result<Value, Thrown>;
      match source {
        case Local(draw) =>
          if currentUser == null {
            r := Err(EngineError);
          } else {
            r := currentUser.OpenLocal(box, draw);
          }
        case Online(reply) =>
          r := OpenOnline(reply);
      }
      if r.Err? {
        notice := FailureNotice(r.error);
        return;
      }
      var result := r.value;
      if Nullish(result) {
        notice := EngineErrorToast;
        return;
      }
      if !Get(result, "remaining_xp").Undefined? {
        if currentUser == null {
          notice := EngineErrorToast;
          return;
        }
        currentUser.xpBalance := Get(result, "remaining_xp");
      } else if !Get(result, "remainingXp").Undefined? {
        if currentUser == null {
          notice := EngineErrorToast;
          return;
        }
        currentUser.xpBalance := Get(result, "remainingXp");
      }
      notice := Modal("You won: " + ToString(Get(result, "prize")));
    }
  }

  // ---------------------------------------------------------------------------------------
  // Finding the box behind a button

  /** The `data-id` attribute as the browser reads it back: `escapeHtml(box.id)` decoded. */
  function ButtonId(box: Value): (r: string)
    ensures Truthy(Get(box, "id")) ==> r == ToString(Get(box, "id"))
    ensures !Truthy(Get(box, "id")) ==> r == ""
  {
    var id := Get(box, "id");
    if Truthy(id) then UnescapeEscapeHtml(id); Unescape(EscapeHtml(id))
    else Unescape(EscapeHtml(id))
  }

  /** `boxes.find(b => String(b.id) === String(id))`, as an index. */
  function FindBox(boxes: seq<Value>, id: string): (r: Option<nat>)
    ensures r.Some? ==> r.value < |boxes| && ToString(Get(boxes[r.value], "id")) == id
    ensures r.Some? ==> forall j :: 0 <= j < r.value ==> ToString(Get(boxes[j], "id")) != id
    ensures r.None? ==> forall j :: 0 <= j < |boxes| ==> ToString(Get(boxes[j], "id")) != id
  {
    if boxes == [] then None
    else if ToString(Get(boxes[0], "id")) == id then Some(0)
    else match FindBox(boxes[1..], id)
      case Some(i) => Some(i + 1)
      case None => None
  }

  /** A box whose id is truthy is found from its own button: it, or an earlier box with the same id string. */
  lemma ButtonFindsItsBox(boxes: seq<Value>, k: nat)
    requires k < |boxes| && Truthy(Get(boxes[k], "id"))
    ensures FindBox(boxes, ButtonId(boxes[k])).Some?
    ensures FindBox(boxes, ButtonId(boxes[k])).value <= k
  {
  }

  /** As written: the button of a box whose id is 0 carries an empty id, and clicking it does nothing. */
  lemma FalsyIdButtonIsInert()
    ensures var boxes := [Record(map["id" := Num(0), "cost_xp" := Num(200)])];
      ButtonId(boxes[0]) == "" && FindBox(boxes, ButtonId(boxes[0])).None?
  {
  }

  /** The evidently intended attribute: `String(box.id)` escaped, whatever its truthiness. */
  function IntendedButtonId(box: Value): string
  {
    Unescape(EscapeText(ToString(Get(box, "id"))))
  }

  /** With the intended attribute every button finds its box, whatever the id. */
  lemma IntendedButtonFindsItsBox(boxes: seq<Value>, k: nat)
    requires k < |boxes|
    ensures FindBox(boxes, IntendedButtonId(boxes[k])).Some?
    ensures FindBox(boxes, IntendedButtonId(boxes[k])).value <= k
  {
    UnescapeEscapeText(ToString(Get(boxes[k], "id")));
  }

  // ---------------------------------------------------------------------------------------
  // Scenarios

  /** Balance 1000 and price 1000: the open leaves 0, and a second open of the same box is refused. */
  lemma ScenarioSpendToZero(draw: nat)
    requires draw < 2
    ensures var box := Record(map["id" := Str("lb-1000"), "cost_xp" := Num(1000),
                                  "prize_preview" := List([Str("Battery"), Str("E-liquid 50ml")])]);
      var first := OpenLocally(Wallet(Num(1000), Undefined), box, draw);
      && Get(first.result.value, "remaining_xp") == Num(0)
      && OpenLocally(first.wallet, box, draw) == LocalOpen(Err(Error("Not enough XP")), first.wallet)
  {
  }

  /** A one-prize box of price 200 opened with 500: 'Sticker' and 300 left. */
  lemma ScenarioSticker()
    ensures var box := Record(map["id" := Str("lb-demo"), "cost_xp" := Num(200), "prize_preview" := List([Str("Sticker")])]);
      OpenLocally(Wallet(Num(500), Undefined), box, 0).result ==
        Ok(Record(map["prize" := Str("Sticker"), "remaining_xp" := Num(300)]))
  {
  }

  /** The API refuses with 400 "Not enough XP": the message is shown and the balance kept. */
  lemma ScenarioServerRefusal(w: Wallet, box: Value)
    ensures var reply := Response(400, Some(Record(map["detail" := Str("Not enough XP")])));
      Clicked(Some(w), box, Online(reply)) == Click(Toast("Not enough XP"), Some(w))
  {
  }
}
