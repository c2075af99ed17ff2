/**
 * The record normalisation of app.js: the `/api/me` mapping and its offline fallbacks in
 * `fetchUser`, the catalog and its two fixed fallback lists in `fetchLootboxes`, and the
 * field defaults that `renderUser` and `renderLootboxes` apply before displaying.
 */
module AppData {
  import opened Wrappers
  import opened Js
  import opened Http
  import opened Telegram

  /** `BROWSER_MOCK_USER` */
  const BrowserMockUser: Value :=
    Record(map["id" := Num(0), "username" := Str("demo_user"), "full_name" := Str("Demo User"),
               "xp_balance" := Num(1000)])

  lemma MockUserFields()
    ensures Get(BrowserMockUser, "full_name") == Str("Demo User")
    ensures Get(BrowserMockUser, "xp_balance") == Num(1000) && Get(BrowserMockUser, "is_admin") == Undefined
  {
    assert "is_admin" !in BrowserMockUser.fields;
  }

  /**
   * The `/api/me` body mapped to the shape the UI uses; `None` when reading `data.id`
   * throws, which sends `fetchUser` to its fallback.
   */
  function MeUser(data: Value): (r: Option<Value>)
    ensures r.None? <==> Nullish(data)
    ensures r.Some? ==> r.value.Record? && r.value.fields.Keys == {"id", "username", "full_name", "xp_balance", "is_admin"}
    ensures r.Some? ==> Get(r.value, "id") == Get(data, "id")
    ensures r.Some? ==> Get(r.value, "is_admin") == Bool(Truthy(Get(data, "is_admin")))
    ensures r.Some? ==> Truthy(Get(r.value, "full_name")) && !Get(r.value, "xp_balance").Undefined?
  {
    if Nullish(data) then None
    else
      var xp, balance := Get(data, "xp"), Get(data, "xp_balance");
      Some(Record(map[
        "id" := Get(data, "id"),
        "username" := Or(Get(data, "username"), Or(Get(data, "name"), Null)),
        "full_name" := Or(Get(data, "full_name"), Or(Get(data, "name"), Or(Get(data, "username"), Str("Guest")))),
        "xp_balance" := if !xp.Undefined? then xp else if !balance.Undefined? then balance else Num(0),
        "is_admin" := Bool(Truthy(Get(data, "is_admin")))]))
  }

  /** The balance is the first DEFINED of `xp` and `xp_balance`, else 0: a 0 or a null is kept, not skipped. */
  lemma MeBalanceSource(data: Value)
    requires !Nullish(data)
    ensures !Get(data, "xp").Undefined? ==> Get(MeUser(data).value, "xp_balance") == Get(data, "xp")
    ensures Get(data, "xp").Undefined? && !Get(data, "xp_balance").Undefined? ==>
      Get(MeUser(data).value, "xp_balance") == Get(data, "xp_balance")
    ensures Get(data, "xp").Undefined? && Get(data, "xp_balance").Undefined? ==>
      Get(MeUser(data).value, "xp_balance") == Num(0)
    ensures Get(data, "xp") == Num(0) ==> Get(MeUser(data).value, "xp_balance") == Num(0)
  {
  }

  /** `full_name` is the first truthy of `full_name`, `name`, `username`, else 'Guest'; `username` the first truthy of `username`, `name`, else null. */
  lemma MeNameFallbacks(data: Value)
    requires !Nullish(data)
    ensures var fn, name, un := Get(data, "full_name"), Get(data, "name"), Get(data, "username");
      var out := Get(MeUser(data).value, "full_name");
      && (Truthy(fn) ==> out == fn)
      && (!Truthy(fn) && Truthy(name) ==> out == name)
      && (!Truthy(fn) && !Truthy(name) && Truthy(un) ==> out == un)
      && (!Truthy(fn) && !Truthy(name) && !Truthy(un) ==> out == Str("Guest"))
    ensures var name, un := Get(data, "name"), Get(data, "username");
      var out := Get(MeUser(data).value, "username");
      && (Truthy(un) ==> out == un)
      && (!Truthy(un) && Truthy(name) ==> out == name)
      && (!Truthy(un) && !Truthy(name) ==> out == Null)
  {
  }

  /**
   * The server's `UserPublic` shape `{ id, name, xp, is_admin }` maps to the UI shape with the
   * name as both user name and display name and `xp` as the balance.
   */
  lemma MeUserPublic(id: Value, name: string, xp: int, admin: bool)
    requires name != ""
    ensures MeUser(Record(map["id" := id, "name" := Str(name), "xp" := Num(xp), "is_admin" := Bool(admin)])) ==
      Some(Record(map["id" := id, "username" := Str(name), "full_name" := Str(name), "xp_balance" := Num(xp),
                      "is_admin" := Bool(admin)]))
  {
    var data := Record(map["id" := id, "name" := Str(name), "xp" := Num(xp), "is_admin" := Bool(admin)]);
    assert Get(data, "username") == Undefined && Get(data, "full_name") == Undefined;
    assert Get(data, "name") == Str(name) && Get(data, "xp") == Num(xp) && Get(data, "is_admin") == Bool(admin);
  }

  predicate StringOrAbsent(v: Value)
  {
    v.Undefined? || v.Str?
  }

  /** With string-or-absent name fields the display name is a non-empty string, the first non-empty one. */
  lemma MeFullNameNonEmpty(data: Value)
    requires !Nullish(data)
    requires StringOrAbsent(Get(data, "full_name")) && StringOrAbsent(Get(data, "name"))
    requires StringOrAbsent(Get(data, "username"))
    ensures Get(MeUser(data).value, "full_name").Str? && Get(MeUser(data).value, "full_name").s != ""
    ensures Get(data, "full_name") == Str("") && Get(data, "name").Undefined? && Get(data, "username").Undefined? ==>
      Get(MeUser(data).value, "full_name") == Str("Guest")
  {
  }

  /** `${first_name || ''} ${last_name || ''}`.trim() */
  function OfflineJoinedName(u: Value): string
  {
    Trim(ToString(Or(Get(u, "first_name"), Str(""))) + " " + ToString(Or(Get(u, "last_name"), Str(""))))
  }

  /** `${first_name || ''} ${last_name || ''}`.trim() || username || 'Telegram User' */
  function OfflineFullName(u: Value): (r: Value)
    ensures Truthy(r)
    ensures var joined := OfflineJoinedName(u);
      && (joined != "" ==> r == Str(joined))
      && (joined == "" && Truthy(Get(u, "username")) ==> r == Get(u, "username"))
      && (joined == "" && !Truthy(Get(u, "username")) ==> r == Str("Telegram User"))
  {
    Or(Str(OfflineJoinedName(u)), Or(Get(u, "username"), Str("Telegram User")))
  }

  /** The user built from `tg.initDataUnsafe.user` when the API cannot be reached. */
  function TelegramOfflineUser(u: Value): (r: Value)
    ensures r.Record? && r.fields.Keys == {"id", "username", "full_name", "xp_balance"}
    ensures Truthy(Get(r, "full_name")) && Get(r, "xp_balance") == Num(0)
    ensures Truthy(Get(r, "id")) ==> Get(r, "id") == Get(u, "id")
    ensures Truthy(Get(u, "id")) ==> Get(r, "id") == Get(u, "id")
    ensures !Truthy(Get(u, "id")) ==> Get(r, "id") == Num(0)
    ensures Get(r, "username") == (if Truthy(Get(u, "username")) then Get(u, "username") else Null)
    ensures Get(r, "full_name") == OfflineFullName(u)
  {
    var id, name := Or(Get(u, "id"), Num(0)), OfflineFullName(u);
    var fields := map["id" := id, "username" := Or(Get(u, "username"), Null), "full_name" := name, "xp_balance" := Num(0)];
    assert fields["full_name"] == name && fields["xp_balance"] == Num(0) && fields["id"] == id;
    assert fields["username"] == Or(Get(u, "username"), Null);
    assert fields.Keys == {"id", "username", "full_name", "xp_balance"};
    Record(fields)
  }

  /** A name with a missing last name loses the joining space; an all-blank name falls back. */
  lemma TelegramOfflineName(u: Value, first: string)
    requires first != [] && !IsSpace(first[0]) && !IsSpace(first[|first| - 1])
    requires Get(u, "first_name") == Str(first) && Get(u, "last_name").Undefined?
    ensures Get(TelegramOfflineUser(u), "full_name") == Str(first)
  {
    assert ToString(Or(Get(u, "first_name"), Str(""))) == first;
    assert ToString(Or(Get(u, "last_name"), Str(""))) == "";
    assert first + " " + "" == first + " ";
    TrimTrailingSpace(first);
    assert OfflineFullName(u) == Str(first);
  }

  /** First and last name are joined by one space. */
  lemma TelegramOfflineFullName(u: Value, first: string, last: string)
    requires first != [] && !IsSpace(first[0])
    requires last != [] && !IsSpace(last[|last| - 1])
    requires Get(u, "first_name") == Str(first) && Get(u, "last_name") == Str(last)
    ensures Get(TelegramOfflineUser(u), "full_name") == Str(first + " " + last)
  {
    var s := first + " " + last;
    assert ToString(Or(Get(u, "first_name"), Str(""))) == first;
    assert ToString(Or(Get(u, "last_name"), Str(""))) == last;
    assert s[0] == first[0] && s[|s| - 1] == last[|last| - 1];
    TrimWord(s);
    assert OfflineJoinedName(u) == s;
  }

  lemma TelegramOfflineBlankName(u: Value)
    requires Get(u, "first_name").Undefined? && Get(u, "last_name").Undefined?
    requires Get(u, "username").Undefined?
    ensures Get(TelegramOfflineUser(u), "full_name") == Str("Telegram User")
  {
    assert TrimStart(" ") == "";
  }

  /**
   * `fetchUser()`: the mock user when no API is configured; the mapped `/api/me` body when
   * the call succeeds; otherwise the Telegram user if the WebApp offers one, else the mock.
   */
  function FetchUser(apiConfigured: bool, reply: Reply, webApp: Option<WebApp>): (r: Value)
    ensures r.Record? && Truthy(Get(r, "full_name")) && !Get(r, "xp_balance").Undefined?
    ensures Truthy(Get(r, "is_admin")) ==>
      apiConfigured && OkBody(reply).Some? && Truthy(Get(OkBody(reply).value, "is_admin"))
    ensures !apiConfigured ==> r == BrowserMockUser
    ensures apiConfigured && OkBody(reply).Some? && MeUser(OkBody(reply).value).Some? ==>
      r == MeUser(OkBody(reply).value).value
    ensures apiConfigured && (OkBody(reply).None? || MeUser(OkBody(reply).value).None?) ==>
      r == (if webApp.Some? && Truthy(UnsafeUser(webApp.value)) then TelegramOfflineUser(UnsafeUser(webApp.value))
            else BrowserMockUser)
  {
    MockUserFields();
    if !apiConfigured then BrowserMockUser
    else if OkBody(reply).Some? && MeUser(OkBody(reply).value).Some? then MeUser(OkBody(reply).value).value
    else if webApp.Some? && Truthy(UnsafeUser(webApp.value)) then
      var t := TelegramOfflineUser(UnsafeUser(webApp.value));
      assert "is_admin" !in t.fields;
      t
    else BrowserMockUser
  }

  /** One catalog entry in the server's format. */
  function Box(id: string, name: string, cost: int, prizes: seq<string>): (r: Value)
    ensures Get(r, "id") == Str(id)
  {
    Record(map["id" := Str(id), "name" := Str(name), "cost_xp" := Num(cost),
               "prize_preview" := List(seq(|prizes|, i requires 0 <= i < |prizes| => Str(prizes[i])))])
  }

  /** The catalog `fetchLootboxes` returns when no API is configured. */
  const LocalCatalog: seq<Value> := [
    Box("lb-200", "Bronze Box", 200, ["Sticker", "Small Coil"]),
    Box("lb-500", "Silver Box", 500, ["Pod", "E-liquid 10ml"]),
    Box("lb-1000", "Gold Box", 1000, ["Battery", "E-liquid 50ml"])]

  /** The catalog `fetchLootboxes` returns when the API call fails. */
  const DemoCatalog: seq<Value> := [
    Box("lb-demo-1", "Bronze Box", 200, ["Small Coil", "Sticker", "5% off"]),
    Box("lb-demo-2", "Silver Box", 500, ["Pod", "E-liquid 10ml", "10% off"]),
    Box("lb-demo-3", "Gold Box", 1000, ["Battery", "E-liquid 50ml", "20% off"])]

  /** A box that can be displayed and opened: a string id, a positive price, a non-empty prize list of strings. */
  predicate WellFormedBox(box: Value)
  {
    && Get(box, "id").Str?
    && Get(box, "cost_xp").Num? && Get(box, "cost_xp").n > 0
    && Get(box, "prize_preview").List? && |Get(box, "prize_preview").items| > 0
    && forall i :: 0 <= i < |Get(box, "prize_preview").items| ==> Get(box, "prize_preview").items[i].Str?
  }

  predicate DistinctIds(boxes: seq<Value>)
  {
    forall i, j :: 0 <= i < j < |boxes| ==> Get(boxes[i], "id") != Get(boxes[j], "id")
  }

  lemma BoxWellFormed(id: string, name: string, cost: int, prizes: seq<string>)
    requires cost > 0 && |prizes| > 0
    ensures WellFormedBox(Box(id, name, cost, prizes))
  {
    var items := Get(Box(id, name, cost, prizes), "prize_preview").items;
    assert |items| == |prizes|;
    assert forall i :: 0 <= i < |items| ==> items[i] == Str(prizes[i]);
  }

  /** The local catalog holds three well-formed boxes with distinct ids. */
  lemma LocalCatalogWellFormed()
    ensures |LocalCatalog| == 3 && DistinctIds(LocalCatalog)
    ensures forall i :: 0 <= i < |LocalCatalog| ==> WellFormedBox(LocalCatalog[i])
  {
    BoxWellFormed("lb-200", "Bronze Box", 200, ["Sticker", "Small Coil"]);
    BoxWellFormed("lb-500", "Silver Box", 500, ["Pod", "E-liquid 10ml"]);
    BoxWellFormed("lb-1000", "Gold Box", 1000, ["Battery", "E-liquid 50ml"]);
    assert "lb-200"[3] != "lb-500"[3] && "lb-200"[3] != "lb-1000"[3] && |"lb-500"| != |"lb-1000"|;
  }

  /** The demo catalog holds three well-formed boxes with distinct ids. */
  lemma DemoCatalogWellFormed()
    ensures |DemoCatalog| == 3 && DistinctIds(DemoCatalog)
    ensures forall i :: 0 <= i < |DemoCatalog| ==> WellFormedBox(DemoCatalog[i])
  {
    BoxWellFormed("lb-demo-1", "Bronze Box", 200, ["Small Coil", "Sticker", "5% off"]);
    BoxWellFormed("lb-demo-2", "Silver Box", 500, ["Pod", "E-liquid 10ml", "10% off"]);
    BoxWellFormed("lb-demo-3", "Gold Box", 1000, ["Battery", "E-liquid 50ml", "20% off"]);
    assert "lb-demo-1"[8] != "lb-demo-2"[8] && "lb-demo-1"[8] != "lb-demo-3"[8] && "lb-demo-2"[8] != "lb-demo-3"[8];
  }

  /**
   * `fetchLootboxes()`: the local list without an API, the body of a successful call as it
   * is, and the demo list whenever the call fails.
   */
  function FetchLootboxes(apiConfigured: bool, reply: Reply): (r: Value)
    ensures !apiConfigured ==> r == List(LocalCatalog)
    ensures apiConfigured && OkBody(reply).None? ==> r == List(DemoCatalog)
    ensures apiConfigured && OkBody(reply).Some? ==> r == OkBody(reply).value
  {
    if !apiConfigured then List(LocalCatalog)
    else match OkBody(reply)
      case Some(data) => data
      case None => List(DemoCatalog)
  }

  /** A reachable API that answers with an empty list leaves the catalog empty: no fallback. */
  lemma EmptyCatalogPassesThrough(status: int)
    requires IsOk(status)
    ensures FetchLootboxes(true, Response(status, Some(List([])))) == List([])
  {
  }

  /** The title, price and prize list a box card shows. */
  datatype BoxCard = BoxCard(title: Value, cost: Value, prizes: Value)

  /** The field defaults of `renderLootboxes`; `None` when the box is null or undefined, whose field reads throw. */
  function BoxView(box: Value): (r: Option<BoxCard>)
    ensures r.None? <==> Nullish(box)
    // title: `box.name ?? box.title ?? 'Unnamed Box'`
    ensures r.Some? && !Nullish(Get(box, "name")) ==> r.value.title == Get(box, "name")
    ensures r.Some? && Nullish(Get(box, "name")) && !Nullish(Get(box, "title")) ==> r.value.title == Get(box, "title")
    ensures r.Some? && Nullish(Get(box, "name")) && Nullish(Get(box, "title")) ==> r.value.title == Str("Unnamed Box")
    // price: `box.cost_xp ?? box.cost ?? 0`
    ensures r.Some? && !Nullish(Get(box, "cost_xp")) ==> r.value.cost == Get(box, "cost_xp")
    ensures r.Some? && Nullish(Get(box, "cost_xp")) && !Nullish(Get(box, "cost")) ==> r.value.cost == Get(box, "cost")
    ensures r.Some? && Nullish(Get(box, "cost_xp")) && Nullish(Get(box, "cost")) ==> r.value.cost == Num(0)
    // prizes: an array preview as is, a truthy non-array preview wrapped, otherwise `box.prizes || []`
    ensures r.Some? && Get(box, "prize_preview").List? ==> r.value.prizes == Get(box, "prize_preview")
    ensures r.Some? && !Get(box, "prize_preview").List? && Truthy(Get(box, "prize_preview")) ==>
      r.value.prizes == List([Get(box, "prize_preview")])
    ensures r.Some? && !Truthy(Get(box, "prize_preview")) && Truthy(Get(box, "prizes")) ==> r.value.prizes == Get(box, "prizes")
    ensures r.Some? && !Truthy(Get(box, "prize_preview")) && !Truthy(Get(box, "prizes")) ==> r.value.prizes == List([])
  {
    if Nullish(box) then None
    else
      var preview := Get(box, "prize_preview");
      Some(BoxCard(
        Coalesce(Get(box, "name"), Coalesce(Get(box, "title"), Str("Unnamed Box"))),
        Coalesce(Get(box, "cost_xp"), Coalesce(Get(box, "cost"), Num(0))),
        if preview.List? then preview
        else if Truthy(preview) then List([preview])
        else Or(Get(box, "prizes"), List([]))))
  }

  /** A well-formed catalog box is shown with its own name, price and prize list. */
  lemma BoxViewOfCatalogBox(id: string, name: string, cost: int, prizes: seq<string>)
    ensures var box := Box(id, name, cost, prizes);
      BoxView(box) == Some(BoxCard(Str(name), Num(cost), Get(box, "prize_preview")))
  {
    var box := Box(id, name, cost, prizes);
    assert Get(box, "name") == Str(name) && Get(box, "cost_xp") == Num(cost);
    assert Get(box, "prize_preview").List?;
  }

  /** The greeting name of `renderUser`: `(user && (user.full_name || user.username)) || 'Guest'`, never empty. */
  function DisplayName(user: Value): (r: Value)
    ensures Truthy(r)
    ensures !Truthy(user) ==> r == Str("Guest")
    ensures Truthy(user) && Truthy(Get(user, "full_name")) ==> r == Get(user, "full_name")
    ensures Truthy(user) && !Truthy(Get(user, "full_name")) && Truthy(Get(user, "username")) ==> r == Get(user, "username")
    ensures Truthy(user) && !Truthy(Get(user, "full_name")) && !Truthy(Get(user, "username")) ==> r == Str("Guest")
  {
    Or(And(user, Or(Get(user, "full_name"), Get(user, "username"))), Str("Guest"))
  }

  /** The balance `renderUser` shows: `(user && (user.xp_balance ?? user.xp)) ?? 0`; never null or undefined. */
  function DisplayXp(user: Value): (r: Value)
    ensures !Nullish(r)
    ensures Nullish(user) ==> r == Num(0)
    ensures !Truthy(user) && !Nullish(user) ==> r == user
    ensures Truthy(user) && !Nullish(Get(user, "xp_balance")) ==> r == Get(user, "xp_balance")
    ensures Truthy(user) && Nullish(Get(user, "xp_balance")) && !Nullish(Get(user, "xp")) ==> r == Get(user, "xp")
    ensures Truthy(user) && Nullish(Get(user, "xp_balance")) && Nullish(Get(user, "xp")) ==> r == Num(0)
  {
    Coalesce(And(user, Coalesce(Get(user, "xp_balance"), Get(user, "xp"))), Num(0))
  }

  /** The greeting shows the name `fetchUser` settled on, and a non-null balance it settled on. */
  lemma DisplayOfFetchedUser(apiConfigured: bool, reply: Reply, webApp: Option<WebApp>)
    ensures var u := FetchUser(apiConfigured, reply, webApp);
      && DisplayName(u) == Get(u, "full_name")
      && (!Get(u, "xp_balance").Null? ==> DisplayXp(u) == Get(u, "xp_balance"))
  {
  }
}
