/**
 * The decision logic of admin.js: the identity headers `apiMe` sends, the choice of the
 * admin token in `initAdmin` and the gate that decides whether the user list is fetched,
 * and the bearer header every admin request carries.
 */
module Admin {
  import opened Wrappers
  import opened Js
  import opened Http
  import opened HeaderMap
  import opened Telegram

  /**
   * The Telegram side of the admin page. With a WebApp, `polledUser` is what
   * `waitForTgUser` returned: the user once it appeared, or null after the timeout.
   */
  datatype TelegramPage = NoWebApp | WithWebApp(tg: WebApp, polledUser: Value)

  ghost const MeHeaderNames := {CONTENT_TYPE, USER_HEADER, INIT_DATA_HEADER}

  /** The header block of `apiMe()`. */
  method MeHeaders(page: TelegramPage, stringify: Value -> string) returns (h: Headers)
    ensures DistinctKeys(h) && |h| > 0 && h[0] == (CONTENT_TYPE, Str("application/json"))
    ensures NamesWithin(h, MeHeaderNames)
    ensures Lookup(h, USER_HEADER) ==
      (if page.WithWebApp? && Truthy(page.polledUser) then Some(Str(stringify(page.polledUser))) else None)
    ensures Lookup(h, USER_B64_HEADER).None?
    ensures Lookup(h, INIT_DATA_HEADER) ==
      (if page.WithWebApp? && Truthy(Signed(page.tg)) then Some(Signed(page.tg)) else None)
    ensures page.NoWebApp? ==> h == [(CONTENT_TYPE, Str("application/json"))]
  {
    h := [(CONTENT_TYPE, Str("application/json"))];
    match page {
      case WithWebApp(tg, maybeUser) =>
        if Truthy(maybeUser) {
          PutDistinct(h, USER_HEADER, Str(stringify(maybeUser)));
          PutWithin(h, USER_HEADER, Str(stringify(maybeUser)), MeHeaderNames);
          h := Put(h, USER_HEADER, Str(stringify(maybeUser)));
        }
        var signed := Or(tg.initData, And(tg.initDataUnsafe, Get(tg.initDataUnsafe, "initData")));
        if Truthy(signed) {
          PutDistinct(h, INIT_DATA_HEADER, signed);
          PutWithin(h, INIT_DATA_HEADER, signed, MeHeaderNames);
          h := Put(h, INIT_DATA_HEADER, signed);
        }
      case NoWebApp =>
    }
  }

  /** `await apiMe().catch(() => null)`: the body of a successful call, otherwise null. */
  function MeResult(reply: Reply): (r: Value)
    ensures OkBody(reply).None? ==> r == Null
    ensures OkBody(reply).Some? ==> r == OkBody(reply).value
  {
    match OkBody(reply)
    case Some(body) => body
    case None => Null
  }

  /** `tokenFromUrl || (me && me.admin_token)`, with the URL parameter a string or null. */
  function ChosenToken(tokenFromUrl: Option<string>, me: Value): (r: Value)
    ensures tokenFromUrl.Some? && tokenFromUrl.value != "" ==> r == Str(tokenFromUrl.value)
    ensures (tokenFromUrl.None? || tokenFromUrl.value == "") && Truthy(me) ==> r == Get(me, "admin_token")
    ensures Truthy(r) ==> (tokenFromUrl.Some? && r == Str(tokenFromUrl.value)) || r == Get(me, "admin_token")
  {
    var url := if tokenFromUrl.Some? then Str(tokenFromUrl.value) else Null;
    Or(url, And(me, Get(me, "admin_token")))
  }

  /** `!me || !me.is_admin` */
  predicate NotAdminPerMe(me: Value)
  {
    !Truthy(me) || !Truthy(Get(me, "is_admin"))
  }

  /** Where `initAdmin` ends. */
  datatype Outcome =
    | NotAdmin                // "You are not an admin or authentication failed."
    | NoToken                 // "No admin token available."
    | ShowUsers(token: Value)   // the user list was fetched with this token
    | UsersFailed(token: Value) // fetching the user list with this token failed

  /** The state `initAdmin` leaves: the info line, the outcome, and the Telegram user id the dev-token endpoint was asked about. */
  datatype AdminRun = AdminRun(info: string, outcome: Outcome, devLookup: Option<Value>)

  const NotAdminText := "You are not an admin or authentication failed."
  const FailedText := "Failed to initialize admin panel."

  /**
   * `initAdmin()`. `tgUser` is `window.Telegram.WebApp.initDataUnsafe.user` (falsy when any
   * link of that chain is missing); `devReply` is the dev-token endpoint's reply, read only
   * if the endpoint is called; `usersOk` is whether fetching the user list succeeds.
   */
  function InitAdmin(tokenFromUrl: Option<string>, me: Value, tgUser: Value, devReply: Reply, usersOk: bool): (run: AdminRun)
    ensures run.outcome.NotAdmin? <==> NotAdminPerMe(me) && !Truthy(ChosenToken(tokenFromUrl, me))
    ensures run.devLookup.Some? <==>
      !NotAdminPerMe(me) && !Truthy(ChosenToken(tokenFromUrl, me)) && Truthy(tgUser)
    ensures run.outcome.ShowUsers? || run.outcome.UsersFailed? ==> Truthy(run.outcome.token)
    ensures Truthy(ChosenToken(tokenFromUrl, me)) ==>
      run.outcome == (if usersOk then ShowUsers(ChosenToken(tokenFromUrl, me)) else UsersFailed(ChosenToken(tokenFromUrl, me)))
    ensures !Truthy(ChosenToken(tokenFromUrl, me)) && run.devLookup.None? && !run.outcome.NotAdmin? ==>
      run.outcome == NoToken
    ensures run.devLookup.Some? ==> run.devLookup.value == Get(tgUser, "id")
    ensures run.devLookup.Some? ==>
      run.outcome == (if OkBody(devReply).Some? && !Nullish(OkBody(devReply).value) && Truthy(Get(OkBody(devReply).value, "token"))
                      then (if usersOk then ShowUsers(Get(OkBody(devReply).value, "token"))
                            else UsersFailed(Get(OkBody(devReply).value, "token")))
                      else NoToken)
    ensures run.outcome.NotAdmin? ==> run.info == NotAdminText
    ensures run.outcome.UsersFailed? ==> run.info == FailedText
  {
    var token := ChosenToken(tokenFromUrl, me);
    if NotAdminPerMe(me) && !Truthy(token) then AdminRun(NotAdminText, NotAdmin, None)
    else
      var info := if NotAdminPerMe(me) then "Signed in as admin (token provided)"
                  else "Signed in as admin: " + ToString(Get(me, "name"));
      var (finalToken, devLookup) :=
        if !Truthy(token) && Truthy(tgUser) then
          // a failed call, a non-JSON body or a null body leaves the token unset
          var fetched := match OkBody(devReply)
            case Some(body) => if Nullish(body) then token else Get(body, "token")
            case None => token;
          (fetched, Some(Get(tgUser, "id")))
        else (token, None);
      if !Truthy(finalToken) then AdminRun(info, NoToken, devLookup)
      else if usersOk then AdminRun(info, ShowUsers(finalToken), devLookup)
      else AdminRun(FailedText, UsersFailed(finalToken), devLookup)
  }

  /** When the dev-token endpoint is not consulted, its reply cannot matter. */
  lemma DevReplyIrrelevantUnlessConsulted(tokenFromUrl: Option<string>, me: Value, tgUser: Value,
                                          dev1: Reply, dev2: Reply, usersOk: bool)
    requires InitAdmin(tokenFromUrl, me, tgUser, dev1, usersOk).devLookup.None?
    ensures InitAdmin(tokenFromUrl, me, tgUser, dev1, usersOk) == InitAdmin(tokenFromUrl, me, tgUser, dev2, usersOk)
  {
  }

  /** A failed dev-token lookup leaves no token, and the users are not fetched. */
  lemma FailedDevLookupStops(tokenFromUrl: Option<string>, me: Value, tgUser: Value, devReply: Reply, usersOk: bool)
    requires InitAdmin(tokenFromUrl, me, tgUser, devReply, usersOk).devLookup.Some?
    requires OkBody(devReply).None?
    ensures InitAdmin(tokenFromUrl, me, tgUser, devReply, usersOk).outcome == NoToken
  {
  }

  /** A successful lookup's token is the one the user list is fetched with. */
  lemma DevTokenUsed(me: Value, tgUser: Value, status: int, t: string)
    requires !NotAdminPerMe(me) && !Truthy(Get(me, "admin_token")) && Truthy(tgUser)
    requires IsOk(status) && t != ""
    ensures InitAdmin(None, me, tgUser, Response(status, Some(Record(map["token" := Str(t)]))), true).outcome
      == ShowUsers(Str(t))
  {
  }

  /** A non-admin with a URL token proceeds to the user list with that token. */
  lemma UrlTokenOverridesGate(t: string, me: Value, tgUser: Value, devReply: Reply)
    requires t != ""
    ensures InitAdmin(Some(t), me, tgUser, devReply, true) ==
      AdminRun(if NotAdminPerMe(me) then "Signed in as admin (token provided)" else "Signed in as admin: " + ToString(Get(me, "name")),
               ShowUsers(Str(t)), None)
  {
  }

  /** `{ 'Authorization': `Bearer ${token}` }`, the headers of the user-list request. */
  function UsersRequestHeaders(token: Value): (h: Headers)
    ensures Lookup(h, AUTHORIZATION) == Some(Str("Bearer " + ToString(token)))
  {
    [(AUTHORIZATION, Str("Bearer " + ToString(token)))]
  }

  /** The headers of the accrue-XP request: JSON content and the same bearer token. */
  function AccrueRequestHeaders(token: Value): (h: Headers)
    ensures Lookup(h, CONTENT_TYPE) == Some(Str("application/json"))
    ensures Lookup(h, AUTHORIZATION) == Some(Str("Bearer " + ToString(token)))
  {
    [(CONTENT_TYPE, Str("application/json")), (AUTHORIZATION, Str("Bearer " + ToString(token)))]
  }

  /** A string token is sent verbatim after `Bearer `. */
  lemma BearerOfStringToken(t: string)
    ensures Lookup(UsersRequestHeaders(Str(t)), AUTHORIZATION) == Some(Str("Bearer " + t))
    ensures Lookup(AccrueRequestHeaders(Str(t)), AUTHORIZATION) == Some(Str("Bearer " + t))
  {
  }
}
