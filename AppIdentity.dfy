/**
 * `getAuthHeaders` of app.js: the identity headers attached to every API request.
 *
 * The sources, in precedence order: the live Telegram WebApp (user and signed init data),
 * or, without a WebApp, the `window.API_INITDATA` override for the init data; then the two
 * sessionStorage entries saved before a navigation, each used only when its header is still
 * unset. JSON serialisation and the text-safe header encoding are parameters.
 */
module AppIdentity {
  import opened Wrappers
  import opened Js
  import opened HeaderMap
  import opened Telegram

  /** What `sessionStorage.getItem('tg_initDataUnsafe')` led to. */
  datatype StoredUnsafe =
    | Missing              // null or the empty string
    | Malformed            // JSON.parse threw
    | Parsed(value: Value) // the parsed value

  /** Everything the header builder reads from the page. */
  datatype Env = Env(
    webApp: Option<WebApp>,      // window.Telegram.WebApp, when present
    apiInitData: Value,          // window.API_INITDATA
    storedUnsafe: StoredUnsafe,  // sessionStorage 'tg_initDataUnsafe'
    storedSigned: Option<string> // sessionStorage 'tg_initDataSigned'
  )

  /** `JSON.stringify` and `encodeHeaderValue` (Base64 of the UTF-8 bytes). */
  datatype Codec = Codec(stringify: Value -> string, encode: string -> string)

  /** Both stand-ins keep non-empty things non-empty, as JSON.stringify and btoa do. */
  ghost predicate ValidCodec(c: Codec)
  {
    && (forall v :: Truthy(v) ==> c.stringify(v) != "")
    && (forall s :: s != "" ==> c.encode(s) != "")
  }

  /** The user object offered by the live WebApp. */
  function LiveUser(env: Env): Option<Value>
  {
    if env.webApp.Some? && Truthy(UnsafeUser(env.webApp.value)) then Some(UnsafeUser(env.webApp.value))
    else None
  }

  /** The user object saved in sessionStorage. */
  function StoredUser(env: Env): Option<Value>
  {
    match env.storedUnsafe
    case Parsed(obj) => if Truthy(And(obj, Get(obj, "user"))) then Some(Get(obj, "user")) else None
    case _ => None
  }

  /** Live user first, the stored one otherwise. */
  function UserSource(env: Env): Option<Value>
  {
    if LiveUser(env).Some? then LiveUser(env) else StoredUser(env)
  }

  /** The signed string from the live page: the WebApp's when there is one, else the override. */
  function LiveInitData(env: Env): Option<Value>
  {
    match env.webApp
    case Some(tg) => if Truthy(Signed(tg)) then Some(Signed(tg)) else None
    case None => if Truthy(env.apiInitData) then Some(env.apiInitData) else None
  }

  /** Live signed string first, the stored one otherwise. */
  function InitDataSource(env: Env): Option<Value>
  {
    if LiveInitData(env).Some? then LiveInitData(env)
    else if env.storedSigned.Some? && env.storedSigned.value != "" then Some(Str(env.storedSigned.value))
    else None
  }

  ghost const HeaderNames := {CONTENT_TYPE, USER_HEADER, USER_B64_HEADER, INIT_DATA_HEADER}

  /** The encoded user header for `user`. */
  function UserHeaderValue(codec: Codec, user: Value): Value
  {
    Str(codec.encode(codec.stringify(user)))
  }

  /** The headers a source of user and signed string gives, on top of the content type. */
  ghost predicate HeadersFrom(h: Headers, codec: Codec, user: Option<Value>, initData: Option<Value>)
  {
    && DistinctKeys(h) && |h| > 0 && h[0] == (CONTENT_TYPE, Str("application/json"))
    && NamesWithin(h, HeaderNames)
    && Lookup(h, USER_HEADER) == (if user.Some? then Some(UserHeaderValue(codec, user.value)) else None)
    && Lookup(h, USER_B64_HEADER) == (if user.Some? then Some(Str("1")) else None)
    && Lookup(h, INIT_DATA_HEADER) == initData
  }

  /** Setting the user header pair on headers that had none. */
  lemma AddUser(h: Headers, codec: Codec, user: Value, initData: Option<Value>)
    requires HeadersFrom(h, codec, None, initData)
    ensures HeadersFrom(Put(Put(h, USER_HEADER, UserHeaderValue(codec, user)), USER_B64_HEADER, Str("1")),
                        codec, Some(user), initData)
  {
    var h1 := Put(h, USER_HEADER, UserHeaderValue(codec, user));
    PutDistinct(h, USER_HEADER, UserHeaderValue(codec, user));
    PutWithin(h, USER_HEADER, UserHeaderValue(codec, user), HeaderNames);
    PutDistinct(h1, USER_B64_HEADER, Str("1"));
    PutWithin(h1, USER_B64_HEADER, Str("1"), HeaderNames);
  }

  /** Setting the signed-string header on headers that had none. */
  lemma AddInitData(h: Headers, codec: Codec, user: Option<Value>, v: Value)
    requires HeadersFrom(h, codec, user, None)
    ensures HeadersFrom(Put(h, INIT_DATA_HEADER, v), codec, user, Some(v))
  {
    PutDistinct(h, INIT_DATA_HEADER, v);
    PutWithin(h, INIT_DATA_HEADER, v, HeaderNames);
  }

  /** The first phase of `getAuthHeaders`: the content type and what the live page offers. */
  method LiveHeaders(env: Env, codec: Codec) returns (h: Headers)
    ensures HeadersFrom(h, codec, LiveUser(env), LiveInitData(env))
  {
    h := [(CONTENT_TYPE, Str("application/json"))];
    match env.webApp {
      case Some(tg) =>
        if Truthy(tg.initDataUnsafe) && Truthy(Get(tg.initDataUnsafe, "user")) {
          var raw := codec.stringify(Get(tg.initDataUnsafe, "user"));
          AddUser(h, codec, Get(tg.initDataUnsafe, "user"), None);
          h := Put(h, USER_HEADER, Str(codec.encode(raw)));
          h := Put(h, USER_B64_HEADER, Str("1"));
        }
        var signed := Or(tg.initData, And(tg.initDataUnsafe, Get(tg.initDataUnsafe, "initData")));
        if Truthy(signed) {
          AddInitData(h, codec, LiveUser(env), signed);
          h := Put(h, INIT_DATA_HEADER, signed);
        }
      case None =>
        if Truthy(env.apiInitData) {
          AddInitData(h, codec, None, env.apiInitData);
          h := Put(h, INIT_DATA_HEADER, env.apiInitData);
        }
    }
  }

  /** The second phase, for the user: the stored user fills the header when it is still unset. */
  method StoredUserFallback(env: Env, codec: Codec, live: Headers) returns (h: Headers)
    requires ValidCodec(codec)
    requires HeadersFrom(live, codec, LiveUser(env), LiveInitData(env))
    ensures HeadersFrom(h, codec, UserSource(env), LiveInitData(env))
  {
    h := live;
    if !Truthy(Read(h, USER_HEADER)) {
      match env.storedUnsafe {
        case Parsed(obj) =>
          if Truthy(obj) && Truthy(Get(obj, "user")) {
            var r := codec.stringify(Get(obj, "user"));
            AddUser(h, codec, Get(obj, "user"), LiveInitData(env));
            h := Put(h, USER_HEADER, Str(codec.encode(r)));
            h := Put(h, USER_B64_HEADER, Str("1"));
          }
        case _ =>
      }
    }
  }

  /** The second phase, for the signed string: the stored one fills the header when it is still unset. */
  method StoredInitDataFallback(env: Env, codec: Codec, partial: Headers) returns (h: Headers)
    requires HeadersFrom(partial, codec, UserSource(env), LiveInitData(env))
    ensures HeadersFrom(h, codec, UserSource(env), InitDataSource(env))
  {
    h := partial;
    if !Truthy(Read(h, INIT_DATA_HEADER)) {
      if env.storedSigned.Some? && env.storedSigned.value != "" {
        AddInitData(h, codec, UserSource(env), Str(env.storedSigned.value));
        h := Put(h, INIT_DATA_HEADER, Str(env.storedSigned.value));
      }
    }
  }

  /** `getAuthHeaders()` */
  method BuildAuthHeaders(env: Env, codec: Codec) returns (h: Headers)
    requires ValidCodec(codec)
    ensures DistinctKeys(h) && |h| > 0 && h[0] == (CONTENT_TYPE, Str("application/json"))
    ensures NamesWithin(h, {CONTENT_TYPE, USER_HEADER, USER_B64_HEADER, INIT_DATA_HEADER})
    ensures Lookup(h, USER_HEADER) ==
      (if UserSource(env).Some? then Some(Str(codec.encode(codec.stringify(UserSource(env).value)))) else None)
    ensures Lookup(h, USER_B64_HEADER) == (if UserSource(env).Some? then Some(Str("1")) else None)
    ensures Lookup(h, INIT_DATA_HEADER) == InitDataSource(env)
    // the precedence, stated outright
    ensures env.webApp.Some? && Truthy(env.webApp.value.initData) ==>
      Lookup(h, INIT_DATA_HEADER) == Some(env.webApp.value.initData)
    ensures env.webApp.None? && Truthy(env.apiInitData) ==> Lookup(h, INIT_DATA_HEADER) == Some(env.apiInitData)
    ensures Lookup(h, USER_B64_HEADER).Some? <==> Lookup(h, USER_HEADER).Some?
  {
    var live := LiveHeaders(env, codec);
    var partial := StoredUserFallback(env, codec, live);
    h := StoredInitDataFallback(env, codec, partial);
  }

  /** With a WebApp present the `API_INITDATA` override is never consulted. */
  lemma OverrideIgnoredWithWebApp(env: Env, other: Value)
    requires env.webApp.Some?
    ensures InitDataSource(env.(apiInitData := other)) == InitDataSource(env)
  {
  }

  /** The stored entries matter only when the live page supplies nothing. */
  lemma StoredIgnoredWhenLive(env: Env, unsafe: StoredUnsafe, signed: Option<string>)
    ensures LiveUser(env).Some? ==> UserSource(env.(storedUnsafe := unsafe)) == LiveUser(env)
    ensures LiveInitData(env).Some? ==> InitDataSource(env.(storedSigned := signed)) == LiveInitData(env)
  {
  }
}
