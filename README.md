# Loyalty Mini App front end: the decision logic, in Dafny

The app is a Telegram Mini App. A user collects XP and spends it on lootboxes. An admin page lists users and grants XP. Most of the two scripts (`app.js`, `admin.js`) is DOM and `fetch` plumbing. This project models the deterministic logic underneath and proves what it promises:

- the lootbox spend in `openLootbox`, both its local simulation and its online reply mapping;
- how the click handler reconciles the cached balance after an open;
- the identity headers built by `getAuthHeaders` and by the `apiMe` header block, with their source precedence;
- the normalisation of `/api/me` bodies, Telegram offline users, catalog entries and display fields;
- `escapeHtml`;
- the token and admin gate of `initAdmin`.

Modules:

- `Wrappers`: `Option` and `Result`.
- `Js`: the slice of JavaScript the scripts rely on:
  - a `Value` datatype (undefined, null, booleans, integer numbers, NaN, strings, arrays, objects);
  - truthiness, `||`, `&&` and `??`;
  - property reads, `String(v)`, `Number(v)` for integer strings;
  - `trim`, `<` and `-`.
- `Html`: `escapeHtml` and the browser's decoding of the six character references it writes. The pair round-trips.
- `HeaderMap`: a header object as an insertion-ordered list of name and value pairs.
- `Telegram`: the two `WebApp` fields the pages read.
- `Http`: a `fetch` outcome as the app reads it.
- `AppIdentity`: `getAuthHeaders`. It is three imperative phases over a growing header list: live page, then stored user, then stored signed string.
- `AppData`: `fetchUser`, `fetchLootboxes` and their fallbacks, plus the field defaults of `renderUser` and `renderLootboxes`.
- `AppLootbox`: `openLootbox` and the Open button handler.
  - `User` is a class whose two balance fields `OpenLocal` debits in place.
  - `Page` holds `currentUser`.
  - `Page.OpenClicked` overwrites `currentUser.xp_balance` from the reply.
  - Both methods are proved against the functions `OpenLocally` and `Clicked`.
- `Admin`: the `apiMe` headers, the `initAdmin` flow as a function returning an outcome, and the bearer headers of admin requests.

## Behaviour of the code worth knowing

- The online open does no client-side affordability check. Only the local simulation refuses with "Not enough XP". Online, the server's 400 `detail` is shown.
- `fetchLootboxes` returns the body of a successful reply as it is, an empty list included. The demo catalog is used only when the call fails (`AppData.EmptyCatalogPassesThrough`).
- An empty prize pool is not an error. A local open of such a box succeeds and reports the prize `'Nothing'` (`AppLootbox.LocalEmptyPool`).
- Both fixed catalogs have three entries each.
- `API_BASE` always has a default (app.js:109), so the local-simulation branch and the "no API" branches of `fetchUser`/`fetchLootboxes` are unreachable as shipped. They are modelled under a flag or as a separate function, because they state the spend rule most plainly.
- When `xp_balance` is `null`, the local affordability check reads `xp` (through `??`). The debit, though, lands on `xp_balance`, because the update tests `!== undefined` (`AppLootbox.LocalNullBalanceDebitsOtherField`).

## Model

| member | source | states |
|---|---|---|
| Js.Trim | app.js:158 | the result starts and ends with non-whitespace; a string without whitespace is unchanged |
| Js.TrimIsInnerSlice | app.js:158 | `trim` returns the slice `s[a..b]` of its input, and everything before `a` and from `b` on is whitespace |
| Js.TrimWord | app.js:158 | a string that starts and ends with non-whitespace is its own trim |
| Js.TrimTrailingSpace | app.js:158 | a word with one trailing space trims back to the word (the missing-last-name case) |
| Js.NumberStringRoundTrip | app.js:215 | `Number(String(n))` is `n` for every integer: the coercion behind `<` in the affordability check reads an integer's decimal string back as that integer |
| Js.NumericStringLess | app.js:215 | a balance held as the decimal string of `b` is below a numeric price `c` exactly when `b < c`, and the other way round |
| Html.Entity | app.js:316 | each special character becomes a reference of the form `&...;`, every other character stays itself, and no reference holds markup |
| Html.EscapeText | app.js:316 | the escaped text is never shorter and holds no angle bracket, quote or backtick |
| Html.EscapeHtml | app.js:314-317 | falsy input gives the empty string; the output never holds a markup character |
| Html.UnescapeEscapeText | app.js:316 | decoding the escaped text gives the text back |
| Html.EscapeTextChar | app.js:316 | a single character escapes to its own replacement |
| Html.EscapeTextConcat | app.js:316 | escaping distributes over concatenation, so the result is the replacements of the characters in order |
| Html.EscapedAmpersands | app.js:316 | the escaped text holds no bare `&`: every ampersand opens one of the six references |
| Html.EscapeTextInjective | app.js:316 | different texts never escape to the same markup |
| Html.EscapeTextUnchangedIff | app.js:316 | a text is left unchanged exactly when it holds none of the six special characters |
| Html.UnescapeEscapeHtml | admin.js:12-15 | for truthy input, decoding the escaped markup gives `String(s)` (the admin copy is the same function) |
| HeaderMap.Put | app.js:51 | after `headers[k] = v`, `k` reads `v`, other names read as before, and the name order grows only by a new name |
| HeaderMap.PutDistinct | app.js:34-88 | assignment never duplicates a header name |
| HeaderMap.PutWithin | app.js:34-88 | assigning a name from a set keeps all names within that set |
| Telegram.Signed | app.js:62 | `tg.initData` when truthy, else `initDataUnsafe.initData` when `initDataUnsafe` is truthy; a truthy result is one of the two |
| AppIdentity.AddUser | app.js:50-52 | setting the user header and its B64 flag gives headers that carry exactly that user |
| AppIdentity.AddInitData | app.js:63 | setting the signed-string header gives headers that carry exactly that string |
| AppIdentity.LiveHeaders | app.js:46-68 | headers hold the content type first, the encoded live user with B64 flag, and the SDK signed string or, without SDK, the override |
| AppIdentity.StoredUserFallback | app.js:71-83 | the stored user fills the user header pair only when the live page gave none |
| AppIdentity.StoredInitDataFallback | app.js:84-87 | the stored signed string fills the header only when it is still unset and non-empty |
| AppIdentity.BuildAuthHeaders | app.js:33-98 | distinct names from the four known ones with the content type first; user header from the live user, else the stored one; B64 flag exactly with the user header; signed string by SDK, override, stored precedence |
| AppIdentity.OverrideIgnoredWithWebApp | app.js:46-68 | with a WebApp present, `API_INITDATA` never affects the signed string |
| AppIdentity.StoredIgnoredWhenLive | app.js:71-86 | stored entries matter only when the live page supplies nothing |
| Http.OkBody | app.js:133-134 | a body is read exactly when the call answered with a 2xx status and a JSON body |
| AppData.MockUserFields | app.js:114 | the mock user is named "Demo User", holds 1000 XP and has no `is_admin` |
| AppData.MeUser | app.js:138-144 | a non-nullish body maps to a record with exactly the five UI fields; `id` is the body's `id`; `is_admin` is the boolean truthiness of `body.is_admin`; `full_name` is truthy and `xp_balance` defined; a nullish body throws |
| AppData.MeBalanceSource | app.js:142 | `xp_balance` is `xp` when `xp` is defined (0 included), else the body's `xp_balance` when defined, else 0 |
| AppData.MeNameFallbacks | app.js:140-141 | `full_name` is the first truthy of `full_name`, `name`, `username`, else 'Guest'; `username` is the first truthy of `username`, `name`, else null |
| AppData.MeUserPublic | app.js:136-144 | a server `UserPublic` body `{id, name, xp, is_admin}` with a non-empty name maps to `{id, username: name, full_name: name, xp_balance: xp, is_admin}` |
| AppData.MeFullNameNonEmpty | app.js:141 | with string-or-absent name fields the display name is a non-empty string; all empty gives "Guest" |
| AppData.OfflineFullName | app.js:158 | the offline display name is the trimmed `first last` join when non-empty, else a truthy `username`, else 'Telegram User'; always truthy |
| AppData.TelegramOfflineUser | app.js:155-160 | exactly four fields: `id` is the Telegram user's when truthy, else 0; `username` is the user's when truthy, else null; `full_name` is `OfflineFullName(u)` (so truthy); `xp_balance` is 0 |
| AppData.TelegramOfflineFullName | app.js:158 | a first and a last name give `first + ' ' + last` |
| AppData.TelegramOfflineName | app.js:158 | a first name without a last name is used as is, without the joining space |
| AppData.TelegramOfflineBlankName | app.js:158 | with no name fields the name is "Telegram User" |
| AppData.FetchUser | app.js:117-172 | an OK body that maps is returned as `MeUser` maps it; any other outcome gives the Telegram offline user when `initDataUnsafe.user` is truthy, else the mock user; always a record with a truthy name and a defined balance; admin only if the API said so; the mock user without an API |
| AppData.LocalCatalogWellFormed | app.js:180-184 | three boxes, each with a string id, a positive price and a non-empty list of string prizes, and distinct ids |
| AppData.DemoCatalogWellFormed | app.js:200-204 | three boxes, each with a string id, a positive price and a non-empty list of string prizes, and distinct ids |
| AppData.FetchLootboxes | app.js:175-206 | the local list without an API, the demo list when the call fails, otherwise the body unchanged |
| AppData.EmptyCatalogPassesThrough | app.js:191-194 | an OK empty list stays empty; no fallback |
| AppData.BoxView | app.js:260-263 | a nullish box throws (none); the title is `name`, else `title`, else 'Unnamed Box'; the price is `cost_xp`, else `cost`, else 0; prizes are an array preview as is, a truthy non-array preview wrapped in a one-element list, else a truthy `prizes`, else `[]` |
| AppData.BoxViewOfCatalogBox | app.js:261-263 | a box shaped like a catalog entry, for any price and prize list, is shown with its own name, price and prize list |
| AppData.DisplayName | app.js:245 | the greeting name is always truthy: 'Guest' without a user; otherwise `full_name` when truthy, else `username` when truthy, else 'Guest' |
| AppData.DisplayXp | app.js:246 | the shown balance is never nullish: 0 for a nullish user, the user itself for another falsy one; otherwise `xp_balance` when not nullish, else `xp` when not nullish, else 0 |
| AppData.DisplayOfFetchedUser | app.js:245-246 | the greeting shows the `full_name` that `fetchUser` settled on, and its `xp_balance` unless that is null |
| AppLootbox.Balance | app.js:215 | the balance read is `xp_balance` unless nullish, else `xp` |
| AppLootbox.Cost | app.js:213 | the price read is `cost_xp` unless nullish, else `cost` |
| AppLootbox.PoolItems | app.js:214 | an array pool is its items |
| AppLootbox.PrizePool | app.js:214 | the pool is the items of an array `prize_preview`; with no preview, the items of an array `prizes`; with neither, empty |
| AppLootbox.Prize | app.js:217 | the prize is truthy: the drawn element, or 'Nothing' |
| AppLootbox.OpenLocally | app.js:210-223 | refuses exactly when `(xp_balance ?? xp) < cost`, with "Not enough XP" and the wallet untouched; otherwise the price is subtracted from `xp_balance` when it is defined, else from `xp` when that is defined, the other field staying as it was, `remaining_xp` is the new balance and the prize is the drawn one |
| AppLootbox.LocalSpendExact | app.js:215-220 | with numeric balance and price, refused iff balance < price; otherwise the balance and `remaining_xp` are exactly balance minus price |
| AppLootbox.LocalNullBalanceDebitsOtherField | app.js:215-220 | a `null` xp_balance is skipped by the check but receives the debit |
| AppLootbox.LocalPrizeFromPool | app.js:214-217 | the prize is the drawn pool element when truthy, otherwise 'Nothing' (empty pool or falsy element) |
| AppLootbox.LocalSingletonPool | app.js:217 | a one-prize pool always yields that prize |
| AppLootbox.LocalEmptyPool | app.js:214-217 | an affordable open of an empty pool succeeds with 'Nothing' |
| AppLootbox.User.OpenLocal | app.js:212-222 | the in-place open returns what `OpenLocally` settles with and leaves the fields as its wallet |
| AppLootbox.OpenOnline | app.js:225-234 | a result exactly for an OK reply with a body, and then the body; "Open failed" for a non-400 failure; `detail` or "Open failed" for a 400; an engine error, not a server message, exactly for no response, a 400 without a body or with a null one, and an OK reply whose body is not JSON |
| AppLootbox.OnlineRejectionMessage | app.js:229-232 | a non-empty string `detail` is the message; an empty one falls back to "Open failed" |
| AppLootbox.FailureNotice | app.js:292-294 | the toast shows `err.message` when it is non-empty, else 'Failed to open box'; an engine error shows the engine's own message |
| AppLootbox.ReportedBalance | app.js:285-289 | `remaining_xp` if defined, else `remainingXp` if defined, else nothing; a reported balance is never undefined |
| AppLootbox.Clicked | app.js:282-294 | a user stays a user and no user stays none; an online open that shows no prize leaves the wallet as it was; an unaffordable local open shows the toast "Not enough XP" with the wallet unchanged |
| AppLootbox.ClickFailureKeepsBalance | app.js:282-294 | a failed open, local (no user or unaffordable) or online (any failed reply), leaves the balance as it was and shows no prize |
| AppLootbox.ClickAdoptsServerBalance | app.js:285-291 | a successful online open adopts the reported balance, preferring `remaining_xp`, and shows the modal `You won: ${result.prize}` |
| AppLootbox.ClickLocalAgrees | app.js:283-291 | after an affordable local open the shown balance is the old one minus the price, and the prize is announced |
| AppLootbox.Page.OpenClicked | app.js:278-295 | the handler shows the notice `Clicked` gives and leaves the current user's fields as `Clicked` reconciles them |
| AppLootbox.ButtonId | app.js:271 | the `data-id` of a box is `String(id)` for a truthy id and empty for a falsy one |
| AppLootbox.FindBox | app.js:280 | the index of the first box whose `String(id)` matches, or none when no box matches |
| AppLootbox.ButtonFindsItsBox | app.js:271-281 | a box with a truthy id is found from its own button (it or an earlier box with the same id string) |
| AppLootbox.FalsyIdButtonIsInert | app.js:271 | a box with id 0 gets an empty `data-id`, and its button finds nothing |
| AppLootbox.IntendedButtonFindsItsBox | app.js:271-281 | with `String(box.id)` escaped, every button finds its box |
| AppLootbox.ScenarioSpendToZero | app.js:213-220 | balance 1000 and price 1000 leave 0, and a second open is refused |
| AppLootbox.ScenarioSticker | app.js:213-220 | a one-prize box of price 200 opened with 500 gives 'Sticker' and 300 |
| AppLootbox.ScenarioServerRefusal | app.js:229-232 | a 400 "Not enough XP" is shown as a toast and the balance is kept |
| Admin.MeHeaders | admin.js:21-45 | content type first; the plain JSON of the polled user with no B64 flag; the signed string by `initData`, then `initDataUnsafe.initData`; only the content type without a WebApp |
| Admin.MeResult | admin.js:115 | a successful body, otherwise null |
| Admin.ChosenToken | admin.js:118 | a non-empty URL token wins, otherwise `me.admin_token`; a truthy token is one of the two |
| Admin.InitAdmin | admin.js:110-169 | stops as not admin exactly when not an admin and no token; the dev endpoint is asked only with no token, an admin and a Telegram user; a chosen token is the one users are fetched with; otherwise the users are fetched with the dev lookup's token when its OK, non-null body holds a truthy one, and the run ends with "No admin token available" in every other case; the lookup asks about the Telegram user's id |
| Admin.DevReplyIrrelevantUnlessConsulted | admin.js:142-156 | when the dev endpoint is not consulted its reply changes nothing |
| Admin.FailedDevLookupStops | admin.js:142-161 | a failed dev-token lookup ends with "No admin token available" |
| Admin.DevTokenUsed | admin.js:142-164 | the token of a successful lookup is the one the user list is fetched with |
| Admin.UrlTokenOverridesGate | admin.js:118-130 | a non-empty URL token lets any `me` proceed to the user list with that token |
| Admin.UsersRequestHeaders | admin.js:55 | the user-list request carries `Authorization: Bearer <token>` |
| Admin.AccrueRequestHeaders | admin.js:91 | the accrue request carries JSON content and the same bearer header |
| Admin.BearerOfStringToken | admin.js:55 | a string token is sent verbatim after `Bearer ` |

## Left out

- Every `fetch` and `res.json()` call, including the debug wrapper around `fetch`. A reply is an input: no response, or a status with a parsed body or none.
- DOM rendering, toasts, modals, `console` output and listener wiring. Only the field defaults and the notice text are modelled; the text of an engine error (a `TypeError` or a network failure) is the engine's and is not.
- `setTimeout` in the local open. The check and the debit happen in one step, with a single writer. Overlapping opens are not modelled.
- `Math.random` in the local open. The caller supplies the drawn index.
- `waitForTgUser` polling in `apiMe`. Its result (the user or null) is an input of `Admin.MeHeaders`. `tg.ready()` is not modelled either.
- `JSON.stringify` and `encodeHeaderValue` (Base64 of UTF-8). They are uninterpreted parameters that keep non-empty input non-empty (`AppIdentity.ValidCodec`).
- AppIdentity.BuildAuthHeaders: the exception fallbacks of the encoder and of stringify are not modelled (the unencoded user header written when encoding throws).
- `sessionStorage` writes, the admin redirect and URL building in `init`. These are navigation side effects.
- The accrue-XP handlers, apart from the headers they send (`Admin.AccrueRequestHeaders`).
- `renderUsers` and the admin failure raised by rendering. `initAdmin` reads only "the user list was fetched" as a boolean.
- Js.ToNumber: numbers are integers. Fractions, exponents, hex or `Infinity` strings give NaN here, where JavaScript accepts some of them. Floating point is not modelled.
- Js.LexLess: compares `char`s, not UTF-16 code units. Strings outside the Basic Multilingual Plane may order differently.
- AppLootbox.PoolItems: a string pool is indexed by `char`, not by UTF-16 code unit, so characters outside the Basic Multilingual Plane are one item here.
- A throwing `sessionStorage.getItem` (the try at app.js:70-88) has no case of its own. It is covered by the storage inputs: a throw at the first read skips both fallbacks, as `storedUnsafe := Missing, storedSigned := None` does; a throw at the second read keeps the stored user and skips the signed string, as `storedSigned := None` does.
- Js.ToString: objects give `"[object Object]"`, with no `toString` overrides.

## Findings

| source | as written | input that shows it | evidently intended | confidence | as-written member | corrected member |
|---|---|---|---|---|---|---|
| app.js:271 | `data-id="${escapeHtml(box.id)}"`, and `escapeHtml` maps every falsy value to `''` | a box with `id: 0`: its button carries `data-id=""`, and `find` compares `"0"` with `""`, so clicking does nothing (a `null` or `false` id is inert the same way) | escape `String(box.id)` so every id, 0 included, survives the attribute | low (not executed) | AppLootbox.FalsyIdButtonIsInert | AppLootbox.IntendedButtonFindsItsBox |
