# telice: a verified model of the bot's decision logic

telice is a Telegram bot. It links a chat to a Yandex account through OAuth and
shares video links with the account's Yandex stations (Alice smart speakers).
This project models the logic between the Telegram transport and the Yandex HTTP
endpoints, and proves properties of that model:

- **Yandex account client** (`yandex.dfy`):
  - parsing of the `access:expiresIn` credential;
  - the CSRF-token fetch;
  - the cache-first topology fetch;
  - the station filter and the OAuth link;
  - device resolution, per-attempt classification and the five-attempt retry loop of `playMedia`.
- **Session store** (`sessions.dfy`): a class whose map field, keyed by chat id, is updated in place. The cache provider the client consults is modelled the same way (`cache.dfy`).
- **Command dispatcher** (`bot.dfy`):
  - routing of `/start` and `/listdevices`;
  - the three `/start` branches;
  - the authorization gate and the numbered station list of `/listdevices`;
  - outbound messages, modelled as an appended trace.
- **YouTube short-link canonicaliser** (`youtube.dfy`), with the part of Go's `url.Parse` and `path.Base` it depends on.

Supporting modules:

- `strings.dfy`: Go's `strings.Contains`/`Split`, `strconv.Atoi` on a 64-bit platform, and `%d`.
- `base64.dfy`: `base64.StdEncoding` decoding, following section 4 of RFC 4648 (padding required, CR/LF skipped, non-strict), with an encoder used to state the round trip.
- `topology.dfy`: the decoded smart-home records.
- `errors.dfy`: the error hierarchy `BotError(msg) | Internal`.
- `wrappers.dfy`: `Option` and `Result`.

Every network call is a parameter:

- the provider's answer to the CSRF, user-info and cast requests (one answer per attempt);
- the token setup and station fetch the dispatcher invokes.

The requests are records stated by their own functions: `CsrfRequest` (none for an empty OAuth token), `UserInfoRequest`, which `GetYandexSmartHomeInfo` returns on a cache miss, and `CastRequest`, which `PlayMedia` returns. `GetYandexCSRFToken`, `GetTokens` and the bot's token-setup and station-fetch functions return only their results.

`bot.go`, `yandex.go` and `sessions.go` come from different revisions of the repository. One coherent model is used:

- **Session record.** A session is `chatId`, OAuth token, CSRF token and an optional default device, which are the fields `yandex.go` reads. `sessions.go` names its token fields `yandexOAuthToken`/`yandexCSRFToken` and has no default device.
- **Command constant.** `bot.go` routes on a constant `ListDevices`; the constant is `ListDevicesCmd` = `"listdevices"`.
- **Client calls.** `bot.go` calls `NewYandexClient(httpClient)`, `SetupTokens`, `NewSession(chatId, yaClient)` and `s.client.getYandexStations()`. These match neither `yandex.go` nor `sessions.go`. They are modelled as a token-setup function from the decoded credential to an OAuth/CSRF token pair or an error, and a station-fetch function from a session to a device list or an error. The session saved by `/start` is built from the two tokens, as `NewSession(chatId, oauth, csrf)` in `sessions.go` does.

## Model

| member | source | states |
|---|---|---|
| Strings.Contains | utils.go:11 | `strings.Contains` is true exactly when the word occurs at some index of the text |
| Strings.Split | yandex.go:73 | at least one field; more than one exactly when the separator occurs; no field contains it; joining the fields gives the text back |
| Strings.SplitJoin | yandex.go:73-74 | splitting inverts joining when no field holds the separator |
| Strings.IntToDecimal | yandex.go:111 | `%d` has a `-` exactly for a negative number, followed by a digit string without leading zero whose value is the number's magnitude |
| Strings.NatToDecimal | yandex.go:111 | `%d` of a natural number is a non-empty digit string with no leading zero |
| Strings.Atoi | yandex.go:75 | with the error discarded: a digit run beyond `uint64` gives the bound on the side of the sign whatever follows; otherwise a string that does not parse gives 0, an in-range numeral its value, and an out-of-range numeral the nearest `int64` bound |
| Strings.AtoiStopsAtOverflow | yandex.go:75 | digits beyond `uint64` followed by a non-digit give `MaxInt64`, while digits within that range followed by a non-digit give 0 |
| Strings.AtoiOfDecimal | yandex.go:75 | `Atoi` inverts `%d` on every 64-bit integer |
| Strings.DecimalInjective | yandex.go:111 | distinct 64-bit integers print differently |
| Base64.DecodeString | bot.go:80 | decodable text, once its line breaks are removed, is whole four-character quanta, and the bytes number three per quantum less at most two of padding; the empty text decodes to no bytes |
| Base64.BytesToString | bot.go:87 | `string(decoded)` has one character per byte, with that byte's value |
| Base64.StringToBytes | bot.go:87 | `string(decoded)` keeps each byte as one character and is invertible |
| Base64.DecodeOfEncode | bot.go:80 | `DecodeString` gives back exactly the bytes whose standard padded encoding it reads |
| Base64.EncodingAlphabet | bot.go:80 | an encoding uses only the 64-character alphabet and `=` |
| Sessions.InMemorySessionProvider.constructor | sessions.go:29-31 | a fresh provider is empty, so every lookup is not-found |
| Sessions.InMemorySessionProvider.SaveOrUpdate | sessions.go:33-35 | the new session replaces whatever was stored for its chat id; every other entry stays; keys stay consistent |
| Sessions.InMemorySessionProvider.TryGet | sessions.go:37-40 | found exactly when the chat id is stored, returning that session; the store is not modified |
| Cache.CacheProvider.constructor | cache.go:17-19 | a new cache provider holds no entries |
| Cache.CacheProvider.Save | cache.go:21-23 | stores the value under the key; nothing else changes |
| Cache.CacheProvider.TryGet | cache.go:25-27 | found exactly when the key is stored, returning its value |
| Errors.Retryable | yandex.go:226-232 | retry-go's `RetryIf`: an error is retried exactly when it is not a `botError`, which in this model is exactly `Internal` |
| Yandex.OAuthUrl | yandex.go:165-167 | the link is the authorize URL followed by exactly the client id |
| Yandex.OAuthUrlInjective | yandex.go:165-167 | two links are equal exactly when their client ids are |
| Yandex.CsrfRequest | yandex.go:88-93 | no request exactly when the OAuth token is empty; otherwise a GET of the CSRF-token endpoint carrying only `OAuth <token>` |
| Yandex.GetYandexCSRFToken | yandex.go:87-108 | success exactly when the token is non-empty and the body was read; the CSRF token is the body and has no expiry |
| Yandex.EmptyOAuthTokenSendsNothing | yandex.go:88-90 | an empty OAuth token fails whatever the endpoint would answer |
| Yandex.GetTokens | yandex.go:72-85 | succeeds exactly when the CSRF fetch with the first field succeeds; the OAuth token is the text before the first `:`, and its expiry is `strconv.Atoi` of the second field with the error discarded |
| Yandex.GetTokensOfCredential | yandex.go:73-84 | for an access token without `:`, `access:seconds` yields exactly that access token with that expiry and the fetched CSRF token, or fails when the access token is empty or the fetch fails |
| Yandex.CacheKey | yandex.go:111 | the key is exactly the `%d` numeral of the chat id followed by `_iotuserinfo`, and the id reads back from it |
| Yandex.CacheKeyInjective | yandex.go:111 | the cache keys of two chats are equal exactly when the chat ids are |
| Yandex.UserInfoRequest | yandex.go:117-122 | a GET of the user-info endpoint carrying only the session's `OAuth <token>` |
| Yandex.DecodeTopology | yandex.go:130-140 | a fetched topology is accepted exactly when it decoded and its status is `ok` |
| Yandex.CacheHit | yandex.go:111-115 | a cache hit returns the stored topology and leaves the cache as it was |
| Yandex.CacheWrittenOnlyOnSuccess | yandex.go:124-144 | the cache changes only by storing the returned `ok` topology under the chat's key; a failed fetch leaves it unchanged |
| Yandex.SecondFetchIsCached | yandex.go:110-145 | after a successful fetch, the next one is a hit returning the same topology |
| Yandex.Stations | yandex.go:153-160 | the result is no longer than the input and holds exactly the input's devices whose type contains `yandex.station` |
| Yandex.CollectStations | yandex.go:153-160 | the append loop over the topology's devices builds exactly `Stations` of them |
| Yandex.StationsAppend | yandex.go:154-160 | filtering distributes over concatenation, so provider order is kept |
| Yandex.StationsOfStations | yandex.go:154-160 | a list of stations only is kept whole; one without stations gives the empty list |
| Yandex.ResolveDeviceId | yandex.go:170-176 | an explicit device's quasar id overrides the session default; with neither the id is empty |
| Yandex.CastRequest | yandex.go:183-198 | a POST to the station endpoint carrying both tokens, with the device id, player `youtube` and the link as item |
| Yandex.AttemptError | yandex.go:201-224 | an attempt succeeds exactly on 200 with a decoded status other than `error`; a transport error, another status code or an undecodable body is retried; status `error` is the not-retried share-failure message |
| Yandex.PlayMedia | yandex.go:169-239 | no device: a `BotError` and no request. Otherwise one request with player `youtube` and the link as item. Attempts run from 1 to 5, stopping early only on success or a `BotError`; every earlier attempt failed retryably; played exactly when the last attempt succeeded; on failure one error per attempt |
| Yandex.YandexClient.constructor | yandex.go:64-70 | the client holds the given client id and cache |
| Yandex.YandexClient.GetYandexSmartHomeInfo | yandex.go:110-145 | result and new cache as `FetchTopology` and `CacheAfterFetch` (see the lemmas above); no request exactly on a hit, otherwise the user-info GET with the OAuth token |
| Yandex.YandexClient.GetYandexStations | yandex.go:147-163 | the stations of the fetched topology, or the user-facing stations error on any fetch failure; the cache as after the fetch; the user-info GET is sent exactly on a cache miss |
| YouTube.PathBase | utils.go:13 | `path.Base` is non-empty and is `/` or has no slash |
| YouTube.ReformatYouTubeUrl | utils.go:10-19 | a text without `youtu.be` is returned unchanged; one with it becomes a watch link |
| YouTube.PrefixHasNoMarker | utils.go:15 | the watch-link prefix does not contain `youtu.be` |
| YouTube.WatchUrlHasNoMarker | utils.go:15 | the watch link of an id without `youtu.be` does not contain it either |
| YouTube.ReformatIdempotent | utils.go:10-19 | rewriting twice equals rewriting once whenever the extracted id does not contain `youtu.be` |
| YouTube.UrlPathErrors | utils.go:12 | `url.Parse` fails on a control byte before the fragment and on a malformed escape in the fragment; `*` is its own path; a returned path holds no malformed escape |
| YouTube.UrlPathOfHttps | utils.go:12 | for a host of letters, digits, `.` and `-`, a rooted path without `%` and a fragment without a malformed escape, the path `url.Parse` finds in `https://host/path?query#fragment` is `/path`, excluding query and fragment |
| YouTube.ShortLinkCanonical | utils.go:11-15 | `https://youtu.be/<id>`, for an id without `/`, `?`, `#`, `%` or control bytes, with any query and any fragment without a malformed escape, becomes `https://www.youtube.com/watch?v=<id>` |
| YouTube.MarkerInPathTriggers | utils.go:11 | the trigger is a substring test, not a host check: a link on any host name of letters, digits, `.` and `-` with path `/youtu.be/<id>` (an id as above) is rewritten too |
| YouTube.MalformedFragmentFails | utils.go:12 | `https://youtu.be/<id>#%zz` mentions `youtu.be` but does not parse, so it is outside the rewrite's precondition |
| YouTube.BareShortLink | utils.go:11-15 | `https://youtu.be/<id>`, for an id as above, becomes the watch link for `<id>` |
| YouTube.ExampleShortLink | utils.go:10-19 | `https://youtu.be/XYZ123` becomes `https://www.youtube.com/watch?v=XYZ123` |
| Bot.Deliver | bot.go:52-58 | one outbound message per text, in order, all to the given chat |
| Bot.StartWithSession | bot.go:73-77 | `/start` in a chat with a session sends only the ready message and saves nothing |
| Bot.StartGreets | bot.go:100-111 | no session and an empty or non-base64 argument: the greeting and then the `getOAuthUrl` link, nothing saved |
| Bot.StartWithCredential | bot.go:79-97 | no session and a valid credential: a session is saved exactly when the token setup succeeds. It holds this chat, the two tokens and no default device, and is followed by the completion message. A failed setup sends only the failure message |
| Bot.StartSavesOwnChat | bot.go:92-93 | a saved session belongs to the commanding chat; `/start` always sends something |
| Bot.StartTwice | bot.go:72-97 | after an authenticating `/start`, another `/start` only reports readiness and leaves the store unchanged |
| Bot.CredentialPayload | bot.go:80-87 | the base64 of `access:seconds` decodes back to that credential, and `GetTokens` on it gives that access token and expiry when the access token is non-empty and the CSRF body was read |
| Bot.ListDevicesNeedsSession | bot.go:115-120 | without a session only the authentication prompt is sent, whatever the client would answer |
| Bot.ListDevicesWithSession | bot.go:122-139 | with a session, exactly one reply: the retry message on error, the no-stations message on an empty list, otherwise the rendered list, which is neither |
| Bot.StationListIsJoin | bot.go:133-137 | the rendered list is its lines, each followed by a line break |
| Bot.StationListLines | bot.go:133-137 | splitting the list on line breaks gives `"<i+1>. <name>"` per station in order, then the empty tail, when no station name holds a line break |
| Bot.RenderStations | bot.go:133-137 | the buffer loop builds exactly the rendered station list |
| Bot.RoutingAnswers | bot.go:64-69 | a command is answered exactly when it is `start` or `listdevices`; only `start` saves |
| Bot.NonCommandsIgnored | bot.go:38-46 | updates without a message and messages that are not commands change nothing |
| Bot.ReplayWellKeyed | bot.go:33-50 | processing any updates keeps every session under its own chat id |
| Bot.ReplayConcat | bot.go:33-50 | updates are processed one at a time with no state beyond the store and the trace: two batches in turn give the same result as their concatenation |
| Bot.Bot.constructor | bot.go:21-31 | a new bot has an empty session provider and an empty trace |
| Bot.Bot.Send | bot.go:52-58 | one message appended to the trace |
| Bot.Bot.HandleStartCommand | bot.go:72-112 | the new store and the trace as `StartEffect` prescribes (see the `Start` lemmas) |
| Bot.Bot.HandleListDevicesCommand | bot.go:114-140 | the store is untouched; the trace grows by `ListDevicesReplies` (see the `ListDevices` lemmas) |
| Bot.Bot.HandleCommand | bot.go:60-70 | the new store and the trace as `CommandEffect` prescribes |
| Bot.Bot.HandleUpdate | bot.go:38-49 | one loop iteration moves the store and the trace by exactly one `Step`: commands are dispatched, other messages change nothing |
| Bot.Bot.Run | bot.go:33-50 | after a sequence of updates, the store and the trace are those of processing them in order |

## Left out

- Process bootstrap (main.go and cmd/root.go): environment checks, logger setup and the HTTP listener are I/O and plumbing; the client id is a parameter.
- Telegram transport: the API object, the update channel, message construction and `Send` failures. `Run` is modelled over a finite sequence of updates, and `send` appends to a trace.
- Logging everywhere, including the text of non-command messages, which `Run` only logs.
- HTTP and JSON: requests become request records, and responses become oracle outcomes: transport error, status code, decoded body or undecodable body, and decoded status. The request buffer reused across retries is not modelled.
- Cache expiry: the go-cache TTLs of 5 and 10 minutes live in a library that is not part of this model; an entry stays visible once saved.
- Yandex.PlayMedia: returns the list of per-attempt errors instead of retry-go's aggregated error value. Backoff delays and `OnRetry` logging are not modelled.
- Yandex.PlayMedia: assumes the decoded cast body's `status` is a string, as the source's type assertion requires; otherwise that assertion panics.
- Yandex.GetTokens: requires a `:` in the credential, because the source indexes the second field unconditionally and panics without one.
- YouTube.ReformatYouTubeUrl: requires that a text containing `youtu.be` parses, because the source reads the path of a nil URL when `url.Parse` fails.
- YouTube.UrlPath: models `url.Parse` only as far as the path goes: the fragment, control bytes, the scheme, the query, opaque URLs, the authority, and the error on a malformed escape in the path or the fragment. The escapes are checked but not decoded, so the path keeps escapes such as `%2F`. Authority and host validation and IPv6 literals are not modelled, so `UrlPath` accepts some authorities Go would reject. The lemmas about rewritten links (`UrlPathOfHttps`, `ShortLinkCanonical`, `MarkerInPathTriggers`, `BareShortLink`) therefore take only ids and paths without `%` and hosts of letters, digits, `.` and `-`, where the undecoded path and the missing host check make no difference.
- Auth failure in `/start`: the source sends the failure message and then falls through to saving a session and reporting success (bot.go:88-95). The model returns after the failure message, and states nothing that depends on the fall-through.
- `NewYandexClient`'s fatal exit on a nil HTTP client is not modelled: the client holds no HTTP client.
- `URLRegexPattern` is unused by the modelled code and would need regular-expression semantics.
- The reset and select-as-default commands and the callbacks exist only as constants; no function in the source implements them.
