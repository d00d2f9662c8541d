/**
  The Yandex account client (yandex.go). Every HTTP exchange is replaced by the
  response the provider gave, passed in as a parameter: the model decides what is
  sent, what is done with each possible response and what is cached, but it does
  not perform the exchange. JSON encoding and decoding are reduced to the decoded
  values (or to "could not decode").
 */
module Yandex {
  import opened Wrappers
  import opened Errors
  import opened Strings
  import opened Topology
  import opened Sessions
  import opened Cache

  /** `YandexStationTypeSubstr` (constants.go). */
  const StationTypeSubstr := "yandex.station"

  const OAuthAuthorizeUrl := "https://oauth.yandex.com/authorize?response_type=token&client_id="
  const CsrfTokenUrl := "https://frontend.vh.yandex.ru/csrf_token"
  const UserInfoUrl := "https://api.iot.yandex.net/v1.0/user/info"
  const StationUrl := "https://yandex.ru/video/station"

  /** `retry.Attempts(5)` in playMedia. */
  const MaxAttempts: nat := 5

  const StationsUnavailableMsg := "Could not get list of available yandex stations. Please, try again later."
  const NoDeviceSelectedMsg := "Cannot play media. No device has been selected."
  const ShareFailedMsg := "Could not share the medial link with Alice. Please, try again later."

  /** The body of the media-cast POST: `{device, msg: {player_id, provider_item_id}}`. */
  datatype MediaRequest = MediaRequest(device: string, playerId: string, providerItemId: string)

  /** An outgoing HTTP request, reduced to what the client puts in it. */
  datatype Request = Request(
    httpMethod: string,
    url: string,
    authorization: string,
    csrfToken: Option<string>,
    body: Option<MediaRequest>)

  /** The `Authorization` header value for an OAuth token. */
  function Authorization(oauthToken: string): string
  {
    "OAuth " + oauthToken
  }

  // ---------------------------------------------------------------------------
  // OAuth link
  // ---------------------------------------------------------------------------

  /** `getOAuthUrl`: the authorization link for the configured client id. */
  function OAuthUrl(clientId: string): (url: string)
    ensures StartsWith(url, OAuthAuthorizeUrl) && url[|OAuthAuthorizeUrl|..] == clientId
  {
    OAuthAuthorizeUrl + clientId
  }

  /** The link determines the client id it was built from. */
  lemma OAuthUrlInjective(a: string, b: string)
    ensures OAuthUrl(a) == OAuthUrl(b) <==> a == b
  {
    if OAuthUrl(a) == OAuthUrl(b) {
      assert a == OAuthUrl(a)[|OAuthAuthorizeUrl|..];
    }
  }

  // ---------------------------------------------------------------------------
  // Tokens
  // ---------------------------------------------------------------------------

  /** What came back from the CSRF-token endpoint. */
  datatype CsrfResponse = CsrfTransportError | CsrfReadError | CsrfBody(body: string)

  /** The request `getYandexCSRFToken` sends; none for an empty OAuth token. */
  function CsrfRequest(oauthToken: string): (req: Option<Request>)
    ensures req.None? <==> oauthToken == ""
    ensures req.Some? ==>
      && req.value.httpMethod == "GET" && req.value.url == CsrfTokenUrl
      && req.value.authorization == Authorization(oauthToken)
      && req.value.csrfToken.None? && req.value.body.None?
  {
    if oauthToken == "" then None else Some(Request("GET", CsrfTokenUrl, Authorization(oauthToken), None, None))
  }

  /**
    `getYandexCSRFToken`: an empty OAuth token is rejected before any request;
    otherwise the response body, read in full, is the CSRF token, with no expiry.
   */
  function GetYandexCSRFToken(oauthToken: string, response: CsrfResponse): (r: Result<Token, Error>)
    ensures r.Success? <==> oauthToken != "" && response.CsrfBody?
    ensures r.Success? ==> r.value.value == response.body && r.value.expiresIn.None?
    ensures r.Failure? ==> r.error == Internal
  {
    if oauthToken == "" then Failure(Internal)
    else match response
      case CsrfBody(body) => Success(Token(body, None))
      case _ => Failure(Internal)
  }

  /** An empty OAuth token fails the same way whatever the endpoint would have answered. */
  lemma EmptyOAuthTokenSendsNothing(r1: CsrfResponse, r2: CsrfResponse)
    ensures CsrfRequest("").None?
    ensures GetYandexCSRFToken("", r1) == GetYandexCSRFToken("", r2) == Failure(Internal)
  {
  }

  /**
    `getTokens`: the credential `access:expiresIn` is split on ":"; the first field is
    the OAuth token, the second is parsed with `strconv.Atoi` with its error
    discarded, and the CSRF token is then fetched with the OAuth token. The source
    indexes the second field unconditionally, so a credential without ":" panics;
    that is the precondition.
   */
  function GetTokens(rawToken: string, csrf: CsrfResponse): (r: Result<(Token, Token), Error>)
    requires ':' in rawToken
    ensures |Split(rawToken, ':')| > 1
    ensures r.Success? <==> GetYandexCSRFToken(rawToken[..IndexOf(rawToken, ':')], csrf).Success?
    ensures r.Failure? ==> r.error == Internal
    ensures r.Success? ==>
      && r.value.0.value == rawToken[..IndexOf(rawToken, ':')]
      && r.value.0.expiresIn == Some(Atoi(Split(rawToken, ':')[1]))
      && r.value.1 == GetYandexCSRFToken(r.value.0.value, csrf).value
  {
    var tokenInfo := Split(rawToken, ':');
    var accessToken := tokenInfo[0];
    var expiresIn := Atoi(tokenInfo[1]);
    var oauthToken := Token(accessToken, Some(expiresIn));
    SplitFirstField(rawToken, ':');
    match GetYandexCSRFToken(oauthToken.value, csrf)
    case Failure(e) => Failure(e)
    case Success(csrfToken) => Success((oauthToken, csrfToken))
  }

  /** The first field of a split is the text before the first separator. */
  lemma SplitFirstField(s: string, sep: char)
    requires sep in s
    ensures Split(s, sep)[0] == s[..IndexOf(s, sep)]
  {
  }

  /**
    The credential format the OAuth redirect produces, `access + ":" + seconds`,
    yields exactly that access token and expiry, and the CSRF token read from the
    endpoint; it fails exactly when the access token is empty or the CSRF fetch fails.
   */
  lemma GetTokensOfCredential(access: string, seconds: Int64, csrf: CsrfResponse)
    requires ':' !in access
    ensures var raw := access + ":" + IntToDecimal(seconds);
      ':' in raw &&
      GetTokens(raw, csrf) ==
        if access != "" && csrf.CsrfBody? then Success((Token(access, Some(seconds)), Token(csrf.body, None)))
        else Failure(Internal)
  {
    var digits := IntToDecimal(seconds);
    var raw := access + ":" + digits;
    assert raw == access + [':'] + digits;
    assert raw[|access|] == ':';
    assert ':' !in digits by {
      if seconds < 0 {
        assert digits == "-" + NatToDecimal(-(seconds as int));
      }
    }
    SplitCons(access, ':', digits);
    assert Split(digits, ':') == [digits];
    AtoiOfDecimal(seconds);
    IndexOfAfterPrefix(access, ':', digits);
    assert raw[..|access|] == access;
  }

  // ---------------------------------------------------------------------------
  // Topology (cache first)
  // ---------------------------------------------------------------------------

  /** What came back from the user-info endpoint. */
  datatype InfoResponse = InfoTransportError | InfoUndecodable | InfoDecoded(info: IotInfo)

  const CacheKeySuffix := "_iotuserinfo"

  /** `fmt.Sprintf("%d_%s", chatId, "iotuserinfo")`: the chat id can be read back from the key. */
  function CacheKey(chatId: Int64): (k: string)
    ensures k == IntToDecimal(chatId) + CacheKeySuffix
    ensures |k| > |CacheKeySuffix| && k[|k| - |CacheKeySuffix|..] == CacheKeySuffix
    ensures Atoi(k[..|k| - |CacheKeySuffix|]) == chatId
  {
    var k := IntToDecimal(chatId) + CacheKeySuffix;
    assert k[..|k| - |CacheKeySuffix|] == IntToDecimal(chatId);
    AtoiOfDecimal(chatId);
    k
  }

  /** Different conversations never share a cache entry. */
  lemma CacheKeyInjective(a: Int64, b: Int64)
    ensures CacheKey(a) == CacheKey(b) <==> a == b
  {
    if CacheKey(a) == CacheKey(b) {
      var n := |CacheKey(a)| - |CacheKeySuffix|;
      assert CacheKey(a)[..n] == IntToDecimal(a);
      assert CacheKey(b)[..n] == IntToDecimal(b);
      DecimalInjective(a, b);
    }
  }

  /** The request sent on a cache miss: a GET of the user-info endpoint with the OAuth header only. */
  function UserInfoRequest(s: Session): (req: Request)
    ensures req.httpMethod == "GET" && req.url == UserInfoUrl
    ensures req.authorization == Authorization(s.oauthToken.value) && req.csrfToken.None? && req.body.None?
  {
    Request("GET", UserInfoUrl, Authorization(s.oauthToken.value), None, None)
  }

  /** A freshly fetched topology is accepted only when it decoded and its status is "ok". */
  function DecodeTopology(response: InfoResponse): (r: Result<IotInfo, Error>)
    ensures r.Success? <==> response.InfoDecoded? && response.info.status == "ok"
    ensures r.Success? ==> r.value == response.info
    ensures r.Failure? ==> r.error == Internal
  {
    match response
    case InfoDecoded(info) => if info.status == "ok" then Success(info) else Failure(Internal)
    case _ => Failure(Internal)
  }

  /** The topology `getYandexSmartHomeInfo` returns for a cache state and a provider response. */
  function FetchTopology(entries: map<string, IotInfo>, chatId: Int64, response: InfoResponse): Result<IotInfo, Error>
  {
    var key := CacheKey(chatId);
    if key in entries then Success(entries[key]) else DecodeTopology(response)
  }

  /** The cache after `getYandexSmartHomeInfo`. */
  function CacheAfterFetch(entries: map<string, IotInfo>, chatId: Int64, response: InfoResponse): map<string, IotInfo>
  {
    var key := CacheKey(chatId);
    if key in entries then entries
    else match DecodeTopology(response)
      case Success(info) => entries[key := info]
      case Failure(_) => entries
  }

  /** A cache hit returns the stored topology and leaves the cache as it was. */
  lemma CacheHit(entries: map<string, IotInfo>, chatId: Int64, response: InfoResponse)
    requires CacheKey(chatId) in entries
    ensures FetchTopology(entries, chatId, response) == Success(entries[CacheKey(chatId)])
    ensures CacheAfterFetch(entries, chatId, response) == entries
  {
  }

  /**
    The cache changes only by storing, under the conversation's key, a topology
    that decoded with status "ok" and is the one returned; every other entry keeps
    its value, and a failed fetch changes nothing.
   */
  lemma CacheWrittenOnlyOnSuccess(entries: map<string, IotInfo>, chatId: Int64, response: InfoResponse)
    ensures var after := CacheAfterFetch(entries, chatId, response);
      && (after != entries ==>
            && response.InfoDecoded? && response.info.status == "ok"
            && after == entries[CacheKey(chatId) := response.info]
            && FetchTopology(entries, chatId, response) == Success(response.info))
      && (FetchTopology(entries, chatId, response).Failure? ==> after == entries)
  {
  }

  /** A second fetch right after a successful one is a cache hit returning the same topology. */
  lemma SecondFetchIsCached(entries: map<string, IotInfo>, chatId: Int64, first: InfoResponse, second: InfoResponse)
    requires FetchTopology(entries, chatId, first).Success?
    ensures var after := CacheAfterFetch(entries, chatId, first);
      && CacheKey(chatId) in after
      && FetchTopology(after, chatId, second) == FetchTopology(entries, chatId, first)
      && CacheAfterFetch(after, chatId, second) == after
  {
  }

  // ---------------------------------------------------------------------------
  // Stations
  // ---------------------------------------------------------------------------

  predicate IsStation(d: Device)
  {
    Contains(d.deviceType, StationTypeSubstr)
  }

  /** The devices whose type contains the station marker, in provider order. */
  function Stations(devices: seq<Device>): (r: seq<Device>)
    ensures |r| <= |devices|
    ensures forall d :: d in r <==> d in devices && IsStation(d)
  {
    if devices == [] then []
    else
      var last := devices[|devices| - 1];
      assert devices == devices[..|devices| - 1] + [last];
      Stations(devices[..|devices| - 1]) + (if IsStation(last) then [last] else [])
  }

  /** The loop of `getYandexStations`: the stations appended one device at a time. */
  method CollectStations(devices: seq<Device>) returns (stations: seq<Device>)
    ensures stations == Stations(devices)
  {
    stations := [];
    var i := 0;
    while i < |devices|
      invariant 0 <= i <= |devices|
      invariant stations == Stations(devices[..i])
    {
      var d := devices[i];
      assert devices[..i + 1] == devices[..i] + [d];
      StationsSnoc(devices[..i], d);
      if IsStation(d) {
        stations := stations + [d];
      }
      i := i + 1;
    }
    assert devices[..i] == devices;
  }

  /** One more device extends the stations by that device exactly when it is a station. */
  lemma StationsSnoc(a: seq<Device>, d: Device)
    ensures Stations(a + [d]) == Stations(a) + (if IsStation(d) then [d] else [])
  {
    assert (a + [d])[..|a + [d]| - 1] == a;
  }

  /** Filtering commutes with concatenation, so the relative order of stations is kept. */
  lemma {:induction false} StationsAppend(a: seq<Device>, b: seq<Device>)
    ensures Stations(a + b) == Stations(a) + Stations(b)
    decreases |b|
  {
    if b == [] {
      assert a + b == a;
    } else {
      var last := b[|b| - 1];
      assert (a + b)[..|a + b| - 1] == a + b[..|b| - 1];
      StationsAppend(a, b[..|b| - 1]);
    }
  }

  /** A list made only of stations is returned unchanged; one without any gives the empty list. */
  lemma {:induction false} StationsOfStations(devices: seq<Device>)
    ensures (forall k :: 0 <= k < |devices| ==> IsStation(devices[k])) ==> Stations(devices) == devices
    ensures (forall k :: 0 <= k < |devices| ==> !IsStation(devices[k])) ==> Stations(devices) == []
  {
    if devices != [] {
      var init, last := devices[..|devices| - 1], devices[|devices| - 1];
      assert devices == init + [last];
      assert forall k :: 0 <= k < |init| ==> init[k] == devices[k];
      StationsOfStations(init);
      StationsSnoc(init, last);
    }
  }

  // ---------------------------------------------------------------------------
  // Media cast
  // ---------------------------------------------------------------------------

  /** The decoded JSON body of a cast response; its `status` is a string (the source's type assertion). */
  datatype CastBody = Undecodable | Decoded(status: string)

  /** What one attempt of the cast POST got back. */
  datatype CastResponse = CastTransportError | CastHttp(statusCode: int, body: CastBody)

  /** How `playMedia` ended. */
  datatype CastOutcome =
    | Played
      /** Returned before any request was sent. */
    | Rejected(error: Error)
      /** The retry loop gave up; one error per attempt made (retry-go's error log). */
    | Failed(errors: seq<Error>)

  /** The device to cast to: an explicit device overrides the session's default. */
  function ResolveDeviceId(s: Session, d: Option<Device>): (id: string)
    ensures d.Some? ==> id == d.value.quasarInfo.id
    ensures d.None? && s.defaultDevice.Some? ==> id == s.defaultDevice.value.quasarInfo.id
    ensures d.None? && s.defaultDevice.None? ==> id == ""
  {
    var fromDefault := if s.defaultDevice.Some? then s.defaultDevice.value.quasarInfo.id else "";
    if d.Some? then d.value.quasarInfo.id else fromDefault
  }

  /** The POST `playMedia` builds: both tokens as headers, the YouTube player and the link as item. */
  function CastRequest(s: Session, deviceId: string, url: string): (req: Request)
    ensures req.httpMethod == "POST" && req.url == StationUrl
    ensures req.authorization == Authorization(s.oauthToken.value) && req.csrfToken == Some(s.csrfToken.value)
    ensures req.body == Some(MediaRequest(deviceId, "youtube", url))
  {
    Request("POST", StationUrl, Authorization(s.oauthToken.value), Some(s.csrfToken.value),
      Some(MediaRequest(deviceId, "youtube", url)))
  }

  /**
    The outcome of one attempt: `None` on success; a transport error, a status
    other than 200 or an undecodable body is an internal error; a body whose status
    is "error" is a user-facing error.
   */
  function AttemptError(resp: CastResponse): (e: Option<Error>)
    ensures e.None? <==> resp.CastHttp? && resp.statusCode == 200 && resp.body.Decoded? && resp.body.status != "error"
    ensures e.Some? && !Retryable(e.value) <==>
      resp.CastHttp? && resp.statusCode == 200 && resp.body.Decoded? && resp.body.status == "error"
    ensures e.Some? && !Retryable(e.value) ==> e.value == BotError(ShareFailedMsg)
  {
    match resp
    case CastTransportError => Some(Internal)
    case CastHttp(code, body) =>
      if code != 200 then Some(Internal)
      else match body
        case Undecodable => Some(Internal)
        case Decoded(status) => if status == "error" then Some(BotError(ShareFailedMsg)) else None
  }

  /**
    `playMedia`: resolves the device (failing with a user-facing error and sending
    nothing when there is none), builds the request once, and sends it up to
    `MaxAttempts` times, where `respond(n)` is the response to attempt `n`
    (counted from 0). The loop stops at the first success, at the first
    user-facing error, or after the last attempt.
   */
  method PlayMedia(s: Session, d: Option<Device>, url: string, respond: nat -> CastResponse)
    returns (outcome: CastOutcome, request: Option<Request>, attempts: nat)
    ensures ResolveDeviceId(s, d) == "" ==>
      outcome == Rejected(BotError(NoDeviceSelectedMsg)) && request.None? && attempts == 0
    ensures ResolveDeviceId(s, d) != "" ==>
      && request == Some(CastRequest(s, ResolveDeviceId(s, d), url))
      && 1 <= attempts <= MaxAttempts
      && (forall n :: 0 <= n < attempts - 1 ==> AttemptError(respond(n)).Some? && Retryable(AttemptError(respond(n)).value))
      && (outcome == Played <==> AttemptError(respond(attempts - 1)).None?)
      && (attempts < MaxAttempts ==> AttemptError(respond(attempts - 1)).None? || !Retryable(AttemptError(respond(attempts - 1)).value))
      && (outcome != Played ==>
            && outcome.Failed?
            && |outcome.errors| == attempts
            && forall n :: 0 <= n < attempts ==> AttemptError(respond(n)) == Some(outcome.errors[n]))
  {
    var deviceId := ResolveDeviceId(s, d);
    if deviceId == "" {
      outcome, request, attempts := Rejected(BotError(NoDeviceSelectedMsg)), None, 0;
      return;
    }
    request := Some(CastRequest(s, deviceId, url));

    var errorLog: seq<Error> := [];
    attempts := 0;
    while attempts < MaxAttempts
      invariant attempts <= MaxAttempts
      invariant |errorLog| == attempts
      invariant forall n :: 0 <= n < attempts ==>
        AttemptError(respond(n)) == Some(errorLog[n]) && Retryable(errorLog[n])
      decreases MaxAttempts - attempts
    {
      var e := AttemptError(respond(attempts));
      attempts := attempts + 1;
      if e.None? {
        outcome := Played;
        return;
      }
      errorLog := errorLog + [e.value];
      if !Retryable(e.value) {
        break;
      }
    }
    outcome := Failed(errorLog);
  }

  // ---------------------------------------------------------------------------
  // The client object
  // ---------------------------------------------------------------------------

  /** `YandexClient`: the configured client id and the cache it consults. */
  class YandexClient {
    const clientId: string
    const cache: CacheProvider

    /** `NewYandexClient`. */
    constructor (clientId: string, cache: CacheProvider)
      ensures this.clientId == clientId && this.cache == cache
    {
      this.clientId := clientId;
      this.cache := cache;
    }

    /**
      `getYandexSmartHomeInfo`: on a hit, the cached topology and no request;
      on a miss, one GET with the session's OAuth token, and the cache is written
      only when the response decoded with status "ok".
     */
    method GetYandexSmartHomeInfo(s: Session, response: InfoResponse)
      returns (r: Result<IotInfo, Error>, request: Option<Request>)
      modifies cache
      ensures r == FetchTopology(old(cache.entries), s.chatId, response)
      ensures cache.entries == CacheAfterFetch(old(cache.entries), s.chatId, response)
      ensures request.None? <==> CacheKey(s.chatId) in old(cache.entries)
      ensures request.Some? ==> request.value == UserInfoRequest(s)
    {
      var cacheKey := CacheKey(s.chatId);
      var cached := cache.TryGet(cacheKey);
      if cached.Some? {
        return Success(cached.value), None;
      }
      request := Some(UserInfoRequest(s));
      match response {
        case InfoDecoded(info) =>
          if info.status != "ok" {
            return Failure(Internal), request;
          }
          cache.Save(cacheKey, info);
          r := Success(info);
        case _ =>
          r := Failure(Internal);
      }
    }

    /**
      `getYandexStations`: the devices of the topology whose type contains the
      station marker, in provider order; an empty list is not an error, and any
      failure to get the topology becomes a user-facing error.
     */
    method GetYandexStations(s: Session, response: InfoResponse)
      returns (r: Result<seq<Device>, Error>, request: Option<Request>)
      modifies cache
      ensures FetchTopology(old(cache.entries), s.chatId, response).Success? ==>
        r == Success(Stations(FetchTopology(old(cache.entries), s.chatId, response).value.devices))
      ensures FetchTopology(old(cache.entries), s.chatId, response).Failure? ==>
        r == Failure(BotError(StationsUnavailableMsg))
      ensures cache.entries == CacheAfterFetch(old(cache.entries), s.chatId, response)
      ensures request.None? <==> CacheKey(s.chatId) in old(cache.entries)
      ensures request.Some? ==> request.value == UserInfoRequest(s)
    {
      var info;
      info, request := GetYandexSmartHomeInfo(s, response);
      if info.Failure? {
        return Failure(BotError(StationsUnavailableMsg)), request;
      }
      var stations := CollectStations(info.value.devices);
      r := Success(stations);
    }
  }
}
