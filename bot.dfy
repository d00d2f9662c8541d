/**
  The Telegram command dispatcher (bot.go). Every call of `send` appends one
  outbound message to a trace, the session store is the in-memory provider, and
  the two Yandex client calls the handlers make (setting up tokens from the
  credential, listing stations) are oracle functions that succeed or fail.
 */
module Bot {
  import opened Wrappers
  import opened Errors
  import opened Strings
  import opened Base64
  import opened Topology
  import opened Sessions
  import opened Yandex

  /** `StartCmd` and `ListDevicesCmd` (constants.go). */
  const StartCmd := "start"
  const ListDevicesCmd := "listdevices"

  const ReadyText := "Looks like everything is ready. Feel free to send me a link to share with your Alice."
  const AuthFailedText := "Could not complete authentication process. Please, try again."
  const AuthCompleteText := "Authentication is complete.\nSend me a link and I will share it with Alice. Have fun!"
  const GreetingText := "\nHello!\nTo use telice first we need to authenticate you. Please, click on the link down below to authenticate. \nAuthentication is done thought Yandex.OAuth. I will never ask you for login or password.\n\t"
  const AuthRequiredText := "Please authenticate to perform this action"
  const StationsErrorText := "Could not get list of registered devices. Please, try again"
  const NoStationsText := "I didn't find any yandex stations. Is it configured properly?"

  /** A bot command: its name without the slash, and the text after it. */
  datatype Command = Command(name: string, args: string)

  /** An incoming message; `command` is present exactly when the message is a command. */
  datatype Message = Message(chatId: Int64, text: string, command: Option<Command>)

  /** One update from the Telegram channel; not every update carries a message. */
  datatype Update = Update(message: Option<Message>)

  /** One call of `send`. */
  datatype Outbound = Outbound(chatId: Int64, text: string)

  /** What a handler does: the session it saves, if any, and the texts it sends, in order. */
  datatype Effect = Effect(saved: Option<Session>, replies: seq<string>)

  /** The client call that turns a decoded credential into the OAuth and CSRF tokens. */
  type TokenSetup = string -> Result<(Token, Token), Error>

  /** The client call that lists the stations of a session's account. */
  type StationFetch = Session -> Result<seq<Device>, Error>

  /** The texts sent to one chat, as outbound messages. */
  function Deliver(chatId: Int64, texts: seq<string>): (out: seq<Outbound>)
    ensures |out| == |texts|
    ensures forall k :: 0 <= k < |texts| ==> out[k] == Outbound(chatId, texts[k])
  {
    if texts == [] then [] else [Outbound(chatId, texts[0])] + Deliver(chatId, texts[1..])
  }

  // ---------------------------------------------------------------------------
  // /start
  // ---------------------------------------------------------------------------

  /**
    `handleStartCommand`: a chat with a session is told it is ready; otherwise a
    non-empty argument that is valid base64 is the credential, which is handed to
    the token setup; anything else gets the greeting and the OAuth link.

    When the token setup fails, the source sends the failure message and then does
    not return: it goes on to save the session and report success. The model
    returns after the failure message.
   */
  function StartEffect(clientId: string, store: map<Int64, Session>, chatId: Int64, args: string,
                       setup: TokenSetup): Effect
  {
    if chatId in store then Effect(None, [ReadyText])
    else if args != "" && DecodeString(args).Some? then
      match setup(BytesToString(DecodeString(args).value))
      case Failure(_) => Effect(None, [AuthFailedText])
      case Success((oauthToken, csrfToken)) =>
        Effect(Some(Session(chatId, oauthToken, csrfToken, None)), [AuthCompleteText])
    else Effect(None, [GreetingText, OAuthUrl(clientId)])
  }

  /** A chat that already has a session is told it is ready, and nothing is saved. */
  lemma StartWithSession(clientId: string, store: map<Int64, Session>, chatId: Int64, args: string,
                         setup: TokenSetup)
    requires chatId in store
    ensures StartEffect(clientId, store, chatId, args, setup) == Effect(None, [ReadyText])
  {
  }

  /**
    Without a session, an empty argument or one that is not valid base64 gets the
    greeting and then the OAuth link of `getOAuthUrl`, and nothing is saved.
   */
  lemma StartGreets(clientId: string, store: map<Int64, Session>, chatId: Int64, args: string,
                    setup: TokenSetup)
    requires chatId !in store && (args == "" || DecodeString(args).None?)
    ensures var e := StartEffect(clientId, store, chatId, args, setup);
      e.saved.None? && |e.replies| == 2 && e.replies[0] == GreetingText &&
      StartsWith(e.replies[1], OAuthAuthorizeUrl) && e.replies[1][|OAuthAuthorizeUrl|..] == clientId
  {
  }

  /**
    Without a session, a valid credential is set up; exactly when that succeeds,
    one session for this chat holding the two tokens and no default device is
    saved and the completion message is sent, and otherwise only the failure
    message is sent.
   */
  lemma StartWithCredential(clientId: string, store: map<Int64, Session>, chatId: Int64, args: string,
                            setup: TokenSetup)
    requires chatId !in store && args != "" && DecodeString(args).Some?
    ensures var e := StartEffect(clientId, store, chatId, args, setup);
      var tokens := setup(BytesToString(DecodeString(args).value));
      && (e.saved.Some? <==> tokens.Success?)
      && (tokens.Success? ==> e == Effect(Some(Session(chatId, tokens.value.0, tokens.value.1, None)), [AuthCompleteText]))
      && (tokens.Failure? ==> e == Effect(None, [AuthFailedText]))
  {
  }

  /** A saved session always belongs to the chat the command came from. */
  lemma StartSavesOwnChat(clientId: string, store: map<Int64, Session>, chatId: Int64, args: string,
                          setup: TokenSetup)
    ensures var e := StartEffect(clientId, store, chatId, args, setup);
      (e.saved.Some? ==> e.saved.value.chatId == chatId && e.saved.value.defaultDevice.None?) &&
      |e.replies| >= 1
  {
  }

  /** The store after a handler's effect: the saved session, if any, inserted or replacing. */
  function Apply(store: map<Int64, Session>, e: Effect): map<Int64, Session>
  {
    if e.saved.Some? then store[e.saved.value.chatId := e.saved.value] else store
  }

  /** A second `/start` after one that authenticated only reports that the chat is ready. */
  lemma StartTwice(clientId: string, store: map<Int64, Session>, chatId: Int64, args: string, args2: string,
                   setup: TokenSetup)
    ensures var e := StartEffect(clientId, store, chatId, args, setup);
      var after := Apply(store, e);
      e.saved.Some? ==>
        StartEffect(clientId, after, chatId, args2, setup) == Effect(None, [ReadyText]) &&
        Apply(after, StartEffect(clientId, after, chatId, args2, setup)) == after
  {
    StartSavesOwnChat(clientId, store, chatId, args, setup);
  }

  /**
    The credential the bot receives is the base64 of `access:seconds`; it decodes
    back, and `GetTokens` on it yields that access token with that expiry when the
    access token is non-empty and the CSRF body was read.
   */
  lemma CredentialPayload(access: string, seconds: Int64, csrf: CsrfResponse)
    requires ':' !in access
    requires forall k :: 0 <= k < |access| ==> access[k] as int < 256
    ensures var credential := access + ":" + IntToDecimal(seconds);
      var args := EncodeToString(StringToBytes(credential));
      && args != ""
      && DecodeString(args).Some?
      && BytesToString(DecodeString(args).value) == credential
      && ':' in credential
      && (access != "" && csrf.CsrfBody? ==>
            GetTokens(credential, csrf) == Success((Token(access, Some(seconds)), Token(csrf.body, None))))
  {
    var digits := IntToDecimal(seconds);
    var credential := access + ":" + digits;
    assert forall k :: 0 <= k < |digits| ==> digits[k] as int < 256 by {
      if seconds < 0 {
        assert digits == "-" + NatToDecimal(-(seconds as int));
      }
    }
    assert forall k :: 0 <= k < |credential| ==> credential[k] as int < 256 by {
      forall k | 0 <= k < |credential|
        ensures credential[k] as int < 256
      {
        if k > |access| {
          assert credential[k] == digits[k - |access| - 1];
        }
      }
    }
    var bytes := StringToBytes(credential);
    assert |credential| > 0 by {
      assert credential[|access|] == ':';
    }
    DecodeOfEncode(bytes);
    GetTokensOfCredential(access, seconds, csrf);
  }

  // ---------------------------------------------------------------------------
  // /listdevices
  // ---------------------------------------------------------------------------

  /** One line of the station list: `"<i+1>. <name>\n"`. */
  function StationLine(i: nat, d: Device): string
  {
    NatToDecimal(i + 1) + ". " + d.name + "\n"
  }

  /** The station list as `handleListDevicesCommand` writes it into its buffer. */
  function StationList(stations: seq<Device>): string
    decreases |stations|
  {
    if stations == [] then ""
    else StationList(stations[..|stations| - 1]) + StationLine(|stations| - 1, stations[|stations| - 1])
  }

  /** The lines of the list, without their line breaks. */
  function Lines(stations: seq<Device>): (lines: seq<string>)
    ensures |lines| == |stations|
    ensures forall i :: 0 <= i < |stations| ==> lines[i] == NatToDecimal(i + 1) + ". " + stations[i].name
  {
    seq(|stations|, i requires 0 <= i < |stations| => NatToDecimal(i + 1) + ". " + stations[i].name)
  }

  /**
    `handleListDevicesCommand`: without a session only the authentication prompt
    is sent; otherwise the stations are fetched, and an error or an empty list is
    reported, and a non-empty list is sent as one message.
   */
  function ListDevicesReplies(store: map<Int64, Session>, chatId: Int64, fetch: StationFetch): seq<string>
  {
    if chatId !in store then [AuthRequiredText]
    else match fetch(store[chatId])
      case Failure(_) => [StationsErrorText]
      case Success(stations) => if stations == [] then [NoStationsText] else [StationList(stations)]
  }

  /** Without a session, whatever the client would answer, only the prompt is sent. */
  lemma ListDevicesNeedsSession(store: map<Int64, Session>, chatId: Int64, fetch1: StationFetch, fetch2: StationFetch)
    requires chatId !in store
    ensures ListDevicesReplies(store, chatId, fetch1) == ListDevicesReplies(store, chatId, fetch2) == [AuthRequiredText]
  {
  }

  /**
    With a session, there is exactly one reply: the retry message on an error, the
    no-stations message on an empty list, and otherwise the rendered list, which
    is never one of those two.
   */
  lemma ListDevicesWithSession(store: map<Int64, Session>, chatId: Int64, fetch: StationFetch)
    requires chatId in store
    ensures var replies := ListDevicesReplies(store, chatId, fetch);
      var r := fetch(store[chatId]);
      && |replies| == 1
      && (r.Failure? ==> replies[0] == StationsErrorText)
      && (r.Success? && r.value == [] ==> replies[0] == NoStationsText)
      && (r.Success? && r.value != [] ==>
            replies[0] == StationList(r.value) && replies[0] != StationsErrorText && replies[0] != NoStationsText)
  {
    var r := fetch(store[chatId]);
    if r.Success? && r.value != [] {
      var text := StationList(r.value);
      StationListEndsWithNewline(r.value);
      assert text[|text| - 1] == '\n';
      assert StationsErrorText[|StationsErrorText| - 1] == 'n';
      assert NoStationsText[|NoStationsText| - 1] == '?';
    }
  }

  lemma StationListEndsWithNewline(stations: seq<Device>)
    requires stations != []
    ensures var text := StationList(stations); |text| > 0 && text[|text| - 1] == '\n'
  {
    var line := StationLine(|stations| - 1, stations[|stations| - 1]);
    assert line[|line| - 1] == '\n';
  }

  /** Joining with one more field appends the separator and that field. */
  lemma {:induction false} JoinSnoc(fields: seq<string>, f: string, sep: char)
    requires |fields| >= 1
    ensures Join(fields + [f], sep) == Join(fields, sep) + [sep] + f
    decreases |fields|
  {
    if |fields| == 1 {
      assert fields + [f] == [fields[0], f];
      assert [fields[0], f][1..] == [f];
    } else {
      JoinSnoc(fields[1..], f, sep);
      assert (fields + [f])[1..] == fields[1..] + [f];
    }
  }

  /** The list is its lines, each followed by a line break. */
  lemma {:induction false} StationListIsJoin(stations: seq<Device>)
    ensures StationList(stations) == Join(Lines(stations) + [""], '\n')
    decreases |stations|
  {
    if stations != [] {
      var init := stations[..|stations| - 1];
      var i := |stations| - 1;
      var line := NatToDecimal(i + 1) + ". " + stations[i].name;
      assert Lines(stations) == Lines(init) + [line];
      assert StationLine(i, stations[i]) == line + ['\n'];
      StationListIsJoin(init);
      JoinSnoc(Lines(init) + [line], "", '\n');
      if init == [] {
        assert Lines(init) + [line] == [line];
      } else {
        JoinSnoc(Lines(init), line, '\n');
        JoinSnoc(Lines(init), "", '\n');
      }
      assert Lines(init) + [line] + [""] == Lines(stations) + [""];
    }
  }

  /**
    When no station name contains a line break, splitting the rendered list on
    line breaks gives one `"<i+1>. <name>"` line per station, in order, and the
    empty text after the final line break.
   */
  lemma StationListLines(stations: seq<Device>)
    requires forall i :: 0 <= i < |stations| ==> '\n' !in stations[i].name
    ensures Split(StationList(stations), '\n') == Lines(stations) + [""]
  {
    LinesHaveNoBreak(stations);
    StationListIsJoin(stations);
    SplitJoin(Lines(stations) + [""], '\n');
  }

  lemma LinesHaveNoBreak(stations: seq<Device>)
    requires forall i :: 0 <= i < |stations| ==> '\n' !in stations[i].name
    ensures var fields := Lines(stations) + [""];
      forall k :: 0 <= k < |fields| ==> '\n' !in fields[k]
  {
    var fields := Lines(stations) + [""];
    forall k | 0 <= k < |fields|
      ensures '\n' !in fields[k]
    {
      if k < |stations| {
        LineHasNoBreak(k, stations[k].name);
      }
    }
  }

  lemma LineHasNoBreak(i: nat, name: string)
    requires '\n' !in name
    ensures '\n' !in NatToDecimal(i + 1) + ". " + name
  {
    var number := NatToDecimal(i + 1);
    assert forall j :: 0 <= j < |number| ==> IsDigit(number[j]);
    assert '\n' !in number;
    var line := number + ". " + name;
    forall j | 0 <= j < |line|
      ensures line[j] != '\n'
    {
      if j >= |number| + 2 {
        assert line[j] == name[j - |number| - 2];
      }
    }
  }

  // ---------------------------------------------------------------------------
  // Routing
  // ---------------------------------------------------------------------------

  /** `handleCommand`: `start` and `listdevices` are routed, any other command does nothing. */
  function CommandEffect(clientId: string, store: map<Int64, Session>, chatId: Int64, cmd: Command,
                         setup: TokenSetup, fetch: StationFetch): Effect
  {
    if cmd.name == StartCmd then StartEffect(clientId, store, chatId, cmd.args, setup)
    else if cmd.name == ListDevicesCmd then Effect(None, ListDevicesReplies(store, chatId, fetch))
    else Effect(None, [])
  }

  /** What one update does: only a message that is a command is dispatched. */
  function UpdateEffect(clientId: string, store: map<Int64, Session>, u: Update,
                        setup: TokenSetup, fetch: StationFetch): Effect
  {
    if u.message.None? || u.message.value.command.None? then Effect(None, [])
    else CommandEffect(clientId, store, u.message.value.chatId, u.message.value.command.value, setup, fetch)
  }

  /** A command is answered exactly when it is `start` or `listdevices`; only `start` saves. */
  lemma RoutingAnswers(clientId: string, store: map<Int64, Session>, chatId: Int64, cmd: Command,
                       setup: TokenSetup, fetch: StationFetch)
    ensures var e := CommandEffect(clientId, store, chatId, cmd, setup, fetch);
      (e.replies != [] <==> cmd.name == StartCmd || cmd.name == ListDevicesCmd) &&
      (e.saved.Some? ==> cmd.name == StartCmd)
  {
    if cmd.name == StartCmd {
      StartSavesOwnChat(clientId, store, chatId, cmd.args, setup);
    } else if cmd.name == ListDevicesCmd {
      if chatId in store {
        ListDevicesWithSession(store, chatId, fetch);
      }
    }
  }

  /** Updates without a message and messages that are not commands change nothing. */
  lemma NonCommandsIgnored(clientId: string, store: map<Int64, Session>, u: Update,
                           setup: TokenSetup, fetch: StationFetch)
    requires u.message.None? || u.message.value.command.None?
    ensures UpdateEffect(clientId, store, u, setup, fetch) == Effect(None, [])
  {
  }

  /** The session store together with the messages sent so far. */
  datatype BotState = BotState(store: map<Int64, Session>, sent: seq<Outbound>)

  /** `Run`'s loop body on the state: the update's effect applied, its replies appended. */
  function Step(clientId: string, st: BotState, u: Update, setup: TokenSetup, fetch: StationFetch): BotState
  {
    var e := UpdateEffect(clientId, st.store, u, setup, fetch);
    BotState(Apply(st.store, e), st.sent + (if u.message.Some? then Deliver(u.message.value.chatId, e.replies) else []))
  }

  /** The state after a sequence of updates, processed in order. */
  function Replay(clientId: string, st: BotState, updates: seq<Update>,
                  setup: TokenSetup, fetch: StationFetch): BotState
    decreases |updates|
  {
    if updates == [] then st
    else Step(clientId, Replay(clientId, st, updates[..|updates| - 1], setup, fetch), updates[|updates| - 1], setup, fetch)
  }

  /** Processing two batches of updates one after the other is processing them together. */
  lemma {:induction false} ReplayConcat(clientId: string, st: BotState, a: seq<Update>, b: seq<Update>,
                                        setup: TokenSetup, fetch: StationFetch)
    ensures Replay(clientId, st, a + b, setup, fetch) ==
      Replay(clientId, Replay(clientId, st, a, setup, fetch), b, setup, fetch)
    decreases |b|
  {
    if b == [] {
      assert a + b == a;
    } else {
      var b' := b[..|b| - 1];
      assert (a + b)[..|a + b| - 1] == a + b';
      assert (a + b)[|a + b| - 1] == b[|b| - 1];
      ReplayConcat(clientId, st, a, b', setup, fetch);
    }
  }

  /** Every session in the store is filed under its own chat id. */
  predicate WellKeyed(store: map<Int64, Session>)
  {
    forall id :: id in store ==> store[id].chatId == id
  }

  /** Processing updates keeps every session under its own chat id. */
  lemma {:induction false} ReplayWellKeyed(clientId: string, st: BotState, updates: seq<Update>,
                                           setup: TokenSetup, fetch: StationFetch)
    requires WellKeyed(st.store)
    ensures WellKeyed(Replay(clientId, st, updates, setup, fetch).store)
    decreases |updates|
  {
    if updates != [] {
      var before := Replay(clientId, st, updates[..|updates| - 1], setup, fetch).store;
      ReplayWellKeyed(clientId, st, updates[..|updates| - 1], setup, fetch);
      var u := updates[|updates| - 1];
      if u.message.Some? && u.message.value.command.Some? {
        var cmd := u.message.value.command.value;
        if cmd.name == StartCmd {
          StartSavesOwnChat(clientId, before, u.message.value.chatId, cmd.args, setup);
        }
      }
    }
  }

  // ---------------------------------------------------------------------------
  // The bot
  // ---------------------------------------------------------------------------

  /** The bot: its OAuth client id, its session provider, and the messages it has sent. */
  class Bot {
    const clientId: string
    const sessionProvider: InMemorySessionProvider
    var outbox: seq<Outbound>

    ghost predicate Valid()
      reads this, sessionProvider
    {
      sessionProvider.Valid()
    }

    /** `NewBot`: an empty session provider and nothing sent yet. */
    constructor (clientId: string)
      ensures Valid() && fresh(sessionProvider)
      ensures this.clientId == clientId && sessionProvider.sessions == map[] && outbox == []
    {
      this.clientId := clientId;
      sessionProvider := new InMemorySessionProvider();
      outbox := [];
    }

    /** `send`: one more message in the trace. */
    method Send(chatId: Int64, text: string)
      modifies this
      ensures outbox == old(outbox) + [Outbound(chatId, text)]
    {
      outbox := outbox + [Outbound(chatId, text)];
    }

    method HandleStartCommand(chatId: Int64, args: string, setup: TokenSetup)
      requires Valid()
      modifies this, sessionProvider
      ensures Valid()
      ensures var e := StartEffect(clientId, old(sessionProvider.sessions), chatId, args, setup);
        sessionProvider.sessions == Apply(old(sessionProvider.sessions), e) &&
        outbox == old(outbox) + Deliver(chatId, e.replies)
    {
      var existing := sessionProvider.TryGet(chatId);
      if existing.Some? {
        Send(existing.value.chatId, ReadyText);
        return;
      }
      if args != "" {
        var decoded := DecodeString(args);
        if decoded.Some? {
          var tokens := setup(BytesToString(decoded.value));
          if tokens.Failure? {
            Send(chatId, AuthFailedText);
            // The source falls through to saving the session here; this model returns.
            return;
          }
          var s := Session(chatId, tokens.value.0, tokens.value.1, None);
          sessionProvider.SaveOrUpdate(s);
          Send(chatId, AuthCompleteText);
          return;
        }
      }
      Send(chatId, GreetingText);
      Send(chatId, OAuthUrl(clientId));
    }

    method HandleListDevicesCommand(chatId: Int64, fetch: StationFetch)
      requires Valid()
      modifies this
      ensures Valid()
      ensures outbox == old(outbox) + Deliver(chatId, ListDevicesReplies(sessionProvider.sessions, chatId, fetch))
    {
      var found := sessionProvider.TryGet(chatId);
      if found.None? {
        Send(chatId, AuthRequiredText);
        return;
      }
      var s := found.value;
      var devices := fetch(s);
      if devices.Failure? {
        Send(s.chatId, StationsErrorText);
        return;
      }
      if devices.value == [] {
        Send(s.chatId, NoStationsText);
        return;
      }
      var text := RenderStations(devices.value);
      Send(s.chatId, text);
    }

    method HandleCommand(chatId: Int64, cmd: Command, setup: TokenSetup, fetch: StationFetch)
      requires Valid()
      modifies this, sessionProvider
      ensures Valid()
      ensures var e := CommandEffect(clientId, old(sessionProvider.sessions), chatId, cmd, setup, fetch);
        sessionProvider.sessions == Apply(old(sessionProvider.sessions), e) &&
        outbox == old(outbox) + Deliver(chatId, e.replies)
    {
      if cmd.name == StartCmd {
        HandleStartCommand(chatId, cmd.args, setup);
      } else if cmd.name == ListDevicesCmd {
        HandleListDevicesCommand(chatId, fetch);
      }
    }

    /** One iteration of `Run`'s loop over the update channel. */
    method HandleUpdate(u: Update, setup: TokenSetup, fetch: StationFetch)
      requires Valid()
      modifies this, sessionProvider
      ensures Valid()
      ensures BotState(sessionProvider.sessions, outbox) ==
        Step(clientId, BotState(old(sessionProvider.sessions), old(outbox)), u, setup, fetch)
    {
      if u.message.None? {
        return;
      }
      var msg := u.message.value;
      if msg.command.Some? {
        HandleCommand(msg.chatId, msg.command.value, setup, fetch);
      }
    }

    /** `Run` over a finite sequence of updates. */
    method Run(updates: seq<Update>, setup: TokenSetup, fetch: StationFetch)
      requires Valid()
      modifies this, sessionProvider
      ensures Valid()
      ensures BotState(sessionProvider.sessions, outbox) ==
        Replay(clientId, BotState(old(sessionProvider.sessions), old(outbox)), updates, setup, fetch)
    {
      ghost var start := BotState(sessionProvider.sessions, outbox);
      var i := 0;
      while i < |updates|
        invariant 0 <= i <= |updates|
        invariant Valid()
        invariant BotState(sessionProvider.sessions, outbox) == Replay(clientId, start, updates[..i], setup, fetch)
      {
        assert updates[..i + 1][..i] == updates[..i];
        HandleUpdate(updates[i], setup, fetch);
        i := i + 1;
      }
      assert updates[..i] == updates;
    }
  }

  /** The list text, built line by line as the source fills its buffer. */
  method RenderStations(stations: seq<Device>) returns (text: string)
    ensures text == StationList(stations)
  {
    text := "";
    var i := 0;
    while i < |stations|
      invariant 0 <= i <= |stations|
      invariant text == StationList(stations[..i])
    {
      text := text + NatToDecimal(i + 1) + ". " + stations[i].name;
      text := text + "\n";
      assert stations[..i + 1][..i] == stations[..i];
      i := i + 1;
    }
    assert stations[..i] == stations;
  }
}
