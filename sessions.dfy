/**
  Tokens, sessions and the in-memory session provider (sessions.go).

  `NewToken` and `NewSession` only wrap their arguments in a record, so they are the
  constructors `Token(value, expiresIn)` and `Session(chatId, oauthToken, csrfToken,
  defaultDevice)`; a Go `nil` pointer is `None`.
 */
module Sessions {
  import opened Wrappers
  import opened Strings
  import opened Topology

  /** An opaque token; `expiresIn` is best-effort metadata in seconds. */
  datatype Token = Token(value: string, expiresIn: Option<int>)

  /** One authenticated conversation. */
  datatype Session = Session(chatId: Int64, oauthToken: Token, csrfToken: Token, defaultDevice: Option<Device>)

  /** `sessions`: a map from chat id to session that the provider updates in place. */
  class InMemorySessionProvider {
    var sessions: map<Int64, Session>

    /** Every session is stored under its own chat id. */
    ghost predicate Valid()
      reads this
    {
      forall id :: id in sessions ==> sessions[id].chatId == id
    }

    /** `NewInMemorySessionProvider`: an empty store. */
    constructor ()
      ensures Valid()
      ensures sessions == map[]
    {
      sessions := map[];
    }

    /** Inserts the session, or replaces whatever was stored for its chat id; nothing is merged. */
    method SaveOrUpdate(newSession: Session)
      requires Valid()
      modifies this
      ensures Valid()
      ensures sessions == old(sessions)[newSession.chatId := newSession]
    {
      sessions := sessions[newSession.chatId := newSession];
    }

    /** The session stored for `chatId`, if any; the store is only read. */
    method TryGet(chatId: Int64) returns (s: Option<Session>)
      requires Valid()
      ensures s.Some? <==> chatId in sessions
      ensures s.Some? ==> s.value == sessions[chatId] && s.value.chatId == chatId
    {
      if chatId in sessions {
        s := Some(sessions[chatId]);
      } else {
        s := None;
      }
    }
  }
}
