/**
 * What the `chat` handler does to the session list and what it returns, stated over
 * `ChatCommand.ChatOutcome` for one invocation and for two invocations in a row.
 */
module ChatProperties {
  import opened Wrappers
  import opened Database
  import opened Sessions
  import opened Messages
  import opened ChatCommand

  /** The host passed a group session with both identifiers present. */
  predicate GroupTurn(s: ChatSession) {
    !s.isDirect && s.userId.Some? && s.channelId.Some?
  }

  /** First message from a pair: exactly one record is appended, it carries the fresh
      identifier and, after counting, one turn; earlier entries are untouched and the
      history is queried under the fresh identifier. This holds with or without `-n`. */
  lemma FirstContactAppendsOne(
    entries: seq<SessionInfo>, limit: nat, s: ChatSession, msg: string, forceNew: bool,
    freshId: string, history: Result<seq<Chat>, string>, completion: Result<Option<string>, string>)
    requires GroupTurn(s)
    requires FirstMatch(entries, s.userId, s.channelId).None?
    ensures var r := ChatOutcome(entries, limit, Some(s), msg, forceNew, freshId, history, completion);
      r.sessions == entries + [SessionInfo(s.userId, s.channelId, 1, freshId)] &&
      r.query == Some(HistoryQuery(s.userId, s.channelId, freshId, HistoryOrderKey, Descending, limit))
  {
    var resolved := Resolve(entries, s.userId, s.channelId, forceNew, freshId);
    assert resolved.now == Stored(|entries|);
  }

  /** For a pair with no entry the `-n` flag changes nothing: the first-contact branch
      is tested first. */
  lemma NewFlagIgnoredForNewPair(
    entries: seq<SessionInfo>, limit: nat, s: ChatSession, msg: string,
    freshId: string, history: Result<seq<Chat>, string>, completion: Result<Option<string>, string>)
    requires FirstMatch(entries, s.userId, s.channelId).None?
    ensures ChatOutcome(entries, limit, Some(s), msg, true, freshId, history, completion)
         == ChatOutcome(entries, limit, Some(s), msg, false, freshId, history, completion)
  {
  }

  /** A later message without `-n` reuses the stored record: its identifier is kept, its
      count goes up by exactly one, no other entry changes and the list keeps its length.
      No turn count, however large, starts a new conversation. */
  lemma ContinuingTurnReusesSession(
    entries: seq<SessionInfo>, limit: nat, s: ChatSession, msg: string,
    freshId: string, history: Result<seq<Chat>, string>, completion: Result<Option<string>, string>)
    requires GroupTurn(s)
    requires FirstMatch(entries, s.userId, s.channelId).Some?
    ensures var i := FirstMatch(entries, s.userId, s.channelId).value;
      var r := ChatOutcome(entries, limit, Some(s), msg, false, freshId, history, completion);
      |r.sessions| == |entries| &&
      r.sessions == entries[i := entries[i].(msgCount := entries[i].msgCount + 1)] &&
      r.query == Some(HistoryQuery(s.userId, s.channelId, entries[i].sId, HistoryOrderKey, Descending, limit)) &&
      (r.row.Some? ==> r.row.value.sessionId == entries[i].sId)
  {
  }

  /** `-n` on an existing pair: the turn runs under the fresh identifier, which differs
      from the stored one, and the list is left exactly as it was. */
  lemma ForcedNewLeavesListUntouched(
    entries: seq<SessionInfo>, limit: nat, s: ChatSession, msg: string,
    freshId: string, history: Result<seq<Chat>, string>, completion: Result<Option<string>, string>)
    requires GroupTurn(s)
    requires FirstMatch(entries, s.userId, s.channelId).Some?
    ensures var i := FirstMatch(entries, s.userId, s.channelId).value;
      var r := ChatOutcome(entries, limit, Some(s), msg, true, freshId, history, completion);
      r.sessions == entries &&
      r.query == Some(HistoryQuery(s.userId, s.channelId, freshId, HistoryOrderKey, Descending, limit)) &&
      (FreshId(entries, freshId) ==> freshId != entries[i].sId)
  {
  }

  /** Because the `-n` record is never stored, the next message without `-n` is back
      in the old conversation, whose count the `-n` turn did not touch. */
  lemma ForcedNewDoesNotPersist(
    entries: seq<SessionInfo>, limit: nat, s: ChatSession, msg1: string, msg2: string,
    id1: string, id2: string,
    history1: Result<seq<Chat>, string>, completion1: Result<Option<string>, string>,
    history2: Result<seq<Chat>, string>, completion2: Result<Option<string>, string>)
    requires GroupTurn(s)
    requires FirstMatch(entries, s.userId, s.channelId).Some?
    ensures var i := FirstMatch(entries, s.userId, s.channelId).value;
      var first := ChatOutcome(entries, limit, Some(s), msg1, true, id1, history1, completion1);
      var second := ChatOutcome(first.sessions, limit, Some(s), msg2, false, id2, history2, completion2);
      second.query == Some(HistoryQuery(s.userId, s.channelId, entries[i].sId, HistoryOrderKey, Descending, limit)) &&
      second.sessions[i].msgCount == entries[i].msgCount + 1
  {
    var first := ChatOutcome(entries, limit, Some(s), msg1, true, id1, history1, completion1);
    ForcedNewLeavesListUntouched(entries, limit, s, msg1, id1, history1, completion1);
    assert first.sessions == entries;
    ContinuingTurnReusesSession(entries, limit, s, msg2, id2, history2, completion2);
  }

  /** A missing session or a direct message returns its fixed text before the list is
      looked at: nothing changes, nothing is queried, sent or stored. */
  lemma EarlyRejectionsChangeNothing(
    entries: seq<SessionInfo>, limit: nat, session: Option<ChatSession>, msg: string, forceNew: bool,
    freshId: string, history: Result<seq<Chat>, string>, completion: Result<Option<string>, string>)
    requires session.None? || session.value.isDirect
    ensures var r := ChatOutcome(entries, limit, session, msg, forceNew, freshId, history, completion);
      r.sessions == entries && r.query.None? && r.request.None? && r.row.None? &&
      r.reply == (if session.None? then "error: session is null" else "warn: 该命令仅支持在群组内访问")
  {
  }

  /** The nil-identifier check runs after lookup and append: the error text is returned,
      nothing is queried, but a first contact has already appended its record (with a
      count of zero); an existing pair's list is unchanged. */
  lemma NilIdsCheckedAfterAppend(
    entries: seq<SessionInfo>, limit: nat, s: ChatSession, msg: string, forceNew: bool,
    freshId: string, history: Result<seq<Chat>, string>, completion: Result<Option<string>, string>)
    requires !s.isDirect && (s.userId.None? || s.channelId.None?)
    ensures var r := ChatOutcome(entries, limit, Some(s), msg, forceNew, freshId, history, completion);
      r.reply == "error: userId | channelId is nil" && r.query.None? && r.row.None? &&
      r.sessions == (if FirstMatch(entries, s.userId, s.channelId).None?
                     then entries + [SessionInfo(s.userId, s.channelId, 0, freshId)]
                     else entries)
  {
  }

  /** An error thrown by the history query or by the completion call is returned as
      the label followed by its message, no row is stored, and the turn's count stays
      as the successful path would leave it. */
  lemma ThrownErrorsBecomeReplies(
    entries: seq<SessionInfo>, limit: nat, s: ChatSession, msg: string, forceNew: bool,
    freshId: string, history: Result<seq<Chat>, string>, completion: Result<Option<string>, string>,
    q: seq<Chat>, content: Option<string>)
    requires GroupTurn(s)
    requires history.Failure? || completion.Failure?
    ensures var r := ChatOutcome(entries, limit, Some(s), msg, forceNew, freshId, history, completion);
      var ok := ChatOutcome(entries, limit, Some(s), msg, forceNew, freshId, Success(q), Success(content));
      var err := if history.Failure? then history.error else completion.error;
      r.reply == "服务器内部错误" + err && r.row.None? &&
      r.sessions == ok.sessions && r.query == ok.query
  {
  }

  /** A successful turn: the request is the history entries then the new prompt, the
      stored row carries the turn's session identifier, the caller's user and channel,
      the prompt, the reply text (empty for a null or empty answer) and the timestamp,
      and the handler returns that same reply text. */
  lemma SuccessfulTurnPersistsRow(
    entries: seq<SessionInfo>, limit: nat, s: ChatSession, msg: string, forceNew: bool,
    freshId: string, q: seq<Chat>, content: Option<string>)
    requires GroupTurn(s)
    ensures var r := ChatOutcome(entries, limit, Some(s), msg, forceNew, freshId, Success(q), Success(content));
      var answer := if content.None? || content == Some("") then "" else content.value;
      r.query.Some? && r.request == Some(RequestMessages(q, msg)) &&
      r.row == Some(ChatDraft(r.query.value.sessionId, s.userId.value, s.channelId.value, msg, answer, s.timestamp)) &&
      r.reply == answer
  {
  }

  /** With the history query capped at `limit` rows, the request sent has at most
      2 * limit + 1 entries. */
  lemma RequestWithinLimit(
    entries: seq<SessionInfo>, limit: nat, session: Option<ChatSession>, msg: string, forceNew: bool,
    freshId: string, history: Result<seq<Chat>, string>, completion: Result<Option<string>, string>)
    requires history.Success? ==> |history.value| <= limit
    ensures var r := ChatOutcome(entries, limit, session, msg, forceNew, freshId, history, completion);
      r.request.Some? ==> |r.request.value| <= 2 * limit + 1
  {
    if history.Success? {
      RequestBounded(history.value, msg, limit);
    }
  }

  /** Run one invocation at a time and the list never holds two records for one pair
      nor two records with one identifier. */
  lemma OutcomeKeepsUnique(
    entries: seq<SessionInfo>, limit: nat, session: Option<ChatSession>, msg: string, forceNew: bool,
    freshId: string, history: Result<seq<Chat>, string>, completion: Result<Option<string>, string>)
    requires UniquePairs(entries) && UniqueIds(entries) && FreshId(entries, freshId)
    ensures var r := ChatOutcome(entries, limit, session, msg, forceNew, freshId, history, completion);
      UniquePairs(r.sessions) && UniqueIds(r.sessions)
  {
    if session.Some? && !session.value.isDirect {
      TurnKeepsUnique(entries, session.value.userId, session.value.channelId, forceNew, freshId);
    }
  }

  /** Two plain messages from a new pair: the second reuses the first's identifier,
      its count reaches two, and with the first turn as its history the request is
      the first prompt, the first reply and the second prompt, in that order. */
  lemma TwoTurnConversation(
    limit: nat, s: ChatSession, hello: string, howAreYou: string, freshId: string, id2: string,
    reply1: string, reply2: Option<string>, rowId: int)
    requires GroupTurn(s)
    ensures var first := ChatOutcome([], limit, Some(s), hello, false, freshId, Success([]), Success(Some(reply1)));
      first.request == Some([Message(User, hello)]) && first.row.Some? && first.row.value.sessionId == freshId
    ensures var first := ChatOutcome([], limit, Some(s), hello, false, freshId, Success([]), Success(Some(reply1)));
      var stored := Chat(rowId, freshId, s.userId.value, s.channelId.value, hello, reply1, s.timestamp);
      var second := ChatOutcome(first.sessions, limit, Some(s), howAreYou, false, id2, Success([stored]), Success(reply2));
      second.query.Some? && second.query.value.sessionId == freshId &&
      second.sessions == [SessionInfo(s.userId, s.channelId, 2, freshId)] &&
      second.request == Some([Message(User, hello), Message(Assistant, reply1), Message(User, howAreYou)])
  {
    var first := ChatOutcome([], limit, Some(s), hello, false, freshId, Success([]), Success(Some(reply1)));
    FirstContactAppendsOne([], limit, s, hello, false, freshId, Success([]), Success(Some(reply1)));
    RequestBounded([], hello, limit);
    assert first.sessions == [SessionInfo(s.userId, s.channelId, 1, freshId)];
    var stored := Chat(rowId, freshId, s.userId.value, s.channelId.value, hello, reply1, s.timestamp);
    ContinuingTurnReusesSession(first.sessions, limit, s, howAreYou, id2, Success([stored]), Success(reply2));
    var request := RequestMessages([stored], howAreYou);
    assert request == [Message(User, hello), Message(Assistant, reply1), Message(User, howAreYou)];
  }
}
