/**
 * The `chat <msg>` command handler of the gpt-chat plugin: reject a missing session
 * or a direct message, resolve the (user, channel) pair in the session list, reject
 * nil identifiers, count the turn, query the history, assemble the completion
 * request, and build the row to persist. Errors thrown by the two awaited calls
 * (the history query and the completion) become the returned text.
 *
 * `ChatOutcome` is the specification of one invocation as a value; `Plugin.ChatAction`
 * is the handler over the plugin's mutable session list, proved equal to it.
 */
module ChatCommand {
  import opened Wrappers
  import opened Database
  import opened Sessions
  import opened Messages

  const SessionNullError := "error: session is null"
  const DirectWarning := "warn: 该命令仅支持在群组内访问"
  const NilIdError := "error: userId | channelId is nil"
  const InternalErrorLabel := "服务器内部错误"

  /** What the host supplies about the invoking message. */
  datatype ChatSession = ChatSession(isDirect: bool, userId: Id, channelId: Id, timestamp: int)

  /** Sort direction of a query's `orderBy`. */
  datatype SortDirection = Ascending | Descending

  /** The column the history is sorted on. */
  const HistoryOrderKey := "create_time"

  /** The history query the handler issues: filters on user, group and session, sorted
      on `orderKey` in `direction`, at most `limit` rows. */
  datatype HistoryQuery = HistoryQuery(
    userId: Id, groupId: Id, sessionId: string, orderKey: string, direction: SortDirection, limit: nat)

  /** Everything one invocation produces: the new session list, the returned text, the
      history query issued, the completion request sent and the row handed to the store. */
  datatype Outcome = Outcome(
    sessions: seq<SessionInfo>,
    reply: string,
    query: Option<HistoryQuery>,
    request: Option<seq<Message>>,
    row: Option<ChatDraft>)

  /** The text returned for an error caught by the handler: the fixed label, and after
      it the error's message, which can be read back from the text. */
  function InternalError(message: string): (r: string)
    ensures |r| == |InternalErrorLabel| + |message|
    ensures r[..|InternalErrorLabel|] == InternalErrorLabel && r[|InternalErrorLabel|..] == message
  {
    InternalErrorLabel + message
  }

  /** `content || ""`: a null or empty reply becomes the empty string. */
  function AnswerText(content: Option<string>): (r: string)
    ensures r == "" <==> content.None? || content == Some("")
    ensures r != "" ==> content == Some(r)
  {
    match content
    case None => ""
    case Some(text) => text
  }

  /**
   * One invocation of the handler on the session list `entries`, with `limit` the
   * configured `continuousChatCount`. The environment is given as inputs: the fresh
   * identifier `randomUUID` would return, the answer to the history query and the
   * answer of the completion endpoint (`Failure` for a thrown error).
   */
  function ChatOutcome(
    entries: seq<SessionInfo>, limit: nat, session: Option<ChatSession>, msg: string, forceNew: bool,
    freshId: string, history: Result<seq<Chat>, string>, completion: Result<Option<string>, string>): (r: Outcome)
    ensures Extends(entries, r.sessions) && |r.sessions| <= |entries| + 1
    ensures r.row.Some? ==> r.reply == r.row.value.answer && r.row.value.message == msg
    ensures r.row.Some? ==> r.query.Some? && r.query.value.sessionId == r.row.value.sessionId
    ensures r.request.Some? ==> r.query.Some? && history.Success? && r.request.value == RequestMessages(history.value, msg)
    ensures r.query.None? ==> r.request.None? && r.row.None?
  {
    if session.None? then Outcome(entries, SessionNullError, None, None, None)
    else
      var s := session.value;
      if s.isDirect then Outcome(entries, DirectWarning, None, None, None)
      else
        var resolved := Resolve(entries, s.userId, s.channelId, forceNew, freshId);
        if s.userId.None? || s.channelId.None? then Outcome(resolved.sessions, NilIdError, None, None, None)
        else
          var counted := CountTurn(resolved.sessions, resolved.now);
          var now := counted.current;
          var query := Some(HistoryQuery(now.userId, now.groupId, now.sId, HistoryOrderKey, Descending, limit));
          match history
          case Failure(err) => Outcome(counted.sessions, InternalError(err), query, None, None)
          case Success(q) =>
            var request := Some(RequestMessages(q, msg));
            match completion
            case Failure(err) => Outcome(counted.sessions, InternalError(err), query, request, None)
            case Success(content) =>
              var answer := AnswerText(content);
              var row := ChatDraft(now.sId, s.userId.value, s.channelId.value, msg, answer, s.timestamp);
              Outcome(counted.sessions, answer, query, request, Some(row))
  }

  /** The state `apply` sets up for the command: the configuration it reads and the
      session list the handler closes over. */
  class Plugin {
    const continuousChatCount: nat
    var sessionList: seq<SessionInfo>

    /** What the handler keeps true of the list when invocations run one at a time. */
    ghost predicate Valid()
      reads this
    {
      UniquePairs(sessionList) && UniqueIds(sessionList)
    }

    constructor (continuousChatCount: nat)
      ensures this.continuousChatCount == continuousChatCount
      ensures sessionList == [] && Valid()
    {
      this.continuousChatCount := continuousChatCount;
      sessionList := [];
    }

    /** `sessionList.find(...)`: the first entry for the pair. */
    method FindSession(userId: Id, channelId: Id) returns (found: Option<nat>)
      ensures found == FirstMatch(sessionList, userId, channelId)
    {
      var i := 0;
      while i < |sessionList|
        invariant 0 <= i <= |sessionList|
        invariant forall j :: 0 <= j < i ==> !Matches(sessionList[j], userId, channelId)
      {
        if Matches(sessionList[i], userId, channelId) {
          return Some(i);
        }
        i := i + 1;
      }
      return None;
    }

    /** Lines 72-106 of the handler: find the pair, append a new record on first
        contact, or make a one-turn record under `-n`. */
    method ResolveSession(userId: Id, channelId: Id, forceNew: bool, freshId: string) returns (now: Resolution)
      modifies this
      ensures Resolved(sessionList, now) == Resolve(old(sessionList), userId, channelId, forceNew, freshId)
    {
      var found := FindSession(userId, channelId);
      if found.None? {
        var newS := NewSession(userId, channelId, freshId);
        sessionList := sessionList + [newS];
        now := Stored(|sessionList| - 1);
      } else if forceNew {
        now := Unstored(NewSession(userId, channelId, freshId));
      } else {
        now := Stored(found.value);
      }
    }

    /** `nowSession.msgCount += 1`, on the list entry when the record is stored. */
    method CountSession(now: Resolution) returns (nowSession: SessionInfo)
      requires now.Stored? ==> now.index < |sessionList|
      modifies this
      ensures Counted(sessionList, nowSession) == CountTurn(old(sessionList), now)
    {
      match now {
        case Stored(i) =>
          nowSession := sessionList[i].(msgCount := sessionList[i].msgCount + 1);
          sessionList := sessionList[i := nowSession];
        case Unstored(t) =>
          nowSession := t.(msgCount := t.msgCount + 1);
      }
    }

    /** The `.action(...)` callback of the `chat` command. */
    method ChatAction(
      session: Option<ChatSession>, msg: string, forceNew: bool, freshId: string,
      history: Result<seq<Chat>, string>, completion: Result<Option<string>, string>)
      returns (reply: string, query: Option<HistoryQuery>, request: Option<seq<Message>>, row: Option<ChatDraft>)
      requires Valid() && FreshId(sessionList, freshId)
      modifies this
      ensures Valid()
      ensures Outcome(sessionList, reply, query, request, row)
        == ChatOutcome(old(sessionList), continuousChatCount, session, msg, forceNew, freshId, history, completion)
    {
      query, request, row := None, None, None;
      if session.None? {
        return SessionNullError, query, request, row;
      }
      var s := session.value;
      if s.isDirect {
        return DirectWarning, query, request, row;
      }
      ghost var before := sessionList;
      TurnKeepsUnique(before, s.userId, s.channelId, forceNew, freshId);
      var now := ResolveSession(s.userId, s.channelId, forceNew, freshId);
      if s.userId.None? || s.channelId.None? {
        return NilIdError, query, request, row;
      }
      var nowSession := CountSession(now);
      query := Some(HistoryQuery(nowSession.userId, nowSession.groupId, nowSession.sId, HistoryOrderKey, Descending, continuousChatCount));
      if history.Failure? {
        reply := InternalError(history.error);
      } else {
        var messages := BuildMessages(history.value, msg);
        request := Some(messages);
        if completion.Failure? {
          reply := InternalError(completion.error);
        } else {
          reply := AnswerText(completion.value);
          row := Some(ChatDraft(nowSession.sId, s.userId.value, s.channelId.value, msg, reply, s.timestamp));
        }
      }
    }
  }
}
