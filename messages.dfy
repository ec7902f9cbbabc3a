/**
 * Assembly of the completion request: each history row becomes a user entry with
 * its prompt followed by an assistant entry with its reply, in the order the rows
 * were given, and the new prompt closes the list as a user entry.
 */
module Messages {
  import opened Database

  datatype Role = User | Assistant

  /** One entry of the request's `messages` array. */
  datatype Message = Message(role: Role, content: string)

  /** The two entries one history row contributes: its prompt as a user entry, then
      its reply as an assistant entry. */
  function Exchange(c: Chat): (r: seq<Message>)
    ensures |r| == 2
    ensures r[0].role == User && r[0].content == c.message
    ensures r[1].role == Assistant && r[1].content == c.answer
  {
    [Message(User, c.message), Message(Assistant, c.answer)]
  }

  /** The entries contributed by the history rows, in their order. */
  function HistoryMessages(q: seq<Chat>): (r: seq<Message>)
    ensures |r| == 2 * |q|
    ensures forall i :: 0 <= i < |q| ==>
      r[2 * i] == Message(User, q[i].message) && r[2 * i + 1] == Message(Assistant, q[i].answer)
  {
    if q == [] then [] else Exchange(q[0]) + HistoryMessages(q[1..])
  }

  /** The whole request: the history entries, then the new prompt. */
  function RequestMessages(q: seq<Chat>, msg: string): (r: seq<Message>)
    ensures |r| == 2 * |q| + 1
    ensures forall i :: 0 <= i < |q| ==>
      r[2 * i] == Message(User, q[i].message) && r[2 * i + 1] == Message(Assistant, q[i].answer)
    ensures r[2 * |q|] == Message(User, msg)
  {
    HistoryMessages(q) + [Message(User, msg)]
  }

  /** Appending a row to the history appends its two entries to the request. */
  lemma {:induction false} HistoryMessagesSnoc(p: seq<Chat>, c: Chat)
    ensures HistoryMessages(p + [c]) == HistoryMessages(p) + Exchange(c)
  {
    if p != [] {
      assert (p + [c])[1..] == p[1..] + [c];
      HistoryMessagesSnoc(p[1..], c);
    }
  }

  /** Roles alternate user, assistant, user, ..., starting and ending with user. */
  lemma RolesAlternate(q: seq<Chat>, msg: string, k: nat)
    requires k < |RequestMessages(q, msg)|
    ensures RequestMessages(q, msg)[k].role == if k % 2 == 0 then User else Assistant
  {
    var r := RequestMessages(q, msg);
    if k < 2 * |q| {
      var i := k / 2;
      assert i < |q|;
      if k % 2 == 0 {
        assert k == 2 * i;
        assert r[2 * i] == Message(User, q[i].message);
      } else {
        assert k == 2 * i + 1;
        assert r[2 * i + 1] == Message(Assistant, q[i].answer);
      }
    }
  }

  /** With at most `limit` history rows the request has at most 2 * limit + 1 entries;
      without history it is the new prompt alone. */
  lemma RequestBounded(q: seq<Chat>, msg: string, limit: nat)
    requires |q| <= limit
    ensures |RequestMessages(q, msg)| <= 2 * limit + 1
    ensures q == [] ==> RequestMessages(q, msg) == [Message(User, msg)]
  {
  }

  /** The `for ... of q` loop that pushes two entries per row, then the final push. */
  method BuildMessages(q: seq<Chat>, msg: string) returns (messages: seq<Message>)
    ensures messages == RequestMessages(q, msg)
  {
    messages := [];
    for i := 0 to |q|
      invariant messages == HistoryMessages(q[..i])
    {
      var a := Message(User, q[i].message);
      var b := Message(Assistant, q[i].answer);
      messages := messages + [a];
      messages := messages + [b];
      assert q[..i + 1] == q[..i] + [q[i]];
      HistoryMessagesSnoc(q[..i], q[i]);
    }
    assert q[..|q|] == q;
    messages := messages + [Message(User, msg)];
  }
}
