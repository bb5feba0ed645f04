/** The message listing query shared by the polling endpoint (app/api/chat/messages/route.ts)
    and the reply handler's history read (app/api/chat/ai/route.ts): select one session's
    messages, optionally only those after a cursor instant, order them by creation time
    ascending and keep the first `limit`. Rows with equal creation times come out in the reverse of their stored order. */
module MessageQuery {
  import opened Text
  import opened ChatData

  predicate SortedByTime(s: seq<Message>) {
    forall i, j :: 0 <= i < j < |s| ==> s[i].createdAt <= s[j].createdAt
  }

  /** Insert into a time-ordered list after every row that is not later. */
  function Insert(m: Message, s: seq<Message>): (r: seq<Message>)
    requires SortedByTime(s)
    ensures SortedByTime(r)
    ensures multiset(r) == multiset(s) + multiset{m}
    ensures |r| == |s| + 1 && (r[0] == m || (|s| > 0 && r[0] == s[0]))
    decreases |s|
  {
    if s == [] then [m]
    else if m.createdAt < s[0].createdAt then [m] + s
    else
      var rest := Insert(m, s[1..]);
      assert s == [s[0]] + s[1..];
      ConsSorted(s[0], rest);
      [s[0]] + rest
  }

  /** Putting a row no later than the head in front of a time-ordered list keeps it ordered. */
  lemma ConsSorted(x: Message, rest: seq<Message>)
    requires SortedByTime(rest)
    requires |rest| > 0 ==> x.createdAt <= rest[0].createdAt
    ensures SortedByTime([x] + rest)
  {
    var r := [x] + rest;
    assert forall j :: 1 <= j < |r| ==> r[j] == rest[j - 1];
  }

  /** `.order('created_at', { ascending: true })`. */
  function SortByTime(s: seq<Message>): (r: seq<Message>)
    ensures SortedByTime(r)
    ensures multiset(r) == multiset(s)
  {
    if s == [] then []
    else
      assert s == [s[0]] + s[1..];
      Insert(s[0], SortByTime(s[1..]))
  }

  /** Two rows created at the same instant come out of the ordering in the reverse of their
      stored order. */
  lemma TiesReversed(a: Message, b: Message)
    requires a.createdAt == b.createdAt
    ensures SortByTime([a, b]) == [b, a]
  {
    assert [a, b][1..] == [b];
    assert [b][1..] == [];
  }

  /** The row filter: `.eq('session_id', sid)` and, with a cursor, `.gt('created_at', t)`. */
  predicate Passes(m: Message, sid: Id, after: Option<Time>) {
    m.sessionId == sid && (after.Some? ==> m.createdAt > after.value)
  }

  function Select(msgs: seq<Message>, sid: Id, after: Option<Time>): (r: seq<Message>)
    ensures forall i :: 0 <= i < |r| ==> Passes(r[i], sid, after)
    ensures forall m :: multiset(r)[m] == if Passes(m, sid, after) then multiset(msgs)[m] else 0
  {
    if msgs == [] then []
    else
      assert msgs == [msgs[0]] + msgs[1..];
      (if Passes(msgs[0], sid, after) then [msgs[0]] else []) + Select(msgs[1..], sid, after)
  }

  /** `.limit(n)`. */
  function Take<T>(s: seq<T>, n: nat): (r: seq<T>)
    ensures |r| == if |s| <= n then |s| else n
    ensures r == s[..|r|]
    ensures |s| <= n ==> r == s
  {
    if |s| <= n then s else s[..n]
  }

  /** Taking a prefix of a time-ordered list keeps the earliest rows: every row left out is no
      earlier than any row kept. */
  lemma TakeEarliest(s: seq<Message>, n: nat)
    requires SortedByTime(s)
    ensures forall x, y :: x in multiset(s) - multiset(Take(s, n)) && y in Take(s, n) ==> y.createdAt <= x.createdAt
  {
    if |s| > n {
      assert s == s[..n] + s[n..];
      assert multiset(s) - multiset(s[..n]) == multiset(s[n..]);
      forall x, y | x in multiset(s) - multiset(Take(s, n)) && y in Take(s, n)
        ensures y.createdAt <= x.createdAt
      {
        assert x in s[n..];
        var j :| n <= j < |s| && s[j] == x;
        var i :| 0 <= i < n && s[i] == y;
      }
    }
  }

  /** A prefix holds part of the rows, and all of them when the list is short enough. */
  lemma TakePart(s: seq<Message>, n: nat)
    ensures multiset(Take(s, n)) <= multiset(s)
    ensures |s| <= n ==> multiset(Take(s, n)) == multiset(s)
  {
    var r := Take(s, n);
    assert s == r + s[|r|..];
  }

  /** The prefix of an ordering of `selected` inherits the filter and keeps the earliest rows. */
  lemma OrderedPrefix(selected: seq<Message>, sorted: seq<Message>, sid: Id, after: Option<Time>, limit: nat)
    requires forall i :: 0 <= i < |selected| ==> Passes(selected[i], sid, after)
    requires SortedByTime(sorted) && multiset(sorted) == multiset(selected)
    ensures var r := Take(sorted, limit);
      && |r| == (if |selected| <= limit then |selected| else limit)
      && SortedByTime(r)
      && (forall i :: 0 <= i < |r| ==> Passes(r[i], sid, after))
      && multiset(r) <= multiset(selected)
      && (|selected| <= limit ==> multiset(r) == multiset(selected))
      && (forall x, y :: x in multiset(selected) - multiset(r) && y in r ==> y.createdAt <= x.createdAt)
  {
    var r := Take(sorted, limit);
    TakePart(sorted, limit);
    TakeEarliest(sorted, limit);
    assert |sorted| == |selected| by {
      assert |multiset(sorted)| == |multiset(selected)|;
    }
    forall i | 0 <= i < |r| ensures Passes(r[i], sid, after) {
      assert r[i] in multiset(selected);
      var j :| 0 <= j < |selected| && selected[j] == r[i];
    }
  }

  /** The whole query: filter, order ascending, limit. */
  function Query(msgs: seq<Message>, sid: Id, after: Option<Time>, limit: nat): (r: seq<Message>)
    ensures |r| == if |Select(msgs, sid, after)| <= limit then |Select(msgs, sid, after)| else limit
    ensures SortedByTime(r)
    ensures forall i :: 0 <= i < |r| ==> Passes(r[i], sid, after)
    ensures multiset(r) <= multiset(Select(msgs, sid, after))
    ensures |Select(msgs, sid, after)| <= limit ==> multiset(r) == multiset(Select(msgs, sid, after))
    ensures forall x, y :: x in multiset(Select(msgs, sid, after)) - multiset(r) && y in r ==> y.createdAt <= x.createdAt
  {
    var selected := Select(msgs, sid, after);
    var sorted := SortByTime(selected);
    OrderedPrefix(selected, sorted, sid, after, limit);
    Take(sorted, limit)
  }

  /** When a limited list keeps the earliest rows and some row is dropped, a unique latest row is
      among the dropped ones. */
  lemma DroppedIncludesLatest(sel: seq<Message>, r: seq<Message>, newest: Message)
    requires multiset(r) <= multiset(sel) && |r| < |sel|
    requires multiset(sel)[newest] == 1
    requires forall m :: m in sel && m != newest ==> m.createdAt < newest.createdAt
    requires forall x, y :: x in multiset(sel) - multiset(r) && y in r ==> y.createdAt <= x.createdAt
    ensures newest !in r
  {
    var d := multiset(sel) - multiset(r);
    assert multiset(r) + d == multiset(sel);
    assert |d| > 0 by {
      assert |multiset(sel)| == |multiset(r)| + |d|;
    }
    var x :| x in d;
    assert x in sel by {
      assert multiset(sel)[x] > 0;
    }
    if x == newest {
      assert multiset(r)[newest] == 0;
    } else {
      assert x.createdAt < newest.createdAt;
      assert newest in r ==> newest.createdAt <= x.createdAt;
    }
  }

  /** `.eq('id', afterId).single()` over rows with distinct ids: the creation time of the row
      with that id, in whichever session it is. */
  function CursorTime(msgs: seq<Message>, afterId: Id): (r: Option<Time>)
    ensures r.Some? ==> exists i :: 0 <= i < |msgs| && msgs[i].id == afterId && msgs[i].createdAt == r.value
    ensures r.None? ==> forall i :: 0 <= i < |msgs| ==> msgs[i].id != afterId
  {
    if msgs == [] then None
    else if msgs[0].id == afterId then Some(msgs[0].createdAt)
    else
      var r := CursorTime(msgs[1..], afterId);
      assert forall i :: 1 <= i < |msgs| ==> msgs[i] == msgs[1..][i - 1];
      r
  }

  predicate UniqueIds(msgs: seq<Message>) {
    forall i, j :: 0 <= i < j < |msgs| ==> msgs[i].id != msgs[j].id
  }

  /** The columns the polling endpoint returns for each row. */
  datatype WireMessage = WireMessage(id: Id, content: string, senderType: string, createdAt: Time)

  function Wire(m: Message): WireMessage {
    WireMessage(m.id, m.content, SenderName(m.sender), m.createdAt)
  }

  /** The rows as sent: one per message, in order, each carrying the message's id, content and
      time, and a sender name that the column check reads back as the message's role. */
  function WireAll(ms: seq<Message>): (r: seq<WireMessage>)
    ensures |r| == |ms|
    ensures forall i :: 0 <= i < |ms| ==>
      && r[i].id == ms[i].id && r[i].content == ms[i].content && r[i].createdAt == ms[i].createdAt
      && ParseSender(r[i].senderType) == Some(ms[i].sender)
  {
    seq(|ms|, i requires 0 <= i < |ms| => ParseSenderName(ms[i].sender); Wire(ms[i]))
  }

  /** The widget recognises an agent's row by its sender name alone: a sent row reads "admin"
      exactly when its message is the owner's. */
  lemma WireAdminIff(ms: seq<Message>, i: nat)
    requires i < |ms|
    ensures WireAll(ms)[i].senderType == "admin" <==> ms[i].sender == Admin
  {
    assert ParseSender("admin") == Some(Admin);
  }

  /** The listing endpoint's answer: 400 without a session id, 500 when the store reports a read
      error, otherwise the rows in their sent form. */
  datatype ListResult = MissingSessionId | FetchFailed | Listed(rows: seq<WireMessage>)

  const PageLimit: nat := 50

  /** The cursor instant: that of the row the `after` id names, or none when it names no row. */
  function Cursor(msgs: seq<Message>, afterId: Option<Id>): Option<Time> {
    if afterId.Some? then CursorTime(msgs, afterId.value) else None
  }

  /** The messages a successful listing sends, before they are put in their sent form. */
  function Listing(msgs: seq<Message>, sid: Id, afterId: Option<Id>): seq<Message> {
    Query(msgs, sid, Cursor(msgs, afterId), PageLimit)
  }

  /** GET /api/chat/messages, given whether the store reports a read error: a cursor id that
      names no row is ignored. */
  function ListMessages(msgs: seq<Message>, sessionId: Option<Id>, afterId: Option<Id>, readFails: bool): (r: ListResult)
    ensures r.MissingSessionId? <==> sessionId.None?
    ensures r.FetchFailed? <==> sessionId.Some? && readFails
    ensures r.Listed? ==> r.rows == WireAll(Listing(msgs, sessionId.value, afterId))
  {
    match sessionId
    case None => MissingSessionId
    case Some(sid) =>
      if readFails then FetchFailed else Listed(WireAll(Listing(msgs, sid, afterId)))
  }

  /** What a successful listing sends: fifty rows, or all that pass the filter when there are
      fewer, in non-decreasing creation order. */
  lemma ListMessagesShape(msgs: seq<Message>, sid: Id, afterId: Option<Id>)
    ensures ListMessages(msgs, Some(sid), afterId, false).Listed?
    ensures var sel := Select(msgs, sid, Cursor(msgs, afterId));
      var rows := ListMessages(msgs, Some(sid), afterId, false).rows;
      && |rows| == (if |sel| <= 50 then |sel| else 50)
      && (forall i, j :: 0 <= i < j < |rows| ==> rows[i].createdAt <= rows[j].createdAt)
  {
    var sent := Listing(msgs, sid, afterId);
    assert ListMessages(msgs, Some(sid), afterId, false) == Listed(WireAll(sent));
    WireSorted(sent);
  }

  /** The rows sent are the session's, and the earliest of those that pass the filter: none
      left out is earlier than one sent. */
  lemma ListingEarliest(msgs: seq<Message>, sid: Id, afterId: Option<Id>)
    ensures var sel := Select(msgs, sid, Cursor(msgs, afterId));
      var sent := Listing(msgs, sid, afterId);
      && (forall i :: 0 <= i < |sent| ==> sent[i].sessionId == sid)
      && (forall x, y :: x in multiset(sel) - multiset(sent) && y in sent ==> y.createdAt <= x.createdAt)
  {
  }

  /** Sending keeps the creation order. */
  lemma WireSorted(ms: seq<Message>)
    requires SortedByTime(ms)
    ensures forall i, j :: 0 <= i < j < |WireAll(ms)| ==> WireAll(ms)[i].createdAt <= WireAll(ms)[j].createdAt
  {
  }

  /** With a cursor that names a row, only strictly later rows come back, so rows created at the
      same instant as the cursor row are excluded. The cursor row may belong to any session. */
  lemma CursorExcludesTies(msgs: seq<Message>, sid: Id, afterId: Id, k: nat)
    requires UniqueIds(msgs)
    requires k < |msgs| && msgs[k].id == afterId
    ensures var rows := ListMessages(msgs, Some(sid), Some(afterId), false).rows;
      forall i :: 0 <= i < |rows| ==> rows[i].createdAt > msgs[k].createdAt
  {
    var c := CursorTime(msgs, afterId);
    var j :| 0 <= j < |msgs| && msgs[j].id == afterId && msgs[j].createdAt == c.value;
    assert j == k;
  }

  /** A cursor id that names no row leaves the listing unfiltered. */
  lemma UnknownCursorIgnored(msgs: seq<Message>, sid: Id, afterId: Id, readFails: bool)
    requires forall i :: 0 <= i < |msgs| ==> msgs[i].id != afterId
    ensures ListMessages(msgs, Some(sid), Some(afterId), readFails) == ListMessages(msgs, Some(sid), None, readFails)
  {
  }

  /** When no more than fifty rows pass the filter, every one of them is sent: polling with the
      same cursor neither drops nor duplicates rows. */
  lemma ListMessagesComplete(msgs: seq<Message>, sid: Id, afterId: Option<Id>)
    requires |Select(msgs, sid, Cursor(msgs, afterId))| <= 50
    ensures forall m :: multiset(Listing(msgs, sid, afterId))[m]
                        == if Passes(m, sid, Cursor(msgs, afterId)) then multiset(msgs)[m] else 0
    ensures ListMessages(msgs, Some(sid), afterId, false).rows == WireAll(Listing(msgs, sid, afterId))
  {
  }
}
