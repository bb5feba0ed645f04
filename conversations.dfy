/** The owner's conversation inbox (app/admin/conversations/page.tsx): the search over the loaded
    sessions, the first selection, the owner's reply and the archive action. The loaded rows and
    the signed-in user are inputs; the reply and the archive write to the store. */
module Conversations {
  import opened Text
  import opened ChatData
  import opened ChatStore

  /** A loaded session with the contents of its messages. */
  datatype SessionRow = SessionRow(id: Id, visitorName: Option<string>, visitorEmail: Option<string>,
                                   status: Status, createdAt: Time, contents: seq<string>)

  /** `x?.toLowerCase().includes(q)`: a null field never matches. */
  predicate FieldMatches(field: Option<string>, queryLower: string) {
    field.Some? && Contains(Lower(field.value), queryLower)
  }

  /** The search test: the lower-cased query occurs in the name, the email or some message. */
  predicate RowMatches(row: SessionRow, query: string) {
    var q := Lower(query);
    || FieldMatches(row.visitorName, q)
    || FieldMatches(row.visitorEmail, q)
    || exists k :: 0 <= k < |row.contents| && Contains(Lower(row.contents[k]), q)
  }

  /** `a` is `b` with some elements left out, the rest in their order. */
  predicate SubsequenceOf<T(==)>(a: seq<T>, b: seq<T>)
    decreases |b|
  {
    if a == [] then true
    else if b == [] then false
    else (a[0] == b[0] && SubsequenceOf(a[1..], b[1..])) || SubsequenceOf(a, b[1..])
  }

  /** `filteredSessions`. */
  function Filter(rows: seq<SessionRow>, query: string): (r: seq<SessionRow>)
    ensures |r| <= |rows|
    ensures forall i :: 0 <= i < |r| ==> r[i] in rows && RowMatches(r[i], query)
  {
    if rows == [] then []
    else if RowMatches(rows[0], query) then [rows[0]] + Filter(rows[1..], query)
    else Filter(rows[1..], query)
  }

  /** The filtered list keeps exactly the matching rows, in their loaded order. */
  lemma {:induction false} FilterKeepsMatching(rows: seq<SessionRow>, query: string)
    ensures SubsequenceOf(Filter(rows, query), rows)
    ensures forall x :: x in rows && RowMatches(x, query) ==> x in Filter(rows, query)
  {
    if rows != [] {
      FilterKeepsMatching(rows[1..], query);
      var rest := Filter(rows[1..], query);
      if RowMatches(rows[0], query) {
        assert ([rows[0]] + rest)[1..] == rest;
      } else if rest != [] {
        assert SubsequenceOf(rest, rows[1..]);
      }
      forall x | x in rows && RowMatches(x, query) ensures x in Filter(rows, query) {
        if x != rows[0] {
          assert x in rows[1..];
        }
      }
    }
  }

  /** A session with no name, no email and no messages is never found, not even by the empty
      query, while the empty query finds every session with a name. */
  lemma SearchEdges(row: SessionRow, query: string)
    ensures row.visitorName.None? && row.visitorEmail.None? && row.contents == [] ==> !RowMatches(row, query)
    ensures row.visitorName.Some? ==> RowMatches(row, "")
  {
    if row.visitorName.Some? {
      EmptyContained(Lower(row.visitorName.value));
      assert Lower("") == "";
    }
  }

  /** Search ignores ASCII case: a name that contains the query verbatim is found. */
  lemma NameFound(row: SessionRow, query: string)
    requires row.visitorName.Some? && Contains(row.visitorName.value, query)
    ensures RowMatches(row, query)
  {
    ContainsLower(row.visitorName.value, query);
  }

  /** After a load: with no selection yet, the first loaded row (the newest, rows being ordered
      by creation time descending) becomes the selection; an existing selection is kept as it
      was. */
  function SelectAfterLoad(selected: Option<SessionRow>, rows: seq<SessionRow>): (r: Option<SessionRow>)
    ensures selected.Some? ==> r == selected
    ensures selected.None? && rows == [] ==> r.None?
    ensures selected.None? && rows != [] ==> r == Some(rows[0])
  {
    if selected.None? && |rows| > 0 then Some(rows[0]) else selected
  }

  lemma SelectsNewest(rows: seq<SessionRow>)
    requires rows != []
    requires forall i, j :: 0 <= i < j < |rows| ==> rows[i].createdAt >= rows[j].createdAt
    ensures var r := SelectAfterLoad(None, rows); r.Some? && forall x :: x in rows ==> x.createdAt <= r.value.createdAt
  {
    forall x | x in rows ensures x.createdAt <= rows[0].createdAt {
      var j :| 0 <= j < |rows| && rows[j] == x;
      if j > 0 {
        assert rows[0].createdAt >= rows[j].createdAt;
      }
    }
  }

  /** The reply box after `handleSendMessage`: its text and whether the send spinner is on. */
  datatype ReplyBox = ReplyBox(text: string, sending: bool)

  /** `handleSendMessage`. Blank text or no selection does nothing; without a signed-in user the
      spinner stays on and nothing is written; otherwise one admin message with the text as typed
      (not trimmed) is inserted for the selected session, which the store refuses when that
      session no longer exists, and the box is cleared whether or not the insert succeeded. The
      session row itself is not written. */
  method HandleSendMessage(db: Store, selected: Option<SessionRow>, box: ReplyBox, userId: Option<Id>, now: Time)
    returns (r: ReplyBox)
    requires db.Valid()
    modifies db
    ensures db.Valid()
    ensures db.configs == old(db.configs) && db.profiles == old(db.profiles) && db.sessions == old(db.sessions)
    ensures Trim(box.text) == "" || selected.None? ==>
      r == box && db.messages == old(db.messages) && db.nextId == old(db.nextId)
    ensures Trim(box.text) != "" && selected.Some? && userId.None? ==>
      r == box.(sending := true) && db.messages == old(db.messages) && db.nextId == old(db.nextId)
    ensures Trim(box.text) != "" && selected.Some? && userId.Some? ==>
      && r == ReplyBox("", false)
      && (selected.value.id in old(db.sessions) ==>
            db.messages == old(db.messages) + [PostedMessage(old(db.nextId), selected.value.id, userId.value,
                                                             box.text, Admin, now)]
            && db.nextId == old(db.nextId) + 1)
      && (selected.value.id !in old(db.sessions) ==> db.messages == old(db.messages) && db.nextId == old(db.nextId))
  {
    if Trim(box.text) == "" || selected.None? {
      return box;
    }
    if userId.None? {
      return box.(sending := true);
    }
    var sid := selected.value.id;
    if sid in db.sessions {
      var m := PostedMessage(db.nextId, sid, userId.value, box.text, Admin, now);
      AppendConsistent(db.sessions, db.messages, db.nextId, m);
      db.messages := db.messages + [m];
      db.nextId := db.nextId + 1;
    }
    r := ReplyBox("", false);
  }

  /** `handleArchive`: the session's status becomes closed, its other fields stay; an id with no
      session updates nothing. */
  method HandleArchive(db: Store, sessionId: Id)
    requires db.Valid()
    modifies db
    ensures db.Valid()
    ensures db.configs == old(db.configs) && db.profiles == old(db.profiles)
    ensures db.messages == old(db.messages) && db.nextId == old(db.nextId)
    ensures sessionId in old(db.sessions) ==>
      db.sessions == old(db.sessions)[sessionId := old(db.sessions)[sessionId].(status := Closed)]
    ensures sessionId !in old(db.sessions) ==> db.sessions == old(db.sessions)
  {
    if sessionId in db.sessions {
      UpdateConsistent(db.sessions, db.messages, db.nextId, sessionId, db.sessions[sessionId].(status := Closed));
      db.sessions := db.sessions[sessionId := db.sessions[sessionId].(status := Closed)];
    }
  }
}
