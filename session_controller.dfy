/** The session routes (backend/src/controllers/session.controller.ts), behind
    `authenticate`: listing the caller's live sessions newest first, and
    deleting one of the caller's own sessions. */
module SessionController {
  import opened Base
  import opened SessionModel
  import opened AuthService
  import opened Http

  /** The projection `{_id, userAgent, createdAt}` of one session document. */
  datatype SessionRow = SessionRow(id: Id, userAgent: Option<string>, createdAt: int)

  /** The filter `{userId: req.userId, expiresAt: {$gt: now}}`. */
  predicate IsListed(s: Session, userId: Option<Id>, now: int)
  {
    userId == Some(s.userId) && IsAlive(s, now)
  }

  function Project(id: Id, s: Session): SessionRow
  {
    SessionRow(id, s.userAgent, s.createdAt)
  }

  predicate NewestFirst(rows: seq<SessionRow>)
  {
    forall i, j :: 0 <= i < j < |rows| ==> rows[i].createdAt >= rows[j].createdAt
  }

  predicate DistinctIds(rows: seq<SessionRow>)
  {
    forall i, j :: 0 <= i < j < |rows| ==> rows[i].id != rows[j].id
  }

  /** The documents the filter matches among the ids below `bound`, projected,
      in the order they were created. */
  function FindListed(sessions: map<Id, Session>, userId: Option<Id>, now: int, bound: nat): (rows: seq<SessionRow>)
    ensures forall i :: 0 <= i < |rows| ==>
      rows[i].id < bound && rows[i].id in sessions && IsListed(sessions[rows[i].id], userId, now)
      && rows[i] == Project(rows[i].id, sessions[rows[i].id])
    ensures forall id :: id < bound && id in sessions && IsListed(sessions[id], userId, now) ==>
      Project(id, sessions[id]) in rows
    ensures forall i, j :: 0 <= i < j < |rows| ==> rows[i].id < rows[j].id
  {
    if bound == 0 then []
    else
      var earlier := FindListed(sessions, userId, now, bound - 1);
      var id := bound - 1;
      if id in sessions && IsListed(sessions[id], userId, now) then earlier + [Project(id, sessions[id])]
      else earlier
  }

  /** Inserts a row into a newest-first list, after the rows created at the same instant or later. */
  function InsertNewestFirst(x: SessionRow, rows: seq<SessionRow>): (r: seq<SessionRow>)
    requires NewestFirst(rows)
    ensures |r| == |rows| + 1
    ensures r[0] == x || (rows != [] && r[0] == rows[0])
    ensures NewestFirst(r)
    ensures multiset(r) == multiset(rows) + multiset{x}
  {
    if rows == [] || x.createdAt > rows[0].createdAt then [x] + rows
    else
      var rest := InsertNewestFirst(x, rows[1..]);
      assert rows == [rows[0]] + rows[1..];
      [rows[0]] + rest
  }

  /** `sort: {createdAt: -1}`. */
  function SortNewestFirst(rows: seq<SessionRow>): (r: seq<SessionRow>)
    ensures NewestFirst(r)
    ensures multiset(r) == multiset(rows)
  {
    if rows == [] then []
    else
      assert rows == [rows[0]] + rows[1..];
      InsertNewestFirst(rows[0], SortNewestFirst(rows[1..]))
  }

  /** Reordering keeps distinct ids distinct. */
  lemma {:induction false} PermutationKeepsDistinctIds(a: seq<SessionRow>, b: seq<SessionRow>)
    requires multiset(a) == multiset(b)
    requires DistinctIds(a)
    ensures DistinctIds(b)
  {
    forall i, j | 0 <= i < j < |b| ensures b[i].id != b[j].id {
      if b[i].id == b[j].id {
        assert b[i] in multiset(a) && b[j] in multiset(a);
        var p :| 0 <= p < |a| && a[p] == b[i];
        var q :| 0 <= q < |a| && a[q] == b[j];
        assert p == q;
        TwiceInSequence(b, i, j);
        AtMostOnce(a, b[i]);
        assert false;
      }
    }
  }

  /** An element found at two positions occurs at least twice. */
  lemma {:induction false} TwiceInSequence(s: seq<SessionRow>, i: nat, j: nat)
    requires i < j < |s| && s[i] == s[j]
    ensures multiset(s)[s[i]] >= 2
  {
    assert s == s[..i] + [s[i]] + s[i + 1..j] + [s[j]] + s[j + 1..];
  }

  /** In a list with distinct ids every row occurs at most once. */
  lemma {:induction false} AtMostOnce(s: seq<SessionRow>, x: SessionRow)
    requires DistinctIds(s)
    ensures multiset(s)[x] <= 1
  {
    if s != [] {
      assert s == [s[0]] + s[1..];
      AtMostOnce(s[1..], x);
      if s[0] == x {
        assert x !in s[1..];
      }
    }
  }

  /** What the query returns, newest first: exactly the listed sessions, each once. */
  lemma SortedFindListed(sessions: map<Id, Session>, userId: Option<Id>, now: int, bound: nat)
    requires forall id :: id in sessions ==> id < bound
    ensures var rows := SortNewestFirst(FindListed(sessions, userId, now, bound));
      && NewestFirst(rows)
      && DistinctIds(rows)
      && (forall i :: 0 <= i < |rows| ==>
            rows[i].id in sessions && IsListed(sessions[rows[i].id], userId, now)
            && rows[i] == Project(rows[i].id, sessions[rows[i].id]))
      && (forall id :: id in sessions && IsListed(sessions[id], userId, now) ==>
            exists k :: 0 <= k < |rows| && rows[k].id == id)
  {
    var found := FindListed(sessions, userId, now, bound);
    var rows := SortNewestFirst(found);
    PermutationKeepsDistinctIds(found, rows);
    forall i | 0 <= i < |rows|
      ensures rows[i].id in sessions && IsListed(sessions[rows[i].id], userId, now)
      ensures rows[i] == Project(rows[i].id, sessions[rows[i].id])
    {
      assert rows[i] in multiset(found);
      var k :| 0 <= k < |found| && found[k] == rows[i];
    }
    forall id | id in sessions && IsListed(sessions[id], userId, now)
      ensures exists k :: 0 <= k < |rows| && rows[k].id == id
    {
      var row := Project(id, sessions[id]);
      assert row in multiset(found);
      var k :| 0 <= k < |rows| && rows[k] == row;
    }
  }

  function MarkCurrent(row: SessionRow, current: Option<Id>): SessionView
  {
    SessionView(row.id, row.userAgent, row.createdAt, current == Some(row.id))
  }

  /** `sessions.map(...)`: each row with `isCurrent` added when it is the caller's session. */
  function MarkAll(rows: seq<SessionRow>, current: Option<Id>): (views: seq<SessionView>)
    ensures |views| == |rows|
    ensures forall i :: 0 <= i < |rows| ==> views[i] == MarkCurrent(rows[i], current)
  {
    if rows == [] then [] else [MarkCurrent(rows[0], current)] + MarkAll(rows[1..], current)
  }

  /** The list `getSessionsHandler` answers with: exactly the caller's live
      sessions, each once, newest first, each showing only its id, user agent
      and creation time, and the caller's own session marked current. */
  function ListSessions(sessions: map<Id, Session>, userId: Option<Id>, current: Option<Id>, now: int, bound: nat)
    : (list: seq<SessionView>)
    requires forall id :: id in sessions ==> id < bound
    ensures forall i :: 0 <= i < |list| ==>
      && list[i].id in sessions
      && IsListed(sessions[list[i].id], userId, now)
      && list[i].userAgent == sessions[list[i].id].userAgent
      && list[i].createdAt == sessions[list[i].id].createdAt
      && (list[i].isCurrent <==> current == Some(list[i].id))
    ensures forall id :: id in sessions && IsListed(sessions[id], userId, now) ==>
      exists i :: 0 <= i < |list| && list[i].id == id
    ensures forall i, j :: 0 <= i < j < |list| ==>
      list[i].createdAt >= list[j].createdAt && list[i].id != list[j].id
  {
    var rows := SortNewestFirst(FindListed(sessions, userId, now, bound));
    SortedFindListed(sessions, userId, now, bound);
    MarkAll(rows, current)
  }

  /** `getSessionsHandler`: 200 with the caller's session list; the tables are only read. */
  function GetSessionsHandler(db: AuthServer, req: Request, now: int): (resp: Response)
    requires db.Valid()
    reads db, req
    ensures resp.status == OK && resp.cookies == [] && resp.body.SessionList?
    ensures forall i :: 0 <= i < |resp.body.sessions| ==>
      var view := resp.body.sessions[i];
      view.id in db.sessions && IsListed(db.sessions[view.id], req.userId, now)
      && (view.isCurrent <==> req.sessionId == Some(view.id))
    ensures forall id :: id in db.sessions && IsListed(db.sessions[id], req.userId, now) ==>
      exists i :: 0 <= i < |resp.body.sessions| && resp.body.sessions[i].id == id
  {
    Response(OK, [], SessionList(ListSessions(db.sessions, req.userId, req.sessionId, now, db.nextId)))
  }

  /** `deleteSessionHandler`: deletes the session only when both its id and its
      owner match; otherwise not found, and nothing changes. */
  method DeleteSessionHandler(db: AuthServer, req: Request, sessionId: Id) returns (r: Result<Response>)
    requires db.Valid()
    modifies db
    ensures db.Valid()
    ensures db.users == old(db.users) && db.codes == old(db.codes) && db.nextId == old(db.nextId)
    ensures sessionId in old(db.sessions) && req.userId == Some(old(db.sessions)[sessionId].userId) ==>
      db.sessions == old(db.sessions) - {sessionId}
      && r == Ok(Response(OK, [], Message("session deleted successfully")))
    ensures !(sessionId in old(db.sessions) && req.userId == Some(old(db.sessions)[sessionId].userId)) ==>
      r == Fail(NOT_FOUND, "session not found") && unchanged(db)
  {
    if !(sessionId in db.sessions && req.userId == Some(db.sessions[sessionId].userId)) {
      return Fail(NOT_FOUND, "session not found");
    }
    db.sessions := db.sessions - {sessionId};
    r := Ok(Response(OK, [], Message("session deleted successfully")));
  }
}
