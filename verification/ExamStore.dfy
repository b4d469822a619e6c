/** The exam session store: one atomic cell, replaced only by compare-and-swap on the revision. */
module ExamStore {
  import opened Wrappers
  import opened ExamSessions

  /** What saving a session over the stored one does: the new session, or the refusal. */
  function SaveResult(stored: Option<Session>, session: Session, expected: int): Result<Session> {
    if stored.None? then Err(ExamState)
    else if stored.value.sessionId != session.sessionId then Err(Conflict)
    else if stored.value.revision != expected then Err(Conflict)
    else if session.revision <= stored.value.revision then Err(Conflict)
    else Ok(session)
  }

  /** Of two writers that loaded the same revision, the second one is always refused. */
  lemma CompareAndSwap(stored: Option<Session>, first: Session, second: Session, expected: int)
    requires SaveResult(stored, first, expected).Ok?
    ensures SaveResult(Some(first), second, expected) == Err(Conflict)
  {
  }

  datatype Save = Save(session: Session, expected: int)

  /** The sessions that a sequence of save attempts gets accepted, oldest first. */
  function Accepted(stored: Option<Session>, saves: seq<Save>): seq<Session>
    decreases |saves|
  {
    if saves == [] then []
    else
      var r := SaveResult(stored, saves[0].session, saves[0].expected);
      if r.Ok? then [r.value] + Accepted(Some(r.value), saves[1..]) else Accepted(stored, saves[1..])
  }

  predicate Follows(before: Session, after: Session, saves: seq<Save>) {
    && after.sessionId == before.sessionId
    && before.revision < after.revision
    && Save(after, before.revision) in saves
  }

  predicate Chained(before: Session, later: seq<Session>, saves: seq<Save>)
    decreases |later|
  {
    later != [] ==> Follows(before, later[0], saves) && Chained(later[0], later[1..], saves)
  }

  lemma {:induction false} ChainedInMore(before: Session, later: seq<Session>, saves: seq<Save>, first: Save)
    requires Chained(before, later, saves)
    ensures Chained(before, later, [first] + saves)
    decreases |later|
  {
    if later != [] {
      ChainedInMore(later[0], later[1..], saves, first);
    }
  }

  /**
   * No update is lost: whatever the writers attempt, each accepted session was computed from the
   * revision stored just before it, and the accepted revisions only rise.
   */
  lemma {:induction false} NoLostUpdate(stored: Session, saves: seq<Save>)
    ensures Chained(stored, Accepted(Some(stored), saves), saves)
    decreases |saves|
  {
    if saves != [] {
      var r := SaveResult(Some(stored), saves[0].session, saves[0].expected);
      var next := if r.Ok? then r.value else stored;
      NoLostUpdate(next, saves[1..]);
      ChainedInMore(next, Accepted(Some(next), saves[1..]), saves[1..], saves[0]);
      assert saves == [saves[0]] + saves[1..];
      if r.Ok? {
        assert Save(r.value, stored.revision) == saves[0];
      }
    }
  }

  class ExamSessionStore {
    var stored: Option<Session>

    constructor ()
      ensures stored == None
    {
      stored := None;
    }

    method Load() returns (r: Result<Session>)
      ensures r == if stored.Some? then Ok(stored.value) else Err(ExamState)
    {
      if stored.None? {
        return Err(ExamState);
      }
      return Ok(stored.value);
    }

    method Create(session: Session) returns (r: Result<Session>)
      modifies this
      ensures r == if old(stored).None? then Ok(session) else Err(Conflict)
      ensures stored == if r.Ok? then Some(session) else old(stored)
    {
      if stored.Some? {
        return Err(Conflict);
      }
      stored := Some(session);
      return Ok(session);
    }

    method SaveSession(session: Session, expected: int) returns (r: Result<Session>)
      modifies this
      ensures r == SaveResult(old(stored), session, expected)
      ensures stored == if r.Ok? then Some(session) else old(stored)
    {
      var current := Load();
      if current.Err? {
        return Err(current.error);
      }
      if current.value.sessionId != session.sessionId {
        return Err(Conflict);
      }
      if current.value.revision != expected {
        return Err(Conflict);
      }
      if session.revision <= current.value.revision {
        return Err(Conflict);
      }
      stored := Some(session);
      return Ok(session);
    }

    method Delete(expectedId: string) returns (r: Result<Session>)
      modifies this
      ensures r == if old(stored).None? then Err(ExamState)
                   else if old(stored).value.sessionId != expectedId then Err(Conflict)
                   else Ok(old(stored).value)
      ensures stored == if r.Ok? then None else old(stored)
    {
      var current := Load();
      if current.Err? {
        return Err(current.error);
      }
      if current.value.sessionId != expectedId {
        return Err(Conflict);
      }
      stored := None;
      return current;
    }
  }
}
