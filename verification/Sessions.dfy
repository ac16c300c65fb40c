/** The in-memory Session repository: created once, never changed, visible until expiry. */
module Sessions {
  import opened Wire
  import Capability

  datatype Session = Session(expiresAt: int, capabilities: map<string, Capability.u16>)

  datatype Created = Fresh(sessions: map<string, Session>) | AlreadyExists | InvalidSession

  /** `zero` marks an unset expiry time. */
  function CreateIn(sessions: map<string, Session>, sessionID: string, session: Session, zero: bool): Created
  {
    if sessionID == "" || zero then InvalidSession
    else if sessionID in sessions then AlreadyExists
    else Fresh(sessions[sessionID := session])
  }

  function LookupIn(sessions: map<string, Session>, sessionID: string, now: int): Option<Session>
  {
    if sessionID in sessions && now < sessions[sessionID].expiresAt then Some(sessions[sessionID]) else None
  }

  /** Everything in `before` is in `after`, unchanged. */
  predicate Extends(before: map<string, Session>, after: map<string, Session>)
  {
    forall x | x in before :: x in after && after[x] == before[x]
  }

  /** One call of Create. */
  datatype Creation = Creation(sessionID: string, session: Session, zero: bool)

  function AfterCreation(sessions: map<string, Session>, c: Creation): map<string, Session>
  {
    match CreateIn(sessions, c.sessionID, c.session, c.zero)
    case Fresh(next) => next
    case _ => sessions
  }

  function AfterCreations(sessions: map<string, Session>, creations: seq<Creation>): map<string, Session>
    decreases |creations|
  {
    if creations == [] then sessions else AfterCreations(AfterCreation(sessions, creations[0]), creations[1..])
  }

  lemma {:induction false} CreationsExtend(sessions: map<string, Session>, creations: seq<Creation>)
    ensures Extends(sessions, AfterCreations(sessions, creations))
    decreases |creations|
  {
    if creations == [] {
    } else {
      CreationsExtend(AfterCreation(sessions, creations[0]), creations[1..]);
    }
  }

  /** A created Session is found with its own capabilities exactly until it expires, after any list of
      later creations, also of the same name. */
  lemma {:induction false} CreatedStays(sessions: map<string, Session>, c: Creation, later: seq<Creation>, now: int)
    requires CreateIn(sessions, c.sessionID, c.session, c.zero).Fresh?
    ensures var all := AfterCreations(AfterCreation(sessions, c), later);
            && LookupIn(all, c.sessionID, now) == (if now < c.session.expiresAt then Some(c.session) else None)
            && Extends(sessions, all)
  {
    CreationsExtend(AfterCreation(sessions, c), later);
  }

  class MemorySessionRepository {
    var sessions: map<string, Session>

    constructor ()
      ensures sessions == map[]
    {
      sessions := map[];
    }

    method Create(sessionID: string, session: Session, zero: bool) returns (r: Created)
      modifies this
      ensures r == CreateIn(old(sessions), sessionID, session, zero)
      ensures sessions == if r.Fresh? then r.sessions else old(sessions)
    {
      if sessionID == "" || zero {
        return InvalidSession;
      }
      if sessionID in sessions {
        return AlreadyExists;
      }
      sessions := sessions[sessionID := session];
      return Fresh(sessions);
    }

    method Lookup(sessionID: string, now: int) returns (r: Option<Session>)
      ensures r == LookupIn(sessions, sessionID, now)
    {
      if sessionID !in sessions || !(now < sessions[sessionID].expiresAt) {
        return None;
      }
      return Some(sessions[sessionID]);
    }
  }
}
