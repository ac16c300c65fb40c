/** The per-connection admission gate, with `Handle` split at its two critical sections. */
module Admission {
  import opened Wire
  import opened Sessions
  import Capability

  datatype GateState = Closed | AwaitingHandshake | Ready | Resuming

  type Capabilities = map<string, Capability.u16>

  /** `queue` names the outbound queue of the current generation; names are never reused. */
  datatype Gate = Gate(
    generation: u64,
    queue: Option<nat>,
    state: GateState,
    sessionID: string,
    capabilities: Capabilities,
    handshake: bool)

  const NEW_GATE: Gate := Gate(0, None, Closed, "", map[], false)

  datatype Kind = Hello | Resume | Ping | Send | StateQuery | Error | Unexpected

  /** `valid` is the verdict of frame validation. */
  datatype Inbound = Inbound(kind: Kind, sessionID: string, valid: bool)

  /** What processing a frame reports back. */
  datatype Result = Result(readySessionID: string, capabilities: Capabilities, close: bool, abandon: bool)

  // ---------------------------------------------------------------- the critical sections

  function Replaced(g: Gate, queue: nat): Gate
  {
    Gate(Wrap(g.generation + 1), Some(queue), AwaitingHandshake, "", map[], false)
  }

  predicate Allowed(state: GateState, kind: Kind)
  {
    || kind == Error
    || (state == AwaitingHandshake && (kind == Hello || kind == Resume))
    || (state == Ready && (kind == Ping || kind == Send || kind == StateQuery || kind == Resume))
  }

  datatype Decision =
    | Stale
    | NotOpen
    | Violation(gate: Gate)
    | Process(gate: Gate, queue: nat)

  /** The first half of Handle. An invalid frame is processed too: it is answered with its error. */
  function Admit(g: Gate, generation: u64, frame: Inbound): Decision
  {
    if generation != g.generation || g.queue.None? then Stale
    else if g.state == Closed then NotOpen
    else if !frame.valid then Process(g, g.queue.value)
    else if || !Allowed(g.state, frame.kind)
            || (g.state == Ready && frame.sessionID != g.sessionID)
            || (g.state == AwaitingHandshake && g.handshake)
    then Violation(g.(state := Closed, capabilities := map[], handshake := false))
    else
      var begun := if g.state == AwaitingHandshake && frame.kind != Error then g.(handshake := true) else g;
      Process(if g.state == Ready && frame.kind == Resume then begun.(state := Resuming) else begun, g.queue.value)
  }

  /** The second half of Handle. */
  function ApplyResult(g: Gate, generation: u64, queue: nat, result: Result): Gate
  {
    if generation != g.generation || g.queue != Some(queue) then g
    else
      var h := g.(handshake := false);
      if h.state == Closed then h
      else if result.close then h.(state := Closed, capabilities := map[])
      else if result.abandon then h.(state := AwaitingHandshake, sessionID := "", capabilities := map[])
      else if result.readySessionID != "" then
        h.(state := Ready, sessionID := result.readySessionID, capabilities := result.capabilities)
      else if h.state == Resuming then h.(state := Closed, capabilities := map[])
      else h
  }

  // ---------------------------------------------------------------- the gate as an object

  class ServerAdmission {
    var generation: u64
    var outbound: Option<nat>
    var state: GateState
    var sessionID: string
    var capabilities: Capabilities
    var handshake: bool

    ghost function View(): Gate
      reads this
    {
      Gate(generation, outbound, state, sessionID, capabilities, handshake)
    }

    constructor ()
      ensures View() == NEW_GATE
    {
      generation, outbound, state := 0, None, Closed;
      sessionID, capabilities, handshake := "", map[], false;
    }

    /** Returns the queue it closes; `queue` is the new one. */
    method Replace(queue: nat) returns (closed: Option<nat>, current: u64)
      modifies this
      ensures View() == Replaced(old(View()), queue)
      ensures closed == old(outbound) && current == generation
    {
      closed := outbound;
      var bumped: int := generation + 1;
      generation := Wrap(bumped);
      outbound := Some(queue);
      state := AwaitingHandshake;
      sessionID := "";
      capabilities := map[];
      handshake := false;
      return closed, generation;
    }

    method AdmitFrame(current: u64, frame: Inbound) returns (d: Decision)
      modifies this
      ensures d == Admit(old(View()), current, frame)
      ensures View() == if d.Violation? || d.Process? then d.gate else old(View())
    {
      if current != generation || outbound.None? {
        return Stale;
      }
      if state == Closed {
        return NotOpen;
      }
      if !frame.valid {
        return Process(Gate(generation, outbound, state, sessionID, capabilities, handshake), outbound.value);
      }
      var allowed := frame.kind == Error
        || (state == AwaitingHandshake && (frame.kind == Hello || frame.kind == Resume))
        || (state == Ready && (frame.kind == Ping || frame.kind == Send || frame.kind == StateQuery
                               || frame.kind == Resume));
      if !allowed || (state == Ready && frame.sessionID != sessionID) || (state == AwaitingHandshake && handshake) {
        state := Closed;
        capabilities := map[];
        handshake := false;
        return Violation(Gate(generation, outbound, state, sessionID, capabilities, handshake));
      }
      var was := state;
      if was == AwaitingHandshake && frame.kind != Error {
        handshake := true;
      }
      if was == Ready && frame.kind == Resume {
        state := Resuming;
      }
      return Process(Gate(generation, outbound, state, sessionID, capabilities, handshake), outbound.value);
    }

    method Apply(current: u64, queue: nat, result: Result)
      modifies this
      ensures View() == ApplyResult(old(View()), current, queue, result)
    {
      if current != generation || outbound != Some(queue) {
        return;
      }
      handshake := false;
      if state == Closed {
        return;
      }
      if result.close {
        state, capabilities := Closed, map[];
        return;
      }
      if result.abandon {
        state, sessionID, capabilities := AwaitingHandshake, "", map[];
        return;
      }
      if result.readySessionID != "" {
        state, sessionID, capabilities := Ready, result.readySessionID, result.capabilities;
        return;
      }
      if state == Resuming {
        state, capabilities := Closed, map[];
      }
    }
  }

  // ---------------------------------------------------------------- runs

  /** A frame between its two critical sections; `result` once processing has finished. */
  datatype Task = Task(generation: u64, queue: nat, frame: Inbound, result: Option<Result>)

  datatype Happening = Admitted(queue: nat, frame: Inbound) | MadeReady(queue: nat, sessionID: string)

  datatype State = State(
    gate: Gate,
    sessions: map<string, Session>,
    tasks: map<nat, Task>,
    queues: nat,
    closed: set<nat>,
    log: seq<Happening>)

  const INITIAL: State := State(NEW_GATE, map[], map[], 0, {}, [])

  datatype Move =
    | Replace
    | Handle(task: nat, generation: u64, frame: Inbound)
    | ProcessHello(task: nat, sessionID: string, session: Session, zero: bool, sent: bool)
    | ProcessResume(task: nat, now: int, sent: bool, close: bool)
    | ProcessOther(task: nat, close: bool, abandon: bool)
    | Apply(task: nat)

  function Finish(s: State, n: nat, result: Result): State
    requires n in s.tasks
  {
    s.(tasks := s.tasks[n := s.tasks[n].(result := Some(result))])
  }

  const NOTHING: Result := Result("", map[], false, false)

  predicate Processing(s: State, n: nat)
  {
    n in s.tasks && s.tasks[n].result.None?
  }

  function HandleStep(s: State, n: nat, generation: u64, frame: Inbound): State
  {
    match Admit(s.gate, generation, frame)
    case Stale => s
    case NotOpen => s
    case Violation(gate) => s.(gate := gate)
    case Process(gate, queue) =>
      s.(gate := gate, tasks := s.tasks[n := Task(generation, queue, frame, None)],
         log := if frame.valid then s.log + [Admitted(queue, frame)] else s.log)
  }

  /** HELLO creates a Session; `sent` tells whether its WELCOME could be enqueued. */
  function HelloStep(s: State, n: nat, sessionID: string, session: Session, zero: bool, sent: bool): State
    requires n in s.tasks
  {
    match CreateIn(s.sessions, sessionID, session, zero)
    case Fresh(sessions) =>
      Finish(s.(sessions := sessions), n, if sent then Result(sessionID, session.capabilities, false, false)
             else NOTHING)
    case _ => Finish(s, n, NOTHING)
  }

  /** RESUME finds its Session; `sent` tells whether the replay batch could be enqueued. */
  function ResumeStep(s: State, n: nat, now: int, sent: bool, close: bool): State
    requires n in s.tasks
  {
    var sessionID := s.tasks[n].frame.sessionID;
    match LookupIn(s.sessions, sessionID, now)
    case None => Finish(s, n, Result("", map[], false, true))
    case Some(session) => Finish(s, n,
                                 Result(if sent then sessionID else "", session.capabilities, close && !sent, false))
  }

  predicate MakesReady(g: Gate, t: Task)
    requires t.result.Some?
  {
    && t.generation == g.generation && g.queue == Some(t.queue) && g.state != Closed
    && !t.result.value.close && !t.result.value.abandon && t.result.value.readySessionID != ""
  }

  function ApplyStep(s: State, n: nat): State
    requires n in s.tasks && s.tasks[n].result.Some?
  {
    var t := s.tasks[n];
    s.(gate := ApplyResult(s.gate, t.generation, t.queue, t.result.value), tasks := s.tasks - {n},
       log := if MakesReady(s.gate, t) then s.log + [MadeReady(t.queue, t.result.value.readySessionID)] else s.log)
  }

  function Next(s: State, m: Move): State
  {
    match m
    case Replace =>
      s.(gate := Replaced(s.gate, s.queues), queues := s.queues + 1,
         closed := if s.gate.queue.Some? then s.closed + {s.gate.queue.value} else s.closed)
    case Handle(n, generation, frame) => if n in s.tasks then s else HandleStep(s, n, generation, frame)
    case ProcessHello(n, sessionID, session, zero, sent) =>
      if Processing(s, n) && s.tasks[n].frame.valid && s.tasks[n].frame.kind == Hello
      then HelloStep(s, n, sessionID, session, zero, sent) else s
    case ProcessResume(n, now, sent, close) =>
      if Processing(s, n) && s.tasks[n].frame.valid
        && s.tasks[n].frame.kind == Resume then ResumeStep(s, n, now, sent, close) else s
    case ProcessOther(n, close, abandon) => if Processing(s, n) then Finish(s, n, Result("", map[], close, abandon))
      else s
    case Apply(n) => if n in s.tasks && s.tasks[n].result.Some? then ApplyStep(s, n) else s
  }

  function RunOf(s: State, moves: seq<Move>): State
    decreases |moves|
  {
    if moves == [] then s else RunOf(Next(s, moves[0]), moves[1..])
  }

  // ---------------------------------------------------------------- fencing

  /** Frames and results of another generation, and results for another queue, change nothing. */
  lemma {:induction false} StaleChangesNothing(g: Gate, generation: u64, queue: nat, frame: Inbound, result: Result)
    ensures generation != g.generation ==>
            Admit(g, generation, frame) == Stale && ApplyResult(g, generation, queue, result) == g
    ensures g.queue != Some(queue) ==> ApplyResult(g, generation, queue, result) == g
  {
  }

  /** Until the connection is replaced, a closed gate stays closed, admits nothing and makes nothing ready. */
  lemma {:induction false} ClosedIsAbsorbing(s: State, moves: seq<Move>)
    requires s.gate.state == Closed && Replace !in moves
    ensures var t := RunOf(s, moves);
            && t.gate == s.gate.(handshake := t.gate.handshake) && t.log == s.log
            && forall n | n in t.tasks :: n in s.tasks
    decreases |moves|
  {
    if moves == [] {
    } else {
      ClosedStep(s, moves[0]);
      ClosedIsAbsorbing(Next(s, moves[0]), moves[1..]);
    }
  }

  lemma {:induction false} ClosedStep(s: State, m: Move)
    requires s.gate.state == Closed && !m.Replace?
    ensures var t := Next(s, m);
            && t.gate == s.gate.(handshake := t.gate.handshake) && t.log == s.log
            && forall n | n in t.tasks :: n in s.tasks
  {
  }

  // ---------------------------------------------------------------- the invariant

  /** A gate with a Session has it from the repository, made ready on this very connection. */
  predicate GateOK(g: Gate, sessions: map<string, Session>, log: seq<Happening>)
  {
    && (g.state == Ready || g.state == Resuming ==>
          && g.sessionID in sessions && g.capabilities == sessions[g.sessionID].capabilities
          && g.queue.Some? && MadeReady(g.queue.value, g.sessionID) in log)
    && (g.state == AwaitingHandshake ==> g.sessionID == "")
    && (g.state == AwaitingHandshake || g.state == Closed ==> g.capabilities == map[])
    && (g.queue.None? ==> g.state == Closed)
  }

  /** A result that makes ready carries the repository's capabilities. */
  predicate TasksOK(tasks: map<nat, Task>, sessions: map<string, Session>)
  {
    forall n | n in tasks && tasks[n].result.Some? && tasks[n].result.value.readySessionID != "" ::
      var r := tasks[n].result.value;
      r.readySessionID in sessions && r.capabilities == sessions[r.readySessionID].capabilities
  }

  /** All queues but the current one are closed. */
  ghost predicate QueuesOK(s: State)
  {
    && (s.gate.queue.Some? ==> s.gate.queue.value < s.queues)
    && forall q: nat | q < s.queues :: q in s.closed || s.gate.queue == Some(q)
  }

  predicate NeedsSession(kind: Kind)
  {
    kind == Ping || kind == Send || kind == StateQuery
  }

  predicate JustifiedAt(log: seq<Happening>, j: nat)
    requires j < |log|
  {
    log[j].Admitted? && NeedsSession(log[j].frame.kind) ==> MadeReady(log[j].queue, log[j].frame.sessionID) in log[..j]
  }

  predicate LogOK(log: seq<Happening>)
  {
    forall j | 0 <= j < |log| :: JustifiedAt(log, j)
  }

  ghost predicate StateOK(s: State)
  {
    GateOK(s.gate, s.sessions, s.log) && TasksOK(s.tasks, s.sessions) && QueuesOK(s) && LogOK(s.log)
  }

  lemma {:induction false} LogGrows(log: seq<Happening>, e: Happening)
    requires LogOK(log)
    requires e.Admitted? && NeedsSession(e.frame.kind) ==> MadeReady(e.queue, e.frame.sessionID) in log
    ensures LogOK(log + [e])
  {
    forall j | 0 <= j < |log + [e]|
      ensures JustifiedAt(log + [e], j)
    {
      if j < |log| {
        assert JustifiedAt(log, j) && (log + [e])[..j] == log[..j];
      } else {
        assert (log + [e])[..j] == log;
      }
    }
  }

  lemma {:induction false} HandleKeeps(s: State, n: nat, generation: u64, frame: Inbound)
    requires StateOK(s) && n !in s.tasks
    ensures StateOK(HandleStep(s, n, generation, frame))
  {
    var d := Admit(s.gate, generation, frame);
    if d.Process? && frame.valid {
      LogGrows(s.log, Admitted(d.queue, frame));
    }
  }

  lemma {:induction false} HelloKeeps(s: State, n: nat, sessionID: string, session: Session, zero: bool, sent: bool)
    requires StateOK(s) && n in s.tasks
    ensures StateOK(HelloStep(s, n, sessionID, session, zero, sent))
  {
  }

  lemma {:induction false} ResumeKeeps(s: State, n: nat, now: int, sent: bool, close: bool)
    requires StateOK(s) && n in s.tasks
    ensures StateOK(ResumeStep(s, n, now, sent, close))
  {
  }

  lemma {:induction false} ApplyKeeps(s: State, n: nat)
    requires StateOK(s) && n in s.tasks && s.tasks[n].result.Some?
    ensures StateOK(ApplyStep(s, n))
  {
    var t := s.tasks[n];
    if MakesReady(s.gate, t) {
      LogGrows(s.log, MadeReady(t.queue, t.result.value.readySessionID));
    }
  }

  lemma {:induction false} MoveKeeps(s: State, m: Move)
    requires StateOK(s)
    ensures StateOK(Next(s, m))
  {
    match m
    case Replace =>
    case Handle(n, generation, frame) => if n !in s.tasks { HandleKeeps(s, n, generation, frame); }
    case ProcessHello(n, sessionID, session, zero, sent) =>
      if n in s.tasks { HelloKeeps(s, n, sessionID, session, zero, sent); }
    case ProcessResume(n, now, sent, close) => if n in s.tasks { ResumeKeeps(s, n, now, sent, close); }
    case ProcessOther(_, _, _) =>
    case Apply(n) => if n in s.tasks && s.tasks[n].result.Some? { ApplyKeeps(s, n); }
  }

  lemma {:induction false} EveryRunKeeps(s: State, moves: seq<Move>)
    requires StateOK(s)
    ensures StateOK(RunOf(s, moves))
    decreases |moves|
  {
    if moves == [] {
    } else {
      MoveKeeps(s, moves[0]);
      EveryRunKeeps(Next(s, moves[0]), moves[1..]);
    }
  }

  /** However handshakes, frames and results of any number of connections interleave: a gate that is
      READY or RESUMING has a Session with exactly the repository's capabilities; every valid SEND, PING
      or STATE_QUERY that was let through names a Session made ready before on the same connection;
      and every replaced connection's queue is closed. */
  lemma {:induction false} AdmissionIsSafe(moves: seq<Move>)
    ensures var s := RunOf(INITIAL, moves);
            && (s.gate.state == Ready || s.gate.state == Resuming ==>
                  s.gate.sessionID in s.sessions && s.gate.capabilities == s.sessions[s.gate.sessionID].capabilities)
            && (forall j | 0 <= j < |s.log| && s.log[j].Admitted? && NeedsSession(s.log[j].frame.kind) ::
                  exists i | 0 <= i < j :: s.log[i] == MadeReady(s.log[j].queue, s.log[j].frame.sessionID))
            && (forall q: nat | q < s.queues :: q in s.closed || s.gate.queue == Some(q))
  {
    EveryRunKeeps(INITIAL, moves);
    var s := RunOf(INITIAL, moves);
    forall j | 0 <= j < |s.log| && s.log[j].Admitted? && NeedsSession(s.log[j].frame.kind)
      ensures exists i | 0 <= i < j :: s.log[i] == MadeReady(s.log[j].queue, s.log[j].frame.sessionID)
    {
      assert JustifiedAt(s.log, j);
      var i :| 0 <= i < j && s.log[..j][i] == MadeReady(s.log[j].queue, s.log[j].frame.sessionID);
    }
  }

  // ---------------------------------------------------------------- what is let through

  /** The kinds that need a READY connection and name its Session. */
  const IN_SESSION: set<Kind> := {Ping, Send, StateQuery, Resume}

  /** A valid frame has business here: an ERROR, unless it comes during a handshake or names another Session
      than the READY one; the first HELLO or RESUME of a connection; or a request of the READY Session. */
  predicate HasBusiness(g: Gate, frame: Inbound)
  {
    match g.state
    case Closed => false
    case AwaitingHandshake => !g.handshake && frame.kind in {Hello, Resume, Error}
    case Ready => frame.sessionID == g.sessionID && (frame.kind in IN_SESSION || frame.kind == Error)
    case Resuming => frame.kind == Error
  }

  /** On the current generation of an open gate a valid frame is processed if and only if it has business
      there, and then on the current queue: the gate remembers a begun handshake and a resumption and
      nothing else changes. Any other valid frame closes the gate. An invalid frame is always processed,
      for its error, and changes nothing. */
  lemma {:induction false} AdmitsExactly(g: Gate, frame: Inbound)
    requires g.queue.Some? && g.state != Closed
    ensures var d := Admit(g, g.generation, frame);
            && (d.Process? <==> !frame.valid || HasBusiness(g, frame))
            && (d.Process? ==>
                  && d.queue == g.queue.value
                  && d.gate == g.(state := if frame.valid && g.state == Ready && frame.kind == Resume then Resuming
                                           else g.state,
                                  handshake := g.handshake || (frame.valid && g.state == AwaitingHandshake
                                                               && frame.kind != Error)))
            && (!d.Process? ==> d == Violation(g.(state := Closed, capabilities := map[], handshake := false)))
  {
  }

  /** In every reachable state a READY connection lets every request of its Session through, on its own
      queue, and stays READY for all but RESUME. */
  lemma {:induction false} ReadyLetsThrough(moves: seq<Move>, n: nat, frame: Inbound)
    requires var s := RunOf(INITIAL, moves);
             && s.gate.state == Ready && n !in s.tasks && frame.valid
             && frame.kind in IN_SESSION && frame.sessionID == s.gate.sessionID
    ensures var s := RunOf(INITIAL, moves);
            var t := RunOf(INITIAL, moves + [Handle(n, s.gate.generation, frame)]);
            && s.gate.queue.Some?
            && t.log == s.log + [Admitted(s.gate.queue.value, frame)]
            && t.tasks == s.tasks[n := Task(s.gate.generation, s.gate.queue.value, frame, None)]
            && t.gate == s.gate.(state := if frame.kind == Resume then Resuming else Ready)
  {
    var s := RunOf(INITIAL, moves);
    EveryRunKeeps(INITIAL, moves);
    RunOne(INITIAL, moves, Handle(n, s.gate.generation, frame));
    AdmitsExactly(s.gate, frame);
  }

  lemma {:induction false} RunOne(s: State, moves: seq<Move>, m: Move)
    ensures RunOf(s, moves + [m]) == Next(RunOf(s, moves), m)
    decreases |moves|
  {
    hide Next;
    if moves == [] {
      assert moves + [m] == [m] && [m][1..] == [];
      assert RunOf(Next(s, m), []) == Next(s, m);
    } else {
      assert (moves + [m])[1..] == moves[1..] + [m];
      RunOne(Next(s, moves[0]), moves[1..], m);
    }
  }

  /** A result for the current connection of an open gate: closing wins, then abandoning, then a Session made
      ready; a resumption that reports none of them closes; otherwise only the handshake is over. */
  lemma {:induction false} ResultDecides(g: Gate, queue: nat, r: Result)
    requires g.queue == Some(queue) && g.state != Closed
    ensures var h := ApplyResult(g, g.generation, queue, r);
            && h.generation == g.generation && h.queue == g.queue && !h.handshake
            && (h.state == Closed <==> r.close || (!r.abandon && r.readySessionID == "" && g.state == Resuming))
            && (!r.close && r.abandon ==> h.state == AwaitingHandshake && h.sessionID == "" && h.capabilities == map[])
            && (!r.close && !r.abandon && r.readySessionID != "" ==>
                  h.state == Ready && h.sessionID == r.readySessionID && h.capabilities == r.capabilities)
            && (!r.close && !r.abandon && r.readySessionID == "" && g.state != Resuming ==> h == g.(handshake := false))
            && (h.state == Closed ==> h.capabilities == map[])
  {
  }

  /** A new connection whose HELLO is processed and whose Session can be created and welcomed. */
  function Greeting(s: State, n: nat, frame: Inbound, sessionID: string, session: Session): seq<Move>
  {
    [Replace, Handle(n, Wrap(s.gate.generation + 1), frame), ProcessHello(n, sessionID, session, false, true), Apply(n)]
  }

  lemma {:induction false} FourMoves(s: State, a: Move, b: Move, c: Move, d: Move)
    ensures RunOf(s, [a, b, c, d]) == Next(Next(Next(Next(s, a), b), c), d)
  {
    hide Next;
    RunOne(s, [a, b, c], d);
    RunOne(s, [a, b], c);
    RunOne(s, [a], b);
    RunOne(s, [], a);
    assert [] + [a] == [a] && [a] + [b] == [a, b] && [a, b] + [c] == [a, b, c] && [a, b, c] + [d] == [a, b, c, d];
  }

  /** The first frame of a new connection. */
  lemma {:induction false} FirstFrame(s: State, n: nat, frame: Inbound)
    requires n !in s.tasks && frame.kind in {Hello, Resume} && frame.valid
    ensures var g := Wrap(s.gate.generation + 1);
            var t := Next(Next(s, Replace), Handle(n, g, frame));
            && t.gate == Gate(g, Some(s.queues), AwaitingHandshake, "", map[], true)
            && t.tasks == s.tasks[n := Task(g, s.queues, frame, None)]
            && t.log == s.log + [Admitted(s.queues, frame)] && t.sessions == s.sessions
  {
    AdmitsExactly(Next(s, Replace).gate, frame);
  }

  /** From every state, a new connection with a valid HELLO, a fresh Session name and a WELCOME that could be
      enqueued is READY for that Session with its capabilities, which is in the repository. */
  lemma {:induction false} HelloMakesReady(s: State, n: nat, frame: Inbound, sessionID: string, session: Session)
    requires n !in s.tasks && frame.kind == Hello && frame.valid && sessionID != "" && sessionID !in s.sessions
    ensures var t := RunOf(s, Greeting(s, n, frame, sessionID, session));
            && t.gate == Gate(Wrap(s.gate.generation + 1), Some(s.queues), Ready, sessionID, session.capabilities,
                              false)
            && t.sessions == s.sessions[sessionID := session]
            && t.log == s.log + [Admitted(s.queues, frame), MadeReady(s.queues, sessionID)]
            && n !in t.tasks
  {
    hide Admit, RunOf;
    var g := Wrap(s.gate.generation + 1);
    FourMoves(s, Replace, Handle(n, g, frame), ProcessHello(n, sessionID, session, false, true), Apply(n));
    FirstFrame(s, n, frame);
    Welcomed(Next(Next(s, Replace), Handle(n, g, frame)), n, sessionID, session);
    assert s.log + [Admitted(s.queues, frame)] + [MadeReady(s.queues, sessionID)]
        == s.log + [Admitted(s.queues, frame), MadeReady(s.queues, sessionID)];
  }

  lemma {:induction false} Welcomed(s: State, n: nat, sessionID: string, session: Session)
    requires Processing(s, n) && s.tasks[n].frame.valid && s.tasks[n].frame.kind == Hello
    requires s.gate.state == AwaitingHandshake && s.tasks[n].generation == s.gate.generation
    requires s.gate.queue == Some(s.tasks[n].queue) && sessionID != "" && sessionID !in s.sessions
    ensures var t := Next(Next(s, ProcessHello(n, sessionID, session, false, true)), Apply(n));
            && t.gate == s.gate.(state := Ready, sessionID := sessionID, capabilities := session.capabilities,
                                 handshake := false)
            && t.sessions == s.sessions[sessionID := session] && n !in t.tasks
            && t.log == s.log + [MadeReady(s.tasks[n].queue, sessionID)]
  {
  }

  /** The same for RESUME: READY again for a Session that is alive; back to the handshake, with nothing kept,
      for one that is not. */
  lemma {:induction false} ResumeMakesReady(s: State, n: nat, frame: Inbound, now: int)
    requires n !in s.tasks && frame.kind == Resume && frame.valid && frame.sessionID != ""
    ensures var g := Wrap(s.gate.generation + 1);
            var t := RunOf(s, [Replace, Handle(n, g, frame), ProcessResume(n, now, true, false), Apply(n)]);
            && t.sessions == s.sessions && n !in t.tasks
            && t.gate == (match LookupIn(s.sessions, frame.sessionID, now)
                          case Some(session) =>
                            Gate(g, Some(s.queues), Ready, frame.sessionID, session.capabilities, false)
                          case None => Gate(g, Some(s.queues), AwaitingHandshake, "", map[], false))
  {
    hide Admit, RunOf;
    var g := Wrap(s.gate.generation + 1);
    FourMoves(s, Replace, Handle(n, g, frame), ProcessResume(n, now, true, false), Apply(n));
    FirstFrame(s, n, frame);
  }
}
