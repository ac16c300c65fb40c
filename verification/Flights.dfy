/** The single-flight table of the SEND path: one method per critical section. */
module Flights {
  import opened Wire
  import opened DedupStore

  /** `closes` counts how often the done signal was closed. */
  datatype Flight = Flight(id: SendID, fingerprint: string, callbackActive: bool, ack: Option<Ack>, closes: nat)

  /** Every flight ever created, and the one in use per key. */
  datatype Table = Table(current: map<string, nat>, all: seq<Flight>)

  const NO_FLIGHTS: Table := Table(map[], [])

  datatype Acquired = Leader(table: Table, flight: nat) | Conflict | Busy(flight: nat) | Follow(flight: nat)

  function Update(t: Table, f: nat, flight: Flight): Table
  {
    if f < |t.all| then t.(all := t.all[f := flight]) else t
  }

  function Acquire(t: Table, id: SendID, fingerprint: string): Acquired
  {
    var key := Key(id);
    if key in t.current && t.current[key] < |t.all| then
      var f := t.current[key];
      if t.all[f].fingerprint != fingerprint then Conflict
      else if t.all[f].callbackActive then Busy(f)
      else Follow(f)
    else Leader(Table(t.current[key := |t.all|], t.all + [Flight(id, fingerprint, false, None, 0)]), |t.all|)
  }

  predicate IsCurrent(t: Table, key: string, f: nat)
  {
    key in t.current && t.current[key] == f && f < |t.all|
  }

  /** Entering a dependency callback fails when the flight is over or already inside one. */
  function Enter(t: Table, key: string, f: nat): Option<Table>
  {
    if !IsCurrent(t, key, f) || t.all[f].callbackActive then None
    else Some(Update(t, f, t.all[f].(callbackActive := true)))
  }

  function Leave(t: Table, f: nat): Table
  {
    if f < |t.all| then Update(t, f, t.all[f].(callbackActive := false)) else t
  }

  function SetAck(t: Table, f: nat, ack: Ack): Table
  {
    if f < |t.all| then Update(t, f, t.all[f].(ack := Some(ack))) else t
  }

  function AckOf(t: Table, f: nat): Option<Ack>
  {
    if f < |t.all| then t.all[f].ack else None
  }

  function Finish(t: Table, key: string, f: nat): Table
  {
    if IsCurrent(t, key, f) then Table(t.current - {key}, t.all[f := t.all[f].(closes := t.all[f].closes + 1)]) else t
  }

  /** The current flights are exactly the ones whose done signal is still open; none closed twice. */
  ghost predicate TableOK(t: Table)
  {
    && (forall k | k in t.current ::
        t.current[k] < |t.all| && Key(t.all[t.current[k]].id) == k && t.all[t.current[k]].closes == 0)
    && (forall f | 0 <= f < |t.all| :: FlightOK(t, f))
  }

  ghost predicate FlightOK(t: Table, f: nat)
    requires f < |t.all|
  {
    && WellFormed(t.all[f].id) && t.all[f].closes <= 1
    && (t.all[f].closes == 0 ==> IsCurrent(t, Key(t.all[f].id), f))
  }

  /** A new flight is current under its key; no other flight is touched. */
  lemma {:induction false} AcquireKeeps(t: Table, id: SendID, fingerprint: string)
    requires TableOK(t) && WellFormed(id)
    ensures var r := Acquire(t, id, fingerprint);
            match r
            case Leader(next, f) =>
              && TableOK(next) && f == |t.all| && |next.all| == f + 1 && next.all[..f] == t.all
              && next.all[f] == Flight(id, fingerprint, false, None, 0) && IsCurrent(next, Key(id), f)
            case Conflict => true
            case Busy(f) => f < |t.all| && t.all[f].id == id && t.all[f].fingerprint == fingerprint
            case Follow(f) => f < |t.all| && t.all[f].id == id && t.all[f].fingerprint == fingerprint
  {
    var r := Acquire(t, id, fingerprint);
    match r
    case Leader(next, f) =>
      forall g | 0 <= g < |next.all|
        ensures FlightOK(next, g)
      {
        if g < f { assert FlightOK(t, g); }
      }
    case Conflict =>
    case Busy(f) => assert FlightOK(t, f); KeyInjective(t.all[f].id, id);
    case Follow(f) => assert FlightOK(t, f); KeyInjective(t.all[f].id, id);
  }

  /** Flags and ACKs change nothing else. */
  lemma {:induction false} UpdateKeeps(t: Table, f: nat, flight: Flight)
    requires TableOK(t) && f < |t.all|
    requires flight.id == t.all[f].id && flight.closes == t.all[f].closes
    ensures TableOK(Update(t, f, flight))
  {
    var next := Update(t, f, flight);
    forall g | 0 <= g < |next.all|
      ensures FlightOK(next, g)
    {
      assert FlightOK(t, g);
    }
  }

  /** A current flight is closed once, by leaving the table. */
  lemma {:induction false} FinishKeeps(t: Table, f: nat)
    requires TableOK(t) && f < |t.all| && t.all[f].closes == 0
    ensures var next := Finish(t, Key(t.all[f].id), f);
            && TableOK(next) && next.all == t.all[f := t.all[f].(closes := 1)]
            && Key(t.all[f].id) !in next.current
  {
    assert FlightOK(t, f);
    var key := Key(t.all[f].id);
    var next := Finish(t, key, f);
    forall g | 0 <= g < |next.all|
      ensures FlightOK(next, g)
    {
      assert FlightOK(t, g);
    }
  }

  /** The table as the server holds it. Each method is one critical section. */
  class FlightTable {
    var current: map<string, nat>
    var all: seq<Flight>

    ghost function View(): Table
      reads this
    {
      Table(current, all)
    }

    /** The current flights are exactly the unfinished ones, and none was finished twice. */
    ghost predicate Valid()
      reads this
    {
      TableOK(View())
    }

    constructor ()
      ensures Valid() && View() == NO_FLIGHTS
    {
      current, all := map[], [];
    }

    method AcquireFlight(id: SendID, fingerprint: string)
      returns (flight: nat, leader: bool, conflict: bool, callbackActive: bool)
      requires Valid() && WellFormed(id)
      modifies this
      ensures Valid()
      ensures match Acquire(old(View()), id, fingerprint)
              case Leader(next, f) => View() == next && flight == f && leader && !conflict && !callbackActive
              case Conflict => View() == old(View()) && !leader && conflict
              case Busy(f) => View() == old(View()) && flight == f && !leader && !conflict && callbackActive
              case Follow(f) => View() == old(View()) && flight == f && !leader && !conflict && !callbackActive
    {
      AcquireKeeps(View(), id, fingerprint);
      var key := Key(id);
      if key in current {
        var existing := current[key];
        return existing, false, all[existing].fingerprint != fingerprint, all[existing].callbackActive;
      }
      flight := |all|;
      all := all + [Flight(id, fingerprint, false, None, 0)];
      current := current[key := flight];
      return flight, true, false, false;
    }

    method FinishFlight(key: string, flight: nat)
      requires Valid() && flight < |all|
      modifies this
      ensures Valid() && View() == Finish(old(View()), key, flight)
    {
      if key in current && current[key] == flight {
        FinishKeeps(View(), flight);
        current := current - {key};
        all := all[flight := all[flight].(closes := all[flight].closes + 1)];
      }
    }

    /** The first half of a callback invocation. */
    method EnterCallback(key: string, flight: nat) returns (ok: bool)
      requires Valid() && flight < |all|
      modifies this`all
      ensures Valid()
      ensures match Enter(old(View()), key, flight)
              case Some(next) => ok && View() == next
              case None => !ok && View() == old(View())
    {
      if key !in current || current[key] != flight || all[flight].callbackActive {
        return false;
      }
      UpdateKeeps(View(), flight, all[flight].(callbackActive := true));
      all := all[flight := all[flight].(callbackActive := true)];
      return true;
    }

    /** The second half, also run when the callback panics. */
    method LeaveCallback(flight: nat)
      requires Valid() && flight < |all|
      modifies this`all
      ensures Valid() && View() == Leave(old(View()), flight)
    {
      UpdateKeeps(View(), flight, all[flight].(callbackActive := false));
      all := all[flight := all[flight].(callbackActive := false)];
    }

    method SetFlightAck(flight: nat, ack: Ack)
      requires Valid() && flight < |all|
      modifies this`all
      ensures Valid() && View() == SetAck(old(View()), flight, ack)
    {
      UpdateKeeps(View(), flight, all[flight].(ack := Some(ack)));
      all := all[flight := all[flight].(ack := Some(ack))];
    }
  }
}
