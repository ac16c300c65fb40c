/** The lane table of the server: one method per critical section. */
module Lanes {
  import opened Wire

  datatype Lane = Lane(users: nat, running: bool, callbackActive: bool, queue: seq<nat>)

  /** All lanes ever created, and the one registered for a Session. */
  datatype Table = Table(current: Option<nat>, all: seq<Lane>)

  function Update(t: Table, i: nat, lane: Lane): Table
  {
    if i < |t.all| then t.(all := t.all[i := lane]) else t
  }

  /** A lane is created when the Session has none. */
  function Join(t: Table): (Table, nat)
  {
    if t.current.Some? && t.current.value < |t.all| then
      var i := t.current.value;
      (Update(t, i, t.all[i].(users := t.all[i].users + 1)), i)
    else
      (Table(Some(|t.all|), t.all + [Lane(1, false, false, [])]), |t.all|)
  }

  /** The lane is removed with its last user. */
  function Depart(t: Table, i: nat): Table
    requires i < |t.all|
  {
    var users := if t.all[i].users > 0 then t.all[i].users - 1 else 0;
    Update(t, i, t.all[i].(users := users)).(current := if users == 0 && t.current == Some(i) then None else t.current)
  }

  datatype Submission = Refused | Accepted(lane: Lane, drains: bool)

  /** Refused during a callback; otherwise queued, and the first one drains the lane. */
  function Submit(lane: Lane, call: nat): Submission
  {
    if lane.callbackActive then Refused
    else Accepted(lane.(queue := lane.queue + [call], running := true), !lane.running)
  }

  /** The oldest request, or the end of the drain. */
  function Take(lane: Lane): (Lane, Option<nat>)
  {
    if lane.queue == [] then (lane.(running := false), None)
    else (lane.(queue := lane.queue[1..]), Some(lane.queue[0]))
  }

  function Enter(lane: Lane): Option<Lane>
  {
    if lane.callbackActive then None else Some(lane.(callbackActive := true))
  }

  function Leave(lane: Lane): Lane
  {
    lane.(callbackActive := false)
  }

  class LaneTable {
    var lanes: map<string, nat>
    var all: seq<Lane>

    ghost predicate Valid()
      reads this
    {
      forall sessionID | sessionID in lanes :: lanes[sessionID] < |all|
    }

    ghost function View(sessionID: string): Table
      reads this
    {
      Table(if sessionID in lanes then Some(lanes[sessionID]) else None, all)
    }

    constructor ()
      ensures Valid() && lanes == map[] && all == []
    {
      lanes, all := map[], [];
    }

    method JoinLane(sessionID: string) returns (lane: nat)
      requires Valid()
      modifies this
      ensures Valid() && lane < |all|
      ensures (View(sessionID), lane) == Join(old(View(sessionID)))
      ensures lanes - {sessionID} == old(lanes) - {sessionID}
    {
      if sessionID !in lanes {
        lanes := lanes[sessionID := |all|];
        all := all + [Lane(0, false, false, [])];
      }
      lane := lanes[sessionID];
      all := all[lane := all[lane].(users := all[lane].users + 1)];
      assert sessionID !in old(lanes) ==> all == old(all) + [Lane(1, false, false, [])];
    }

    method DepartLane(sessionID: string, lane: nat)
      requires Valid() && lane < |all| && all[lane].users > 0
      modifies this
      ensures Valid()
      ensures View(sessionID) == Depart(old(View(sessionID)), lane)
      ensures lanes - {sessionID} == old(lanes) - {sessionID}
    {
      all := all[lane := all[lane].(users := all[lane].users - 1)];
      if all[lane].users == 0 && sessionID in lanes && lanes[sessionID] == lane {
        lanes := lanes - {sessionID};
      }
    }

    method SubmitRequest(lane: nat, call: nat) returns (refused: bool, drains: bool)
      requires lane < |all|
      modifies this`all
      ensures |all| == |old(all)| && forall i | 0 <= i < |all| && i != lane :: all[i] == old(all)[i]
      ensures match Submit(old(all)[lane], call)
              case Refused => refused && !drains && all == old(all)
              case Accepted(next, first) => !refused && drains == first && all[lane] == next
    {
      if all[lane].callbackActive {
        return true, false;
      }
      all := all[lane := all[lane].(queue := all[lane].queue + [call])];
      if all[lane].running {
        return false, false;
      }
      all := all[lane := all[lane].(running := true)];
      return false, true;
    }

    method TakeRequest(lane: nat) returns (request: Option<nat>)
      requires lane < |all|
      modifies this`all
      ensures all == old(all)[lane := Take(old(all)[lane]).0] && request == Take(old(all)[lane]).1
    {
      if |all[lane].queue| == 0 {
        all := all[lane := all[lane].(running := false)];
        return None;
      }
      request := Some(all[lane].queue[0]);
      all := all[lane := all[lane].(queue := all[lane].queue[1..])];
    }

    method EnterCallback(lane: nat) returns (ok: bool)
      requires lane < |all|
      modifies this`all
      ensures match Enter(old(all)[lane])
              case Some(next) => ok && all == old(all)[lane := next]
              case None => !ok && all == old(all)
    {
      if all[lane].callbackActive {
        return false;
      }
      all := all[lane := all[lane].(callbackActive := true)];
      return true;
    }

    method LeaveCallback(lane: nat)
      requires lane < |all|
      modifies this`all
      ensures all == old(all)[lane := Leave(old(all)[lane])]
    {
      all := all[lane := all[lane].(callbackActive := false)];
    }
  }
}
