/** Threads that re-enter the server from dependency callbacks: who waits for whom. */
module WaitsFor {
  import opened Wire
  import Lanes

  /** A SEND flight or a stream lane. `holder` is the thread that leads the flight or drains the lane;
      `flag` marks that the holder is inside a dependency callback, `since` when it entered. A flight
      without a holder is finished. A lane has requests that wait and at most one in service. */
  datatype Kind = Flight | Lane

  datatype Item = Item(kind: Kind, holder: Option<nat>, flag: bool, since: nat, queue: seq<nat>, serving: Option<nat>)

  /** What a thread waits for; `start` also names the request it left in a lane. */
  datatype Wait = Wait(item: nat, start: nat)

  /** A thread with the items it holds, outermost first: each was taken inside a callback of the one before. */
  datatype Thread = Thread(stack: seq<nat>, wait: Option<Wait>)

  datatype State = State(clock: nat, items: seq<Item>, threads: map<nat, Thread>)

  const INITIAL: State := State(0, [], map[])

  // ---------------------------------------------------------------- steps

  predicate Known(s: State, t: nat)
  {
    t in s.threads && forall i | 0 <= i < |s.threads[t].stack| :: s.threads[t].stack[i] < |s.items|
  }

  function Top(s: State, t: nat): nat
    requires t in s.threads && s.threads[t].stack != []
  {
    s.threads[t].stack[|s.threads[t].stack| - 1]
  }

  /** The thread runs outside the server, or inside a callback: it may call the server. */
  predicate MayCall(s: State, t: nat)
  {
    Known(s, t) && s.threads[t].wait.None? && (s.threads[t].stack == [] || s.items[Top(s, t)].flag)
  }

  /** The thread runs server code of its innermost item, outside any of its callbacks. */
  predicate AtHome(s: State, t: nat)
  {
    Known(s, t) && s.threads[t].wait.None? && s.threads[t].stack != [] && !s.items[Top(s, t)].flag
  }

  datatype Move =
    | Spawn(thread: nat)
    | Lead(thread: nat)
    | Follow(thread: nat, item: nat)
    | NewLane
    | Submit(thread: nat, item: nat)
    | EnterCallback(thread: nat)
    | LeaveCallback(thread: nat)
    | FinishFlight(thread: nat)
    | TakeRequest(thread: nat)
    | ServeRequest(thread: nat)
    | Wake(thread: nat)
    | Cancel(thread: nat)

  /** The wait is over: the flight is finished, or the request is no longer in the lane. */
  predicate Over(item: Item, w: Wait)
  {
    match item.kind
    case Flight => item.holder.None?
    case Lane => w.start !in item.queue && item.serving != Some(w.start)
  }

  predicate Blocked(s: State, t: nat)
  {
    && t in s.threads && s.threads[t].wait.Some? && s.threads[t].wait.value.item < |s.items|
    && !Over(s.items[s.threads[t].wait.value.item], s.threads[t].wait.value)
  }

  function SetItem(s: State, i: nat, item: Item): State
    requires i < |s.items|
  {
    s.(items := s.items[i := item])
  }

  function Push(s: State, t: nat, i: nat): State
    requires t in s.threads
  {
    s.(threads := s.threads[t := s.threads[t].(stack := s.threads[t].stack + [i])])
  }

  function Pop(s: State, t: nat): State
    requires t in s.threads && s.threads[t].stack != []
  {
    s.(threads := s.threads[t := s.threads[t].(stack := s.threads[t].stack[..|s.threads[t].stack| - 1])])
  }

  function SetWait(s: State, t: nat, w: Option<Wait>): State
    requires t in s.threads
  {
    s.(threads := s.threads[t := s.threads[t].(wait := w)])
  }

  /** Following a flight: only when its flag is clear does the caller wait. */
  function FollowStep(s: State, t: nat, i: nat): State
    requires t in s.threads && i < |s.items|
  {
    if s.items[i].flag then s else SetWait(s, t, Some(Wait(i, s.clock)))
  }

  /** Submitting to a lane: refused when its flag is set; otherwise queued, and the caller either
      drains the lane or waits for its request. */
  function SubmitStep(s: State, t: nat, i: nat): State
    requires t in s.threads && i < |s.items| && s.items[i].kind == Lane
  {
    var lane := s.items[i];
    if lane.flag then s
    else
      var queued := lane.(queue := lane.queue + [s.clock]);
      if lane.holder.Some? then SetWait(SetItem(s, i, queued), t, Some(Wait(i, s.clock)))
      else Push(SetItem(s, i, queued.(holder := Some(t))), t, i)
  }

  /** The lane's loop: the oldest request, or the end of the drain. */
  function TakeStep(s: State, t: nat, i: nat): State
    requires t in s.threads && s.threads[t].stack != [] && i < |s.items| && s.items[i].kind == Lane
  {
    var lane := s.items[i];
    if lane.queue == [] then Pop(SetItem(s, i, lane.(holder := None)), t)
    else SetItem(s, i, lane.(queue := lane.queue[1..], serving := Some(lane.queue[0])))
  }

  function Step(s: State, m: Move): State
  {
    match m
    case Spawn(t) => if t in s.threads then s else s.(threads := s.threads[t := Thread([], None)])
    case Lead(t) =>
      if !MayCall(s, t) then s else Push(s.(items := s.items + [Item(Flight, Some(t), false, 0, [], None)]), t,
                                         |s.items|)
    case Follow(t, i) => if MayCall(s, t) && i < |s.items| && s.items[i].kind == Flight then FollowStep(s, t, i) else s
    case NewLane => s.(items := s.items + [Item(Lane, None, false, 0, [], None)])
    case Submit(t, i) => if MayCall(s, t) && i < |s.items| && s.items[i].kind == Lane then SubmitStep(s, t, i) else s
    case EnterCallback(t) =>
      if AtHome(s, t) then SetItem(s, Top(s, t), s.items[Top(s, t)].(flag := true, since := s.clock)) else s
    case LeaveCallback(t) =>
      if MayCall(s, t) && s.threads[t].stack != [] then SetItem(s, Top(s, t), s.items[Top(s, t)].(flag := false)) else s
    case FinishFlight(t) =>
      if AtHome(s, t) && s.items[Top(s, t)].kind == Flight
      then Pop(SetItem(s, Top(s, t), s.items[Top(s, t)].(holder := None)), t) else s
    case TakeRequest(t) =>
      if AtHome(s, t) && s.items[Top(s, t)].kind == Lane
        && s.items[Top(s, t)].serving.None? then TakeStep(s, t, Top(s, t)) else s
    case ServeRequest(t) =>
      if AtHome(s, t) && s.items[Top(s, t)].kind == Lane
      then SetItem(s, Top(s, t), s.items[Top(s, t)].(serving := None)) else s
    case Wake(t) => if t in s.threads && s.threads[t].wait.Some? && !Blocked(s, t) then SetWait(s, t, None) else s
    case Cancel(t) =>
      if Blocked(s, t) && s.items[s.threads[t].wait.value.item].kind == Flight then SetWait(s, t, None) else s
  }

  function Next(s: State, m: Move): State
  {
    Step(s, m).(clock := s.clock + 1)
  }

  function RunOf(s: State, moves: seq<Move>): State
    decreases |moves|
  {
    if moves == [] then s else RunOf(Next(s, moves[0]), moves[1..])
  }

  // ---------------------------------------------------------------- the invariant

  /** Only a held item is in a callback or has requests; it is held by a thread that has it on its stack. */
  ghost predicate ItemOK(s: State, i: nat)
    requires i < |s.items|
  {
    var item := s.items[i];
    && (item.flag ==> item.holder.Some? && item.since < s.clock)
    && ((item.queue != [] || item.serving.Some?) ==> item.kind == Lane && item.holder.Some?)
    && (item.holder.Some? ==> item.holder.value in s.threads && i in s.threads[item.holder.value].stack)
  }

  /** A thread holds what is on its stack, each once; it is inside a callback of all but the innermost,
      and inside a callback of all while it waits, entered before the wait began. */
  ghost predicate ThreadOK(s: State, t: nat)
    requires t in s.threads
  {
    var stack, wait := s.threads[t].stack, s.threads[t].wait;
    && (forall a | 0 <= a < |stack| :: stack[a] < |s.items| && s.items[stack[a]].holder == Some(t))
    && (forall a, b | 0 <= a < b < |stack| :: stack[a] != stack[b])
    && (forall a | 0 <= a < |stack| - 1 :: s.items[stack[a]].flag)
    && (wait.Some? ==> forall a | 0 <= a < |stack| ::
        s.items[stack[a]].flag && s.items[stack[a]].since < wait.value.start)
  }

  /** A wait began while the flag was clear: a flag set now was set after that. */
  ghost predicate WaitOK(s: State, t: nat)
    requires t in s.threads
  {
    s.threads[t].wait.Some? ==>
      var w := s.threads[t].wait.value;
      w.item < |s.items| && w.start < s.clock && (s.items[w.item].flag ==> w.start < s.items[w.item].since)
  }

  ghost predicate StateOK(s: State)
  {
    && (forall i | 0 <= i < |s.items| :: ItemOK(s, i))
    && (forall t | t in s.threads :: ThreadOK(s, t))
    && (forall t | t in s.threads :: WaitOK(s, t))
  }

  // ---------------------------------------------------------------- every step

  /** One item changes; its holder, if any, keeps it. */
  lemma {:induction false} ItemChanges(s: State, i: nat, item: Item)
    requires StateOK(s) && i < |s.items| && item.holder == s.items[i].holder && s.items[i].holder.Some?
    requires item.kind == s.items[i].kind && (item.queue != [] || item.serving.Some? ==> item.kind == Lane)
    requires item.flag == s.items[i].flag && item.since == s.items[i].since
    ensures StateOK(SetItem(s, i, item).(clock := s.clock + 1))
  {
    var n := SetItem(s, i, item).(clock := s.clock + 1);
    forall j | 0 <= j < |n.items| ensures ItemOK(n, j) { assert ItemOK(s, j); }
    forall t | t in n.threads ensures ThreadOK(n, t) { assert ThreadOK(s, t); }
    forall t | t in n.threads ensures WaitOK(n, t) { assert WaitOK(s, t); }
  }

  /** Entering a callback is later than every wait that has begun. */
  lemma {:induction false} EnterKeeps(s: State, t: nat)
    requires StateOK(s) && AtHome(s, t)
    ensures StateOK(Next(s, EnterCallback(t)))
  {
    var n, i := Next(s, EnterCallback(t)), Top(s, t);
    assert ThreadOK(s, t);
    forall j | 0 <= j < |n.items| ensures ItemOK(n, j) { assert ItemOK(s, j); }
    forall u | u in n.threads ensures ThreadOK(n, u) { assert ThreadOK(s, u); }
    forall u | u in n.threads ensures WaitOK(n, u) { assert WaitOK(s, u); }
  }

  lemma {:induction false} LeaveKeeps(s: State, t: nat)
    requires StateOK(s) && MayCall(s, t) && s.threads[t].stack != []
    ensures StateOK(Next(s, LeaveCallback(t)))
  {
    var n, i := Next(s, LeaveCallback(t)), Top(s, t);
    assert ThreadOK(s, t);
    forall j | 0 <= j < |n.items| ensures ItemOK(n, j) { assert ItemOK(s, j); }
    forall u | u in n.threads ensures ThreadOK(n, u) { assert ThreadOK(s, u); }
    forall u | u in n.threads ensures WaitOK(n, u) { assert WaitOK(s, u); }
  }

  /** A new item that nobody holds yet. */
  lemma {:induction false} NewItemKeeps(s: State, kind: Kind)
    requires StateOK(s)
    ensures StateOK(s.(items := s.items + [Item(kind, None, false, 0, [], None)]))
  {
    var n := s.(items := s.items + [Item(kind, None, false, 0, [], None)]);
    forall j | 0 <= j < |n.items| ensures ItemOK(n, j) { if j < |s.items| { assert ItemOK(s, j); } }
    forall u | u in n.threads ensures ThreadOK(n, u) { assert ThreadOK(s, u); }
    forall u | u in n.threads ensures WaitOK(n, u) { assert WaitOK(s, u); }
  }

  /** The state after thread `t` begins to wait for item `i`. */
  function Waiting(s: State, t: nat, i: nat, item: Item): State
    requires t in s.threads && i < |s.items|
  {
    SetWait(SetItem(s, i, item), t, Some(Wait(i, s.clock))).(clock := s.clock + 1)
  }

  predicate Requested(before: Item, item: Item)
  {
    item == before || (before.holder.Some? && before.kind == Lane && item == before.(queue := item.queue))
  }

  lemma {:induction false} WaitingThread(s: State, t: nat, i: nat, item: Item, u: nat)
    requires MayCall(s, t) && i < |s.items| && Requested(s.items[i], item) && u in s.threads && ThreadOK(s, u)
    requires forall j | 0 <= j < |s.items| :: ItemOK(s, j)
    ensures ThreadOK(Waiting(s, t, i, item), u)
  {
    var n, stack := Waiting(s, t, i, item), s.threads[u].stack;
    assert n.threads[u].stack == stack;
    assert forall a | 0 <= a < |stack| ::
             && n.items[stack[a]].flag == s.items[stack[a]].flag && n.items[stack[a]].since == s.items[stack[a]].since
             && n.items[stack[a]].holder == s.items[stack[a]].holder;
    forall a | 0 <= a < |s.threads[u].stack|
      ensures var item := s.items[s.threads[u].stack[a]]; item.flag ==> item.since < s.clock
    {
      assert ItemOK(s, s.threads[u].stack[a]);
    }
  }

  /** A wait begins on an item whose flag is clear, by a thread inside all its callbacks. */
  lemma {:induction false} WaitKeeps(s: State, t: nat, i: nat, item: Item)
    requires StateOK(s) && MayCall(s, t) && i < |s.items| && !s.items[i].flag && Requested(s.items[i], item)
    ensures StateOK(Waiting(s, t, i, item))
  {
    hide ThreadOK;
    var n := Waiting(s, t, i, item);
    forall j | 0 <= j < |n.items| ensures ItemOK(n, j) { assert ItemOK(s, j); }
    forall u | u in n.threads ensures ThreadOK(n, u) { WaitingThread(s, t, i, item, u); }
    forall u | u in n.threads ensures WaitOK(n, u) { assert WaitOK(s, u); }
  }

  /** The state after thread `t` takes item `i`. */
  function Taken(s: State, t: nat, i: nat, item: Item): State
    requires t in s.threads && i < |s.items|
  {
    Push(SetItem(s, i, item), t, i).(clock := s.clock + 1)
  }

  lemma {:induction false} TakenItems(s: State, t: nat, i: nat, item: Item)
    requires StateOK(s) && MayCall(s, t) && i < |s.items| && s.items[i].holder.None?
    requires item == s.items[i].(holder := Some(t), queue := item.queue) && (item.queue != [] ==> item.kind == Lane)
    ensures var n := Taken(s, t, i, item); forall j | 0 <= j < |n.items| :: ItemOK(n, j)
  {
    var n := Taken(s, t, i, item);
    forall j | 0 <= j < |n.items| ensures ItemOK(n, j) { assert ItemOK(s, j); }
  }

  lemma {:induction false} TakersThread(s: State, t: nat, i: nat, item: Item)
    requires MayCall(s, t) && i < |s.items| && s.items[i].holder.None? && ThreadOK(s, t)
    requires item == s.items[i].(holder := Some(t), queue := item.queue)
    ensures ThreadOK(Taken(s, t, i, item), t)
  {
    var n, stack := Taken(s, t, i, item), s.threads[t].stack;
    assert n.threads[t].stack == stack + [i] && n.threads[t].wait.None?;
    assert forall a | 0 <= a < |stack| :: stack[a] != i && n.items[stack[a]] == s.items[stack[a]];
    assert forall a | 0 <= a < |stack| :: s.items[stack[a]].flag;
  }

  lemma {:induction false} OtherThread(s: State, t: nat, i: nat, item: Item, u: nat)
    requires t in s.threads && i < |s.items| && s.items[i].holder.None? && u in s.threads && u != t && ThreadOK(s, u)
    ensures ThreadOK(Taken(s, t, i, item), u)
  {
    var n, stack := Taken(s, t, i, item), s.threads[u].stack;
    assert n.threads[u] == s.threads[u];
    assert forall a | 0 <= a < |stack| :: stack[a] != i && n.items[stack[a]] == s.items[stack[a]];
  }

  lemma {:induction false} TakenThreads(s: State, t: nat, i: nat, item: Item)
    requires StateOK(s) && MayCall(s, t) && i < |s.items| && s.items[i].holder.None?
    requires item == s.items[i].(holder := Some(t), queue := item.queue)
    ensures var n := Taken(s, t, i, item); forall u | u in n.threads :: ThreadOK(n, u) && WaitOK(n, u)
  {
    hide ItemOK, ThreadOK;
    var n := Taken(s, t, i, item);
    forall u | u in n.threads
      ensures ThreadOK(n, u) && WaitOK(n, u)
    {
      if u == t { TakersThread(s, t, i, item); } else { OtherThread(s, t, i, item, u); }
      assert WaitOK(s, u);
    }
  }

  /** The first to submit takes the lane. */
  lemma {:induction false} DrainKeeps(s: State, t: nat, i: nat)
    requires StateOK(s) && MayCall(s, t) && i < |s.items| && s.items[i].kind == Lane && s.items[i].holder.None?
    ensures StateOK(Next(s, Submit(t, i)))
  {
    assert ItemOK(s, i);
    var item := s.items[i].(holder := Some(t), queue := s.items[i].queue + [s.clock]);
    TakenItems(s, t, i, item);
    TakenThreads(s, t, i, item);
    assert Next(s, Submit(t, i)) == Taken(s, t, i, item);
  }

  /** A new flight is held by its leader. */
  lemma {:induction false} LeadKeeps(s: State, t: nat)
    requires StateOK(s) && MayCall(s, t)
    ensures StateOK(Next(s, Lead(t)))
  {
    var i, item := |s.items|, Item(Flight, None, false, 0, [], None);
    var s1 := s.(items := s.items + [item]);
    NewItemKeeps(s, Flight);
    assert MayCall(s1, t);
    TakenItems(s1, t, i, item.(holder := Some(t)));
    TakenThreads(s1, t, i, item.(holder := Some(t)));
    assert s1.items[i := item.(holder := Some(t))] == s.items + [item.(holder := Some(t))];
    assert Next(s, Lead(t)) == Taken(s1, t, i, item.(holder := Some(t)));
  }

  lemma {:induction false} SubmitKeeps(s: State, t: nat, i: nat)
    requires StateOK(s) && MayCall(s, t) && i < |s.items| && s.items[i].kind == Lane
    ensures StateOK(Next(s, Submit(t, i)))
  {
    var lane := s.items[i];
    if lane.flag {
      TickKeeps(s);
    } else if lane.holder.Some? {
      WaitKeeps(s, t, i, lane.(queue := lane.queue + [s.clock]));
    } else {
      DrainKeeps(s, t, i);
    }
  }

  lemma {:induction false} FollowKeeps(s: State, t: nat, i: nat)
    requires StateOK(s) && MayCall(s, t) && i < |s.items|
    ensures StateOK(FollowStep(s, t, i).(clock := s.clock + 1))
  {
    if s.items[i].flag {
      TickKeeps(s);
    } else {
      WaitKeeps(s, t, i, s.items[i]);
      assert SetItem(s, i, s.items[i]) == s;
    }
  }

  lemma {:induction false} TickKeeps(s: State)
    requires StateOK(s)
    ensures StateOK(s.(clock := s.clock + 1))
  {
    var n := s.(clock := s.clock + 1);
    forall j | 0 <= j < |n.items| ensures ItemOK(n, j) { assert ItemOK(s, j); }
    forall u | u in n.threads ensures ThreadOK(n, u) { assert ThreadOK(s, u); }
    forall u | u in n.threads ensures WaitOK(n, u) { assert WaitOK(s, u); }
  }

  /** The state after thread `t` gives up its innermost item. */
  function Released(s: State, t: nat): State
    requires Known(s, t) && s.threads[t].stack != []
  {
    Pop(SetItem(s, Top(s, t), s.items[Top(s, t)].(holder := None)), t).(clock := s.clock + 1)
  }

  lemma {:induction false} ReleasedItem(s: State, t: nat, j: nat)
    requires AtHome(s, t) && j < |s.items| && ItemOK(s, j) && ThreadOK(s, t)
    requires var item := s.items[Top(s, t)]; item.queue == [] && item.serving.None?
    ensures ItemOK(Released(s, t), j)
  {
    var n := Released(s, t);
    if j != Top(s, t) && s.items[j].holder == Some(t) {
      var a :| 0 <= a < |s.threads[t].stack| && s.threads[t].stack[a] == j;
      assert n.threads[t].stack[a] == j;
    }
  }

  lemma {:induction false} ReleasedThread(s: State, t: nat, u: nat)
    requires AtHome(s, t) && u in s.threads && ThreadOK(s, u) && ThreadOK(s, t)
    ensures ThreadOK(Released(s, t), u)
  {
    var n, stack := Released(s, t), Released(s, t).threads[u].stack;
    assert forall a | 0 <= a < |stack| :: stack[a] == s.threads[u].stack[a];
    assert forall a | 0 <= a < |stack| :: stack[a] != Top(s, t);
  }

  /** The innermost item is given up: nobody else had it, and what is below is inside a callback. */
  lemma {:induction false} ReleaseKeeps(s: State, t: nat)
    requires StateOK(s) && AtHome(s, t)
    requires var item := s.items[Top(s, t)]; item.queue == [] && item.serving.None?
    ensures StateOK(Released(s, t))
  {
    hide ItemOK, ThreadOK;
    var n := Released(s, t);
    forall j | 0 <= j < |n.items| ensures ItemOK(n, j) { ReleasedItem(s, t, j); }
    forall u | u in n.threads ensures ThreadOK(n, u) { ReleasedThread(s, t, u); }
    forall u | u in n.threads ensures WaitOK(n, u) { assert WaitOK(s, u); }
  }

  lemma {:induction false} TakeKeeps(s: State, t: nat)
    requires StateOK(s) && AtHome(s, t)
    ensures StateOK(Next(s, TakeRequest(t))) && StateOK(Next(s, ServeRequest(t)))
  {
    var i := Top(s, t);
    assert ThreadOK(s, t) && ItemOK(s, i);
    TickKeeps(s);
    if s.items[i].kind == Lane {
      ItemChanges(s, i, s.items[i].(serving := None));
      if s.items[i].serving.None? {
        if s.items[i].queue == [] {
          ReleaseKeeps(s, t);
        } else {
          ItemChanges(s, i, s.items[i].(queue := s.items[i].queue[1..], serving := Some(s.items[i].queue[0])));
        }
      }
    }
  }

  lemma {:induction false} FinishKeeps(s: State, t: nat)
    requires StateOK(s) && AtHome(s, t)
    ensures StateOK(Next(s, FinishFlight(t)))
  {
    assert ItemOK(s, Top(s, t));
    TickKeeps(s);
    if s.items[Top(s, t)].kind == Flight { ReleaseKeeps(s, t); }
  }

  lemma {:induction false} WakeKeeps(s: State, t: nat)
    requires StateOK(s) && t in s.threads
    ensures StateOK(SetWait(s, t, None).(clock := s.clock + 1))
  {
    var n := SetWait(s, t, None).(clock := s.clock + 1);
    forall j | 0 <= j < |n.items| ensures ItemOK(n, j) { assert ItemOK(s, j); }
    forall u | u in n.threads ensures ThreadOK(n, u) { assert ThreadOK(s, u); }
    forall u | u in n.threads ensures WaitOK(n, u) { assert WaitOK(s, u); }
  }

  lemma {:induction false} SpawnKeeps(s: State, t: nat)
    requires StateOK(s) && t !in s.threads
    ensures StateOK(Next(s, Spawn(t)))
  {
    var n := Next(s, Spawn(t));
    forall j | 0 <= j < |n.items| ensures ItemOK(n, j) { assert ItemOK(s, j); }
    forall u | u in n.threads ensures ThreadOK(n, u) { if u != t { assert ThreadOK(s, u); } }
    forall u | u in n.threads ensures WaitOK(n, u) { if u != t { assert WaitOK(s, u); } }
  }

  lemma {:induction false} MoveKeeps(s: State, m: Move)
    requires StateOK(s)
    ensures StateOK(Next(s, m))
  {
    hide ItemOK, ThreadOK, WaitOK;
    if Step(s, m) == s {
      TickKeeps(s);
    } else {
      match m
      case Spawn(t) => SpawnKeeps(s, t);
      case Lead(t) => LeadKeeps(s, t);
      case Follow(t, i) => FollowKeeps(s, t, i);
      case NewLane => NewItemKeeps(s, Lane); TickKeeps(s.(items := s.items + [Item(Lane, None, false, 0, [], None)]));
      case Submit(t, i) => SubmitKeeps(s, t, i);
      case EnterCallback(t) => EnterKeeps(s, t);
      case LeaveCallback(t) => LeaveKeeps(s, t);
      case FinishFlight(t) => FinishKeeps(s, t);
      case TakeRequest(t) => TakeKeeps(s, t);
      case ServeRequest(t) => TakeKeeps(s, t);
      case Wake(t) => WakeKeeps(s, t);
      case Cancel(t) => WakeKeeps(s, t);
    }
  }

  lemma {:induction false} EveryRunKeeps(s: State, moves: seq<Move>)
    requires StateOK(s)
    ensures StateOK(RunOf(s, moves))
    decreases |moves|
  {
    if moves == [] {
    } else {
      MoveKeeps(s, moves[0]);
      EveryRunKeeps(Next(s, moves[0]), moves[1..]);
    }
  }

  // ---------------------------------------------------------------- the waits-for graph

  /** Thread `a` is blocked on an item that thread `b` holds. */
  predicate Waits(s: State, a: nat, b: nat)
  {
    Blocked(s, a) && s.items[s.threads[a].wait.value.item].holder == Some(b)
  }

  predicate WaitsAt(s: State, path: seq<nat>, k: nat)
    requires k + 1 < |path|
  {
    Waits(s, path[k], path[k + 1])
  }

  predicate IsPath(s: State, path: seq<nat>)
  {
    |path| > 0 && forall k | 0 <= k < |path| - 1 :: WaitsAt(s, path, k)
  }

  /** A holder that is blocked itself began to wait later than those who wait for it. */
  lemma {:induction false} LaterWait(s: State, a: nat, b: nat)
    requires StateOK(s) && Waits(s, a, b) && Blocked(s, b)
    ensures s.threads[a].wait.value.start < s.threads[b].wait.value.start
  {
    var i := s.threads[a].wait.value.item;
    assert WaitOK(s, a) && ItemOK(s, i) && ThreadOK(s, b);
    var k :| 0 <= k < |s.threads[b].stack| && s.threads[b].stack[k] == i;
    assert s.items[i].flag && s.items[i].since < s.threads[b].wait.value.start;
  }

  lemma {:induction false} WaitsRise(s: State, path: seq<nat>)
    requires StateOK(s) && IsPath(s, path) && |path| > 1 && Blocked(s, path[|path| - 1])
    ensures Blocked(s, path[0]) && s.threads[path[0]].wait.value.start < s.threads[path[|path| - 1]].wait.value.start
    decreases |path|
  {
    var front, n := path[..|path| - 1], |path|;
    assert WaitsAt(s, path, n - 2);
    LaterWait(s, path[n - 2], path[n - 1]);
    if |front| > 1 {
      assert forall k | 0 <= k < |front| - 1 :: WaitsAt(s, path, k) ==> WaitsAt(s, front, k);
      WaitsRise(s, front);
    }
  }

  /** No cycle, in any run: whatever threads, flights and lanes there are, and however callbacks call
      back into the server, no thread waits, directly or through others, for itself. */
  lemma {:induction false} NoDeadlock(moves: seq<Move>, path: seq<nat>)
    requires IsPath(RunOf(INITIAL, moves), path) && |path| > 1
    ensures path[0] != path[|path| - 1]
  {
    EveryRunKeeps(INITIAL, moves);
    var s := RunOf(INITIAL, moves);
    assert WaitsAt(s, path, 0);
    if Blocked(s, path[|path| - 1]) {
      WaitsRise(s, path);
    }
  }

  /** A blocked thread waits for an item somebody holds. */
  lemma {:induction false} BlockedOnHolder(s: State, t: nat)
    requires StateOK(s) && Blocked(s, t)
    ensures s.items[s.threads[t].wait.value.item].holder.Some?
    ensures var b := s.items[s.threads[t].wait.value.item].holder.value; Waits(s, t, b) && b in s.threads
  {
    assert ItemOK(s, s.threads[t].wait.value.item);
  }

  lemma {:induction false} PathToRunner(s: State, t: nat) returns (path: seq<nat>)
    requires StateOK(s) && t in s.threads
    ensures IsPath(s, path) && path[0] == t
    ensures path[|path| - 1] in s.threads && !Blocked(s, path[|path| - 1])
    decreases s.clock - (if Blocked(s, t) then s.threads[t].wait.value.start else s.clock), if Blocked(s, t) then 1
              else 0
  {
    if !Blocked(s, t) {
      path := [t];
    } else {
      BlockedOnHolder(s, t);
      assert WaitOK(s, t);
      var b := s.items[s.threads[t].wait.value.item].holder.value;
      if Blocked(s, b) {
        LaterWait(s, t, b);
        assert WaitOK(s, b);
      }
      var rest := PathToRunner(s, b);
      path := [t] + rest;
      forall k | 0 <= k < |path| - 1
        ensures WaitsAt(s, path, k)
      {
        if k > 0 { assert WaitsAt(s, rest, k - 1); }
      }
    }
  }

  /** Every chain of waits ends at a thread that can go on. */
  lemma {:induction false} EveryWaitHasARunner(moves: seq<Move>, t: nat)
    requires t in RunOf(INITIAL, moves).threads
    ensures var s := RunOf(INITIAL, moves);
            exists path ::
              IsPath(s, path) && path[0] == t && path[|path| - 1] in s.threads && !Blocked(s, path[|path| - 1])
  {
    EveryRunKeeps(INITIAL, moves);
    var path := PathToRunner(RunOf(INITIAL, moves), t);
  }

  // ---------------------------------------------------------------- the lanes of the server

  /** An item seen as the lane the server keeps. */
  function AsLane(item: Item, users: nat): Lanes.Lane
  {
    Lanes.Lane(users, item.holder.Some?, item.flag, item.queue)
  }

  /** Submitting is the lane's own submission: refused alike; otherwise the lane is the one it leaves, and the
      caller drains it or waits for its request. */
  lemma {:induction false} SubmitsAsLane(s: State, t: nat, i: nat, users: nat)
    requires MayCall(s, t) && i < |s.items| && s.items[i].kind == Lane
    ensures var n := Step(s, Submit(t, i));
            match Lanes.Submit(AsLane(s.items[i], users), s.clock)
            case Refused => n == s
            case Accepted(lane, drains) =>
              && AsLane(n.items[i], users) == lane
              && n.threads[t] == (if drains then s.threads[t].(stack := s.threads[t].stack + [i])
                                  else s.threads[t].(wait := Some(Wait(i, s.clock))))
  {
  }

  /** So is taking a request, and so are entering and leaving a callback. */
  lemma {:induction false} WorksAsLane(s: State, t: nat, users: nat)
    requires StateOK(s) && Known(s, t) && s.threads[t].wait.None? && s.threads[t].stack != []
    requires s.items[Top(s, t)].kind == Lane
    ensures var i := Top(s, t);
            var lane := AsLane(s.items[i], users);
            && (!lane.callbackActive && s.items[i].serving.None? ==>
                  var n := Step(s, TakeRequest(t));
                  && AsLane(n.items[i], users) == Lanes.Take(lane).0 && n.items[i].serving == Lanes.Take(lane).1)
            && (match Lanes.Enter(lane)
                case Some(entered) => AsLane(Step(s, EnterCallback(t)).items[i], users) == entered
                case None => Step(s, EnterCallback(t)) == s)
            && (lane.callbackActive ==> AsLane(Step(s, LeaveCallback(t)).items[i], users) == Lanes.Leave(lane))
  {
    assert ThreadOK(s, t);
  }
}
