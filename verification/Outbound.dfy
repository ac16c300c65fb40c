/** The outbound queue of one connection: a FIFO with atomic batches. */
module Outbound {
  import opened Wire

  datatype Queue<T> = Queue(frames: seq<T>, closed: bool)

  function NewQueue<T>(): Queue<T>
  {
    Queue([], false)
  }

  datatype Action<T> = EnqueueBatch(frames: seq<T>) | Next | Close

  /** The outcome of one look at the queue. */
  datatype Taking<T> = Taken(frame: T) | ClosedError | NotYet

  // ---------------------------------------------------------------- one operation

  /** What an operation adds: a whole batch, or nothing once the queue is closed. */
  function Accepted<T>(q: Queue<T>, a: Action<T>): seq<T>
  {
    if a.EnqueueBatch? && !q.closed then a.frames else []
  }

  /** What an operation hands to its caller. */
  function Returned<T>(q: Queue<T>, a: Action<T>): seq<T>
  {
    if a.Next? && q.frames != [] then [q.frames[0]] else []
  }

  function After<T>(q: Queue<T>, a: Action<T>): Queue<T>
  {
    match a
    case EnqueueBatch(frames) => if q.closed then q else q.(frames := q.frames + frames)
    case Next => if q.frames == [] then q else q.(frames := q.frames[1..])
    case Close => q.(closed := true)
  }

  // ---------------------------------------------------------------- any number of operations

  function AfterAll<T>(q: Queue<T>, actions: seq<Action<T>>): Queue<T>
    decreases |actions|
  {
    if actions == [] then q else AfterAll(After(q, actions[0]), actions[1..])
  }

  function AcceptedBy<T>(q: Queue<T>, actions: seq<Action<T>>): seq<T>
    decreases |actions|
  {
    if actions == [] then [] else Accepted(q, actions[0]) + AcceptedBy(After(q, actions[0]), actions[1..])
  }

  function ReturnedBy<T>(q: Queue<T>, actions: seq<Action<T>>): seq<T>
    decreases |actions|
  {
    if actions == [] then [] else Returned(q, actions[0]) + ReturnedBy(After(q, actions[0]), actions[1..])
  }

  lemma {:induction false} OneConserves<T>(q: Queue<T>, a: Action<T>)
    ensures q.frames + Accepted(q, a) == Returned(q, a) + After(q, a).frames
  {
    if a.Next? && q.frames != [] {
      assert q.frames == [q.frames[0]] + q.frames[1..];
    }
  }

  /** First in, first out, over any run: what was there and what was accepted is, in that order, what
      was returned followed by what is still there. Nothing is accepted once closed, and closing loses
      nothing. */
  lemma {:induction false} Fifo<T>(q: Queue<T>, actions: seq<Action<T>>)
    ensures q.frames + AcceptedBy(q, actions) == ReturnedBy(q, actions) + AfterAll(q, actions).frames
    ensures q.closed ==> AfterAll(q, actions).closed && AcceptedBy(q, actions) == []
    decreases |actions|
  {
    if actions == [] {
    } else {
      var a, rest := actions[0], actions[1..];
      var next := After(q, a);
      OneConserves(q, a);
      Fifo(next, rest);
      Regroup(q.frames, Accepted(q, a), AcceptedBy(next, rest), Returned(q, a), next.frames, ReturnedBy(next, rest),
              AfterAll(next, rest).frames);
    }
  }

  lemma {:induction false} Regroup<T>(a: seq<T>, b: seq<T>, c: seq<T>, d: seq<T>, e: seq<T>, f: seq<T>, g: seq<T>)
    requires a + b == d + e && e + c == f + g
    ensures a + (b + c) == d + f + g
  {
    assert a + (b + c) == a + b + c;
    assert d + e + c == d + (e + c);
    assert d + (f + g) == d + f + g;
  }

  // ---------------------------------------------------------------- the queue as an object

  class OutboundQueue<T> {
    var frames: seq<T>
    var closed: bool
    /** Everything ever accepted and ever returned, kept for the proof only. */
    ghost var accepted: seq<T>
    ghost var returned: seq<T>

    ghost function View(): Queue<T>
      reads this
    {
      Queue(frames, closed)
    }

    /** What was accepted is what was returned, followed by what is pending. */
    ghost predicate Valid()
      reads this
    {
      accepted == returned + frames
    }

    constructor ()
      ensures Valid() && View() == NewQueue() && accepted == [] && returned == []
    {
      frames, closed := [], false;
      accepted, returned := [], [];
    }

    method Enqueue(frame: T) returns (ok: bool)
      requires Valid()
      modifies this
      ensures Valid() && ok == !old(closed)
      ensures View() == After(old(View()), Action.EnqueueBatch([frame]))
      ensures accepted == old(accepted) + (if ok then [frame] else []) && returned == old(returned)
    {
      ok := EnqueueBatch([frame]);
    }

    method EnqueueBatch(batch: seq<T>) returns (ok: bool)
      requires Valid()
      modifies this
      ensures Valid() && ok == !old(closed)
      ensures View() == After(old(View()), Action.EnqueueBatch(batch))
      ensures accepted == old(accepted) + (if ok then batch else []) && returned == old(returned)
    {
      if closed {
        return false;
      }
      var i := 0;
      while i < |batch|
        invariant 0 <= i <= |batch|
        invariant frames == old(frames) + batch[..i] && closed == old(closed)
        invariant accepted == old(accepted) && returned == old(returned)
      {
        frames := frames + [batch[i]];
        i := i + 1;
      }
      assert batch[..i] == batch;
      accepted := accepted + batch;
      return true;
    }

    /** One look at the queue: the oldest frame, the closed error, or nothing yet. */
    method Next() returns (r: Taking<T>)
      requires Valid()
      modifies this
      ensures Valid() && View() == After(old(View()), Action.Next)
      ensures r == if old(frames) != [] then Taken(old(frames)[0]) else if old(closed) then ClosedError else NotYet
      ensures returned == old(returned) + (if r.Taken? then [r.frame] else []) && accepted == old(accepted)
    {
      if |frames| > 0 {
        r := Taken(frames[0]);
        returned := returned + [frames[0]];
        frames := frames[1..];
      } else if closed {
        r := ClosedError;
      } else {
        r := NotYet;
      }
    }

    method Close()
      requires Valid()
      modifies this
      ensures Valid() && View() == After(old(View()), Action.Close)
      ensures accepted == old(accepted) && returned == old(returned)
    {
      closed := true;
    }
  }
}
