/** The package variables of program.go as one object: the start queue, its flag and its ticker. */
module StartService {
  import opened Common
  import S = Supervisor

  function Flatten(batches: seq<seq<nat>>): seq<nat> {
    if batches == [] then [] else batches[0] + Flatten(batches[1..])
  }

  class StartService {
    var queue: seq<nat>
    var running: bool
    var stopped: bool

    constructor InitService()
      ensures View(false, S.Idle) == S.Service([], true, false, false, S.Idle)
    {
      queue, running, stopped := [], true, false;
    }

    /** The object as the service part of the daemon's state. */
    function View(pending: bool, processor: S.Processor): S.Service
      reads this
    {
      S.Service(queue, running, stopped, pending, processor)
    }

    method StartViaService(p: nat)
      modifies this
      ensures forall pending, processor :: View(pending, processor) == S.Push(old(View(pending, processor)), p)
      ensures queue == if old(running) then old(queue) + [p] else old(queue)
      ensures running == old(running) && stopped == old(stopped)
    {
      if running {
        queue := queue + [p];
      }
    }

    method ShutdownService()
      modifies this
      ensures queue == old(queue) && !running && stopped
    {
      running := false;
      stopped := true;
    }

    /** Takes the front of the queue, if there is one. */
    method TakeFront() returns (next: Option<nat>)
      modifies this
      ensures running == old(running) && stopped == old(stopped)
      ensures next.None? <==> old(queue) == []
      ensures next.None? ==> queue == []
      ensures next.Some? ==> old(queue) == [next.value] + queue
    {
      next := if queue == [] then None else Some(queue[0]);
      if next != None {
        queue := queue[1..];
      }
    }

    /** Other goroutines hand a batch of programs to StartViaService. */
    method Arrivals(batch: seq<nat>)
      modifies this
      ensures running == old(running) && stopped == old(stopped)
      ensures queue == old(queue) + Accepted(running, batch)
    {
      for j := 0 to |batch|
        invariant running == old(running) && stopped == old(stopped)
        invariant queue == old(queue) + (if running then batch[..j] else [])
      {
        StartViaService(batch[j]);
        assert batch[..j + 1] == batch[..j] + [batch[j]];
      }
      assert batch[..|batch|] == batch;
    }

    /** One round of the loop: a batch arrives, then the tick takes the front of the queue. */
    method Round(batch: seq<nat>) returns (taken: seq<nat>)
      modifies this
      ensures running == old(running) && stopped == old(stopped) && |taken| <= 1
      ensures old(queue) + Accepted(old(running), batch) == taken + queue
      ensures taken == [] ==> queue == []
    {
      Arrivals(batch);
      var next := TakeFront();
      taken := if next.Some? then [next.value] else [];
    }

    /**
     * The processQueue loop over a sequence of ticks; `arrivals[i]` comes in before tick i.
     * Everything queued or accepted is either taken, once and in order, or still queued.
     */
    method ProcessQueue(arrivals: seq<seq<nat>>) returns (taken: seq<nat>)
      modifies this
      ensures running == old(running) && stopped == old(stopped)
      ensures old(queue) + Accepted(old(running), Flatten(arrivals)) == taken + queue
      ensures |taken| <= |arrivals|
    {
      taken := [];
      for i := 0 to |arrivals|
        invariant running == old(running) && stopped == old(stopped)
        invariant |taken| <= i
        invariant old(queue) + Accepted(running, Flatten(arrivals[..i])) == taken + queue
      {
        ghost var before := queue;
        var now := Round(arrivals[i]);
        RoundDone(old(queue), running, arrivals, i, taken, before, now, queue);
        taken := taken + now;
      }
      assert arrivals[..|arrivals|] == arrivals;
    }
  }

  /** What a batch adds to the queue. */
  function Accepted(running: bool, batch: seq<nat>): seq<nat> {
    if running then batch else []
  }

  /** One more round of the processor keeps the balance of the queue. */
  lemma RoundDone(start: seq<nat>, running: bool, arrivals: seq<seq<nat>>, i: nat,
                  taken: seq<nat>, before: seq<nat>, now: seq<nat>, after: seq<nat>)
    requires i < |arrivals|
    requires start + Accepted(running, Flatten(arrivals[..i])) == taken + before
    requires before + Accepted(running, arrivals[i]) == now + after
    ensures start + Accepted(running, Flatten(arrivals[..i + 1])) == (taken + now) + after
  {
    FlattenOne(arrivals, i);
    Regroup(start, Accepted(running, Flatten(arrivals[..i])), Accepted(running, arrivals[i]),
            taken, before, now, after);
  }

  lemma {:induction false} FlattenOne(batches: seq<seq<nat>>, i: nat)
    requires i < |batches|
    ensures Flatten(batches[..i + 1]) == Flatten(batches[..i]) + batches[i]
  {
    if i == 0 {
      assert batches[..1] == [batches[0]];
    } else {
      FlattenOne(batches[1..], i - 1);
      assert batches[..i + 1][1..] == batches[1..][..i] && batches[..i][1..] == batches[1..][..i - 1];
    }
  }
}
