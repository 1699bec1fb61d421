// services/metadata/internal/content/server.go, streamRange: the bounded pool
// that fetches the blocks of a span in parallel, as a state machine over its
// two channels. Any interleaving of its goroutines is a run.
module WorkerPool {
  import opened Common
  import opened BlockStream

  // The jobs channel is FIFO and filled in index order, so its content is the
  // interval [head, next). `done` lists every result sent so far; the consumer
  // has received the first `taken` of them and the rest sit in the channel.
  // `left` is set once the consumer has returned, after which nobody receives.
  datatype Pool = Pool(head: int, next: int, stopped: bool, cancelled: bool,
                       busy: set<int>, done: seq<Arrival>, taken: nat, left: bool)

  // The fixed circumstances of one call.
  datatype Call = Call(m: Manifest, store: BlockStore, s: Span, streamWorkers: nat)

  ghost predicate ValidCall(c: Call) {
    0 <= c.s.firstIdx <= c.s.lastIdx < |c.m.blocks| && c.streamWorkers >= 1
  }

  // Both the number of workers and the capacity of the results channel.
  function Workers(c: Call): int {
    Min(c.streamWorkers, c.s.lastIdx - c.s.firstIdx + 1)
  }

  datatype Step =
    | Spawn                      // the spawner hands the next index to the jobs channel
    | Cancel                     // the request context ends
    | StopSpawning               // the spawner notices that and returns
    | Take                       // an idle worker takes an index
    | Fetch(idx: int, ok: bool)  // a worker's read returns, and it sends the result
    | Receive                    // the consumer receives one result
    | Leave                      // the consumer returns: that fetch or a copy failed

  function Init(c: Call): Pool {
    Pool(c.s.firstIdx, c.s.firstIdx, false, false, {}, [], 0, false)
  }

  // The consumer's last result is a failed fetch.
  predicate Failed(p: Pool) {
    0 < p.taken <= |p.done| && p.done[p.taken - 1].body.None?
  }

  // The consumer's last result was next in order, so it is being copied.
  predicate Copying(c: Call, p: Pool) {
    0 < p.taken <= |p.done|
    && forall i :: c.s.firstIdx <= i < p.done[p.taken - 1].idx ==> i in Indices(p.done[..p.taken])
  }

  predicate SpawnerDone(c: Call, p: Pool) {
    p.stopped || p.next > c.s.lastIdx
  }

  predicate Enabled(c: Call, p: Pool, step: Step) {
    match step
    case Spawn => !SpawnerDone(c, p)
    case Cancel => !p.cancelled
    case StopSpawning => p.cancelled && !SpawnerDone(c, p)
    case Take => p.head < p.next && |p.busy| < Workers(c)
    case Fetch(idx, _) => idx in p.busy && 0 <= idx < |c.m.blocks| && |p.done| - p.taken < Workers(c)
    case Receive => !p.left && !Failed(p) && p.taken < |p.done|
    case Leave => !p.left && (Failed(p) || Copying(c, p))
  }

  function Apply(c: Call, p: Pool, step: Step): Pool
    requires Enabled(c, p, step)
  {
    match step
    case Spawn => p.(next := p.next + 1)
    case Cancel => p.(cancelled := true)
    case StopSpawning => p.(stopped := true)
    case Take => p.(head := p.head + 1, busy := p.busy + {p.head})
    case Fetch(idx, ok) =>
      p.(busy := p.busy - {idx},
         done := p.done + [Arrival(idx, if ok then Some(Segment(c.m, c.store, c.s, idx)) else None)])
    case Receive => p.(taken := p.taken + 1)
    case Leave => p.(left := true)
  }

  // The pool after a sequence of steps; None if some step was not possible.
  function Run(c: Call, steps: seq<Step>): Option<Pool> {
    if steps == [] then
      Some(Init(c))
    else
      match Run(c, steps[..|steps| - 1])
      case None => None
      case Some(p) =>
        var step := steps[|steps| - 1];
        if Enabled(c, p, step) then Some(Apply(c, p, step)) else None
  }

  // Both channels drained and every worker gone: the consumer's loop ends.
  predicate Closed(c: Call, p: Pool) {
    SpawnerDone(c, p) && p.head == p.next && p.busy == {} && p.taken == |p.done|
  }

  function Received(p: Pool): seq<Arrival>
    requires p.taken <= |p.done|
  {
    p.done[..p.taken]
  }

  // Every index handed out is with exactly one worker or has exactly one result.
  ghost predicate Inv(c: Call, p: Pool) {
    && c.s.firstIdx <= p.head <= p.next <= c.s.lastIdx + 1
    && p.taken <= |p.done|
    && (forall i :: i in p.busy || i in Indices(p.done) <==> c.s.firstIdx <= i < p.head)
    && p.busy !! Indices(p.done)
    && Deliverable(c.m, c.store, c.s, p.done)
    && (p.stopped ==> p.cancelled)
    && |p.busy| <= Workers(c) && |p.done| - p.taken <= Workers(c)
    && |p.done| + |p.busy| == p.head - c.s.firstIdx
    && (p.left ==> p.taken > 0)
  }

  lemma IndicesSnoc(done: seq<Arrival>, a: Arrival)
    ensures Indices(done + [a]) == Indices(done) + {a.idx}
  {
  }

  lemma DeliverableSnoc(m: Manifest, store: BlockStore, s: Span, done: seq<Arrival>, a: Arrival)
    requires Deliverable(m, store, s, done) && Answers(m, store, s, a) && a.idx !in Indices(done)
    ensures Deliverable(m, store, s, done + [a])
  {
  }

  lemma FetchKeepsInv(c: Call, p: Pool, idx: int, ok: bool)
    requires ValidCall(c) && Inv(c, p) && Enabled(c, p, Fetch(idx, ok))
    ensures Inv(c, Apply(c, p, Fetch(idx, ok)))
  {
    hide Deliverable, Segment, Indices;
    var a := Arrival(idx, if ok then Some(Segment(c.m, c.store, c.s, idx)) else None);
    IndicesSnoc(p.done, a);
    DeliverableSnoc(c.m, c.store, c.s, p.done, a);
  }

  lemma StepKeepsInv(c: Call, p: Pool, step: Step)
    requires ValidCall(c) && Inv(c, p) && Enabled(c, p, step)
    ensures Inv(c, Apply(c, p, step))
  {
    hide Deliverable, Indices, Segment;
    if step.Fetch? {
      FetchKeepsInv(c, p, step.idx, step.ok);
    }
  }

  lemma {:induction false} RunKeepsInv(c: Call, steps: seq<Step>)
    requires ValidCall(c) && Run(c, steps).Some?
    ensures Inv(c, Run(c, steps).value)
  {
    if steps != [] {
      RunKeepsInv(c, steps[..|steps| - 1]);
      StepKeepsInv(c, Run(c, steps[..|steps| - 1]).value, steps[|steps| - 1]);
    }
  }

  // In every run the consumer has received distinct blocks of the span, each
  // with the bytes that were asked for: what StreamRange needs of the channel.
  lemma ReceivedIsDeliverable(c: Call, steps: seq<Step>)
    requires ValidCall(c) && Run(c, steps).Some?
    ensures var p := Run(c, steps).value;
      p.taken <= |p.done| && Deliverable(c.m, c.store, c.s, Received(p))
  {
    RunKeepsInv(c, steps);
  }

  // When the channel closes on a request that was not cancelled, every block of
  // the span has been received.
  lemma ClosedMeansAllReceived(c: Call, steps: seq<Step>)
    requires ValidCall(c) && Run(c, steps).Some?
    requires Closed(c, Run(c, steps).value) && !Run(c, steps).value.cancelled
    ensures forall i :: c.s.firstIdx <= i <= c.s.lastIdx ==> i in Indices(Received(Run(c, steps).value))
  {
    RunKeepsInv(c, steps);
    var p := Run(c, steps).value;
    assert Received(p) == p.done;
  }

  // Work still ahead of the pool.
  function Remaining(c: Call, p: Pool): int {
    4 * (c.s.lastIdx + 1 - p.next) + 3 * (p.next - p.head) + 2 * |p.busy| + (|p.done| - p.taken)
    + (if p.stopped then 0 else 1) + (if p.cancelled then 0 else 1) + (if p.left then 0 else 1)
  }

  lemma RunSnoc(c: Call, steps: seq<Step>, step: Step)
    requires Run(c, steps).Some? && Enabled(c, Run(c, steps).value, step)
    ensures Run(c, steps + [step]) == Some(Apply(c, Run(c, steps).value, step))
  {
    assert (steps + [step])[..|steps|] == steps;
  }

  // What the invariant says about sizes.
  lemma Bounds(c: Call, p: Pool)
    requires ValidCall(c) && Inv(c, p)
    ensures c.s.firstIdx <= p.head <= p.next <= c.s.lastIdx + 1 && p.taken <= |p.done|
    ensures |p.busy| <= Workers(c) && |p.done| - p.taken <= Workers(c)
    ensures |p.done| + |p.busy| == p.head - c.s.firstIdx && (p.stopped ==> p.cancelled)
    ensures forall i :: i in p.busy ==> 0 <= i < |c.m.blocks| && |p.busy - {i}| == |p.busy| - 1
  {
  }

  lemma NextMove(c: Call, p: Pool) returns (step: Step)
    requires ValidCall(c) && Inv(c, p) && !Closed(c, p) && !p.left
    ensures step != Cancel && Enabled(c, p, step)
    ensures 0 <= Remaining(c, Apply(c, p, step)) < Remaining(c, p)
  {
    hide Inv, Segment, Copying;
    Bounds(c, p);
    if Failed(p) {
      step := Leave;
    } else if p.taken < |p.done| {
      step := Receive;
    } else if p.busy != {} {
      var idx := SomeMember<int>(p.busy);
      step := Fetch(idx, true);
    } else if p.head < p.next {
      step := Take;
    } else {
      step := Spawn;
    }
  }

  // While the consumer is there no schedule deadlocks: until the channel closes
  // some goroutine can move (without any cancellation), and each move leaves less
  // to do.
  lemma PoolAlwaysFinishes(c: Call, steps: seq<Step>) returns (step: Step)
    requires ValidCall(c) && Run(c, steps).Some?
    requires !Closed(c, Run(c, steps).value) && !Run(c, steps).value.left
    ensures step != Cancel && Run(c, steps + [step]).Some?
    ensures 0 <= Remaining(c, Run(c, steps + [step]).value) < Remaining(c, Run(c, steps).value)
  {
    hide Run, Enabled, Apply, Inv, Closed, Remaining;
    RunKeepsInv(c, steps);
    step := NextMove(c, Run(c, steps).value);
    RunSnoc(c, steps, step);
  }

  // ---------------------------------------------------------------- after leaving

  // The spawner and every worker have returned.
  predicate Gone(c: Call, p: Pool) {
    SpawnerDone(c, p) && p.head == p.next && p.busy == {}
  }

  // The results still to be sent fit the channel.
  predicate Fits(c: Call, p: Pool) {
    p.next - c.s.firstIdx - p.taken <= Workers(c)
  }

  // Some continuation lets all goroutines return.
  ghost predicate CanFinish(c: Call, steps: seq<Step>) {
    exists more :: Run(c, steps + more).Some? && Gone(c, Run(c, steps + more).value)
  }

  // A goroutine that moves once the consumer has left.
  lemma MoveAfterLeaving(c: Call, p: Pool) returns (step: Step)
    requires ValidCall(c) && Inv(c, p) && p.left && Fits(c, p) && !Gone(c, p)
    ensures Enabled(c, p, step)
    ensures var q := Apply(c, p, step);
      q.left && Fits(c, q) && 0 <= Remaining(c, q) < Remaining(c, p)
  {
    hide Inv, Segment, Copying;
    Bounds(c, p);
    if !SpawnerDone(c, p) {
      step := if p.cancelled then StopSpawning else Cancel;
    } else if p.busy != {} {
      var idx := SomeMember<int>(p.busy);
      step := Fetch(idx, true);
    } else {
      step := Take;
    }
  }

  lemma {:induction false} FitsCanFinish(c: Call, steps: seq<Step>)
    requires ValidCall(c) && Run(c, steps).Some? && Run(c, steps).value.left && Fits(c, Run(c, steps).value)
    ensures CanFinish(c, steps)
    decreases Remaining(c, Run(c, steps).value)
  {
    hide Enabled, Apply, Inv, Fits, Remaining;
    RunKeepsInv(c, steps);
    var p := Run(c, steps).value;
    if Gone(c, p) {
      assert steps + [] == steps;
    } else {
      var step := MoveAfterLeaving(c, p);
      RunSnoc(c, steps, step);
      FitsCanFinish(c, steps + [step]);
      var more :| Run(c, steps + [step] + more).Some? && Gone(c, Run(c, steps + [step] + more).value);
      assert steps + [step] + more == steps + ([step] + more);
    }
  }

  // Once the consumer has left, nothing is received and nothing handed out is
  // taken back.
  lemma {:induction false} LeftStaysLeft(c: Call, steps: seq<Step>, more: seq<Step>)
    requires ValidCall(c) && Run(c, steps + more).Some?
    ensures Run(c, steps).Some?
    ensures var p, q := Run(c, steps).value, Run(c, steps + more).value;
      p.left ==> q.left && q.taken == p.taken && q.next >= p.next
    decreases |more|
  {
    if more == [] {
      assert steps + more == steps;
    } else {
      var front := more[..|more| - 1];
      assert (steps + more)[..|steps + more| - 1] == steps + front;
      LeftStaysLeft(c, steps, front);
    }
  }

  // After the consumer has left, the remaining goroutines can return if and only
  // if the results still to be sent fit the results channel. Otherwise some worker
  // is blocked in its send for ever, and the channel is never closed.
  lemma GoroutinesReturnExactlyWhen(c: Call, steps: seq<Step>)
    requires ValidCall(c) && Run(c, steps).Some? && Run(c, steps).value.left
    ensures CanFinish(c, steps) <==> Fits(c, Run(c, steps).value)
  {
    if Fits(c, Run(c, steps).value) {
      FitsCanFinish(c, steps);
    } else {
      forall more | Run(c, steps + more).Some? ensures !Gone(c, Run(c, steps + more).value) {
        RunKeepsInv(c, steps + more);
        LeftStaysLeft(c, steps, more);
      }
    }
  }

  lemma {:induction false} SpawnFirst(c: Call, n: nat) returns (steps: seq<Step>)
    requires ValidCall(c) && n <= c.s.lastIdx - c.s.firstIdx + 1
    ensures Run(c, steps) == Some(Init(c).(next := c.s.firstIdx + n))
  {
    steps := [];
    if n > 0 {
      var front := SpawnFirst(c, n - 1);
      RunSnoc(c, front, Spawn);
      steps := front + [Spawn];
    }
  }

  // All indices are handed out, the first read fails, and the consumer leaves.
  lemma FirstReadFails(c: Call) returns (steps: seq<Step>)
    requires ValidCall(c)
    ensures Run(c, steps).Some? && Run(c, steps).value.left && Run(c, steps).value.taken == 1
    ensures Run(c, steps).value.next == c.s.lastIdx + 1
  {
    var first := c.s.firstIdx;
    steps := SpawnFirst(c, c.s.lastIdx - first + 1);
    var p := Run(c, steps).value;
    RunSnoc(c, steps, Take);
    RunSnoc(c, steps + [Take], Fetch(first, false));
    RunSnoc(c, steps + [Take] + [Fetch(first, false)], Receive);
    RunSnoc(c, steps + [Take] + [Fetch(first, false)] + [Receive], Leave);
    steps := steps + [Take] + [Fetch(first, false)] + [Receive] + [Leave];
  }

  // So a call can leak workers exactly when its span has at least two blocks more
  // than the pool has workers: with one worker, three blocks and a failed first
  // read, the worker sends one more result and then blocks.
  lemma LeaksExactlyWhen(c: Call)
    requires ValidCall(c)
    ensures (exists steps :: Run(c, steps).Some? && Run(c, steps).value.left && !CanFinish(c, steps))
      <==> c.s.lastIdx - c.s.firstIdx + 1 >= c.streamWorkers + 2
  {
    if c.s.lastIdx - c.s.firstIdx + 1 >= c.streamWorkers + 2 {
      var steps := FirstReadFails(c);
      GoroutinesReturnExactlyWhen(c, steps);
      assert !CanFinish(c, steps);
    } else {
      forall steps | Run(c, steps).Some? && Run(c, steps).value.left ensures CanFinish(c, steps) {
        RunKeepsInv(c, steps);
        GoroutinesReturnExactlyWhen(c, steps);
      }
    }
  }
}
