// pkg/natsx/consume.go and dlq.go: how the outcome of a handler settles a message,
// and what a message can come to over all its deliveries.
module Delivery {
  import opened Common

  datatype Outcome = Ack | Retry(err: string) | RetryAfter(delay: int, err: string) | Term(reason: string)

  // RetryAfter's constructor function: negative delays count as none.
  function NewRetryAfter(delay: int, err: string): (o: Outcome)
    ensures o.RetryAfter? && o.delay >= 0 && o.err == err
    ensures delay >= 0 ==> o.delay == delay
    ensures delay < 0 ==> o.delay == 0
  {
    RetryAfter(Max(delay, 0), err)
  }

  // One run of a handler.
  datatype HandlerRun = Returned(outcome: Outcome) | Panicked(what: string)

  // safeApply
  function SafeApply(run: HandlerRun): (o: Outcome)
    ensures run.Panicked? ==> o.Retry?
    ensures run.Returned? ==> o == run.outcome
  {
    match run
    case Returned(outcome) => outcome
    case Panicked(what) => Retry("handler panic: " + what)
  }

  // What a delivery tells about itself; absent when it cannot be read.
  datatype Metadata = Metadata(numDelivered: nat, stream: string)

  datatype Settlement = Acked | Naked | NakedAfter(delay: int) | Terminated

  const DLQ_FAILURE_RETRY_DELAY: int := 1_000_000_000

  // The delay after delivery n: entry n of the schedule counted from one, its last
  // entry from then on, never negative; None without a schedule.
  function DelayOf(schedule: seq<int>, delivery: nat): Option<int> {
    if schedule == [] then None
    else Some(Max(schedule[Min(Max(delivery - 1, 0), |schedule| - 1)], 0))
  }

  method ScheduleRetryDelay(schedule: seq<int>, delivery: nat) returns (d: Option<int>)
    ensures d == DelayOf(schedule, delivery)
    ensures d.None? <==> schedule == []
    ensures 1 <= delivery <= |schedule| && schedule[delivery - 1] >= 0 ==> d == Some(schedule[delivery - 1])
    ensures delivery > |schedule| > 0 && schedule[|schedule| - 1] >= 0 ==> d == Some(schedule[|schedule| - 1])
    ensures delivery == 0 && |schedule| > 0 && schedule[0] >= 0 ==> d == Some(schedule[0])
    ensures d.Some? && d.value !in schedule ==> d.value == 0 && exists k :: 0 <= k < |schedule| && schedule[k] < 0
  {
    if |schedule| == 0 {
      return None;
    }
    var idx: int := delivery - 1;
    if idx < 0 {
      idx := 0;
    }
    if idx >= |schedule| {
      idx := |schedule| - 1;
    }
    if schedule[idx] < 0 {
      return Some(0);
    }
    return Some(schedule[idx]);
  }

  // ---------------------------------------------------------------- one delivery

  predicate Exhausted(md: Option<Metadata>, maxDeliver: int) {
    maxDeliver > 0 && md.Some? && md.value.numDelivered >= maxDeliver
  }

  // What one delivery comes to: how the message is settled, whether a dead-letter
  // copy was stored, and whether the dead-letter hook ran.
  datatype Result = Result(settlement: Settlement, copied: bool, hooked: bool)

  // dlq can only route a message whose stream is known.
  predicate Copied(md: Option<Metadata>, stores: bool) {
    md.Some? && md.value.stream != "" && stores
  }

  function NumberOf(md: Option<Metadata>): nat {
    match md
    case Some(m) => m.numDelivered
    case None => 0
  }

  // The callback; `stores` tells whether the dead-letter stream takes a message.
  function Settled(run: HandlerRun, md: Option<Metadata>, maxDeliver: int, stores: bool, schedule: seq<int>): Result {
    var out := SafeApply(run);
    if out.Ack? then Result(Acked, false, false)
    else if out.Term? || Exhausted(md, maxDeliver) then
      if Copied(md, stores) || Exhausted(md, maxDeliver) then Result(Terminated, Copied(md, stores), true)
      else Result(NakedAfter(DLQ_FAILURE_RETRY_DELAY), false, false)
    else if out.RetryAfter? then Result(NakedAfter(out.delay), false, false)
    else
      match DelayOf(schedule, NumberOf(md))
      case Some(delay) => Result(NakedAfter(delay), false, false)
      case None => Result(Naked, false, false)
  }

  // How a message can end: only an Ack outcome acknowledges it, so a panic never
  // does; only a stored copy or used-up deliveries terminate it; and the hook runs
  // with every termination, so without a copy exactly when the deliveries are used
  // up and the copy failed.
  lemma WaysToEnd(run: HandlerRun, md: Option<Metadata>, maxDeliver: int, stores: bool, schedule: seq<int>)
    ensures var r := Settled(run, md, maxDeliver, stores, schedule);
      && (r.settlement.Acked? <==> run == Returned(Ack))
      && (run.Panicked? ==> !r.settlement.Acked?)
      && (r.settlement.Terminated? ==> r.copied || Exhausted(md, maxDeliver))
      && (r.settlement.Terminated? && !r.copied <==>
            run != Returned(Ack) && Exhausted(md, maxDeliver) && !Copied(md, stores))
      && (r.hooked && !r.copied <==> run != Returned(Ack) && Exhausted(md, maxDeliver) && !Copied(md, stores))
      && (r.copied ==> r.settlement.Terminated?)
      && (Exhausted(md, maxDeliver) ==> r.settlement.Acked? || r.settlement.Terminated?)
  {
  }

  datatype DeadLetter = DeadLetter(subject: string, body: string, reason: string)

  function ReasonOf(o: Outcome): string {
    match o
    case Ack => "<nil>"
    case Retry(err) => err
    case RetryAfter(_, err) => err
    case Term(reason) => if reason == "" then "<nil>" else reason
  }

  // The JetStream connection towards the dead-letter stream: it stores the next
  // `accepts` messages and then fails.
  class DeadLetterQueue {
    var copies: seq<DeadLetter>
    var accepts: nat

    constructor (accepts: nat)
      ensures copies == [] && this.accepts == accepts
    {
      copies := [];
      this.accepts := accepts;
    }

    // dlq
    method Publish(stream: string, consumer: string, body: string, reason: string) returns (ok: bool)
      modifies this
      ensures ok <==> stream != "" && old(accepts) > 0
      ensures accepts == if ok then old(accepts) - 1 else old(accepts)
      ensures copies == old(copies) + if ok then [DeadLetter("dlq." + stream + "." + consumer, body, reason)] else []
    {
      if stream == "" || accepts == 0 {
        return false;
      }
      accepts := accepts - 1;
      copies := copies + [DeadLetter("dlq." + stream + "." + consumer, body, reason)];
      return true;
    }
  }

  method OnMessage(queue: DeadLetterQueue, consumer: string, body: string, md: Option<Metadata>, maxDeliver: int,
                   schedule: seq<int>, run: HandlerRun) returns (r: Result)
    modifies queue
    ensures r == Settled(run, md, maxDeliver, old(queue.accepts) > 0, schedule)
    ensures r.copied ==>
      queue.copies == old(queue.copies) + [DeadLetter("dlq." + md.value.stream + "." + consumer, body, ReasonOf(SafeApply(run)))]
    ensures !r.copied ==> queue.copies == old(queue.copies)
    ensures r.copied && run.Returned? && run.outcome.Term? && run.outcome.reason != "" ==>
      queue.copies == old(queue.copies) + [DeadLetter("dlq." + md.value.stream + "." + consumer, body, run.outcome.reason)]
    ensures r.copied && run.Returned? && run.outcome.Retry? ==>
      queue.copies == old(queue.copies) + [DeadLetter("dlq." + md.value.stream + "." + consumer, body, run.outcome.err)]
    // The settlement by what the handler returned, while deliveries are left.
    ensures r.settlement == Acked <==> run == Returned(Ack)
    ensures var left := maxDeliver <= 0 || md.None? || md.value.numDelivered < maxDeliver;
      && (left && run.Returned? && run.outcome.RetryAfter? ==> r.settlement == NakedAfter(run.outcome.delay))
      && (left && (run.Panicked? || run.outcome.Retry?) ==>
            && (schedule == [] ==> r.settlement == Naked)
            && (md.Some? && 1 <= md.value.numDelivered <= |schedule| && schedule[md.value.numDelivered - 1] >= 0 ==>
                  r.settlement == NakedAfter(schedule[md.value.numDelivered - 1]))
            && (md.Some? && md.value.numDelivered > |schedule| > 0 && schedule[|schedule| - 1] >= 0 ==>
                  r.settlement == NakedAfter(schedule[|schedule| - 1])))
      && (left && run.Returned? && run.outcome.Term? ==>
            r.settlement == if r.copied then Terminated else NakedAfter(1_000_000_000))
      && (!left ==> r.settlement == Acked || r.settlement == Terminated)
      && (r.hooked <==> r.settlement == Terminated)
      && (r.copied <==> r.settlement == Terminated && md.Some? && md.value.stream != "" && old(queue.accepts) > 0)
  {
    var out := SafeApply(run);
    var exhausted := maxDeliver > 0 && md.Some? && md.value.numDelivered >= maxDeliver;
    if out.Ack? {
      return Result(Acked, false, false);
    }
    if out.Term? || exhausted {
      var stream := if md.Some? then md.value.stream else "";
      var ok := queue.Publish(stream, consumer, body, ReasonOf(out));
      if !ok && !exhausted {
        return Result(NakedAfter(DLQ_FAILURE_RETRY_DELAY), false, false);
      }
      return Result(Terminated, ok, true);
    }
    if out.RetryAfter? {
      return Result(NakedAfter(out.delay), false, false);
    }
    var d := ScheduleRetryDelay(schedule, if md.Some? then md.value.numDelivered else 0);
    return Result(match d case Some(delay) => NakedAfter(delay) case None => Naked, false, false);
  }

  // ---------------------------------------------------------------- all deliveries

  // A consumer's settings and the stream its messages come from.
  datatype Consumer = Consumer(stream: string, maxDeliver: int, schedule: seq<int>)

  // One delivery: the handler run, whether the metadata can be read, whether the
  // dead-letter stream takes a copy, and whether the settlement reaches the server.
  datatype Attempt = Attempt(run: HandlerRun, readable: bool, stores: bool, arrives: bool)

  // A message as the server sees it. `last` is its final settlement, if any.
  datatype Message = Message(deliveries: nat, copies: nat, last: Option<Settlement>)

  function MetadataOf(c: Consumer, n: nat, a: Attempt): Option<Metadata> {
    if a.readable then Some(Metadata(n, c.stream)) else None
  }

  function ResultOf(c: Consumer, n: nat, a: Attempt): Result {
    Settled(a.run, MetadataOf(c, n, a), c.maxDeliver, a.stores, c.schedule)
  }

  // The server delivers an unsettled message again, but not past MaxDeliver.
  predicate Deliverable(c: Consumer, m: Message) {
    m.last.None? && (c.maxDeliver > 0 ==> m.deliveries < c.maxDeliver)
  }

  function Delivered(c: Consumer, m: Message, a: Attempt): Message {
    if !Deliverable(c, m) then m
    else
      var r := ResultOf(c, m.deliveries + 1, a);
      Message(m.deliveries + 1,
              m.copies + (if r.copied then 1 else 0),
              if a.arrives && (r.settlement.Acked? || r.settlement.Terminated?) then Some(r.settlement) else None)
  }

  function Life(c: Consumer, attempts: seq<Attempt>): Message {
    if attempts == [] then Message(0, 0, None)
    else Delivered(c, Life(c, attempts[..|attempts| - 1]), attempts[|attempts| - 1])
  }

  // Every attempt is a delivery until the message is settled or MaxDeliver is
  // reached, and none after that.
  lemma {:induction false} DeliveriesAreCounted(c: Consumer, attempts: seq<Attempt>)
    ensures var m := Life(c, attempts);
      && m.deliveries <= |attempts|
      && (m.last.None? ==> m.deliveries == if c.maxDeliver > 0 then Min(|attempts|, c.maxDeliver) else |attempts|)
      && (c.maxDeliver > 0 ==> m.deliveries <= c.maxDeliver)
  {
    if attempts != [] {
      DeliveriesAreCounted(c, attempts[..|attempts| - 1]);
    }
  }

  // Over every run of outcomes, panics, lost settlements and dead-letter failures:
  // a message is acknowledged only by a handler that returned Ack, and terminated
  // without a dead-letter copy only when its deliveries are used up.
  lemma {:induction false} NothingIsSilentlyDropped(c: Consumer, attempts: seq<Attempt>)
    ensures var m := Life(c, attempts);
      && (m.last == Some(Acked) ==> exists i :: 0 <= i < |attempts| && attempts[i].run == Returned(Ack))
      && (m.last == Some(Terminated) && m.copies == 0 ==> 0 < c.maxDeliver <= m.deliveries)
      && (m.last.Some? ==> m.last.value.Acked? || m.last.value.Terminated?)
  {
    if attempts != [] {
      var front, a := attempts[..|attempts| - 1], attempts[|attempts| - 1];
      NothingIsSilentlyDropped(c, front);
      var m := Life(c, front);
      WaysToEnd(a.run, MetadataOf(c, m.deliveries + 1, a), c.maxDeliver, a.stores, c.schedule);
      if m.last == Some(Acked) {
        var i :| 0 <= i < |front| && front[i].run == Returned(Ack);
        assert attempts[i] == front[i];
      } else if Deliverable(c, m) {
        assert attempts[|attempts| - 1] == a;
      }
    }
  }

  // The last delivery a consumer allows always settles the message, when the
  // delivery can be read and its settlement arrives.
  lemma LastDeliverySettles(c: Consumer, m: Message, a: Attempt)
    requires c.maxDeliver > 0 && Deliverable(c, m) && m.deliveries + 1 == c.maxDeliver
    ensures a.readable && a.arrives ==> Delivered(c, m, a).last.Some?
  {
    WaysToEnd(a.run, MetadataOf(c, m.deliveries + 1, a), c.maxDeliver, a.stores, c.schedule);
  }

  // A handler that always panics never gets its message acknowledged.
  lemma {:induction false} PanicsNeverAcknowledge(c: Consumer, attempts: seq<Attempt>)
    requires forall i :: 0 <= i < |attempts| ==> attempts[i].run.Panicked?
    ensures Life(c, attempts).last != Some(Acked)
  {
    NothingIsSilentlyDropped(c, attempts);
  }

  // While the metadata cannot be read nothing is dead-lettered or terminated: a
  // poison message comes back for ever.
  lemma {:induction false} UnreadableIsNeverTerminated(c: Consumer, attempts: seq<Attempt>)
    requires forall i :: 0 <= i < |attempts| ==> !attempts[i].readable
    ensures Life(c, attempts).last != Some(Terminated) && Life(c, attempts).copies == 0
  {
    if attempts != [] {
      UnreadableIsNeverTerminated(c, attempts[..|attempts| - 1]);
      assert !attempts[|attempts| - 1].readable;
    }
  }
}
