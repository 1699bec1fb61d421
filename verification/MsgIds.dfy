// pkg/events/headers.go: the de-duplication ids of purge requests.
module MsgIds {
  import opened Common
  import opened Decimal

  // First publish of a batch.
  function DecrefRequested(job: string, batch: nat): string {
    "decref:" + job + ":" + Print(batch)
  }

  // Re-drive of a batch by the sweeper.
  function DecrefRequestedRedrive(job: string, batch: nat, attempt: nat): string {
    DecrefRequested(job, batch) + ":r" + Print(attempt)
  }

  // What identifies one publish: the job, the batch, and which attempt it is
  // (none for the first publish).
  datatype Publish = Publish(job: string, batch: nat, attempt: Option<nat>)

  function IdOf(p: Publish): string {
    match p.attempt
    case None => DecrefRequested(p.job, p.batch)
    case Some(a) => DecrefRequestedRedrive(p.job, p.batch, a)
  }

  predicate ColonFree(s: string) {
    forall i :: 0 <= i < |s| ==> s[i] != ':'
  }

  // Cutting at the last colon is unambiguous, whatever stands before it.
  lemma CutAtLastColon(a: string, b: string, x: string, y: string)
    requires ColonFree(x) && ColonFree(y)
    requires a + ":" + x == b + ":" + y
    ensures a == b && x == y
  {
    var s := a + ":" + x;
    assert s[|a|] == ':' && forall i :: |a| < i < |s| ==> s[i] == x[i - |a| - 1];
    var t := b + ":" + y;
    assert t[|b|] == ':' && forall i :: |b| < i < |t| ==> t[i] == y[i - |b| - 1];
    assert |a| == |b|;
    assert s[..|a|] == a && t[..|b|] == b;
    assert s[|a| + 1..] == x && t[|b| + 1..] == y;
  }

  // The colon-free tail of an id: the batch of a first publish, "r<attempt>" of
  // a re-drive. The two kinds differ in their first character.
  lemma Tail(p: Publish) returns (front: string, tail: string)
    ensures IdOf(p) == front + ":" + tail && ColonFree(tail) && |tail| > 0
    ensures p.attempt == None ==> front == "decref:" + p.job && tail == Print(p.batch)
    ensures p.attempt.Some? ==>
      front == DecrefRequested(p.job, p.batch) && tail == "r" + Print(p.attempt.value)
    ensures tail[0] == 'r' <==> p.attempt.Some?
  {
    match p.attempt
    case None =>
      front, tail := "decref:" + p.job, Print(p.batch);
      assert IsDigit(tail[0]);
    case Some(a) =>
      front, tail := DecrefRequested(p.job, p.batch), "r" + Print(a);
      assert IdOf(p) == front + ":" + tail;
  }

  lemma FirstPublishInjective(p: Publish, q: Publish)
    requires DecrefRequested(p.job, p.batch) == DecrefRequested(q.job, q.batch)
    ensures p.job == q.job && p.batch == q.batch
  {
    var pj, qj := "decref:" + p.job, "decref:" + q.job;
    CutAtLastColon(pj, qj, Print(p.batch), Print(q.batch));
    assert p.job == pj[7..] && q.job == qj[7..];
    PrintInjective(p.batch, q.batch);
  }

  // Two publishes carry the same id only when they are the same (job, batch,
  // attempt): the de-duplication window never swallows a publish that differs in
  // any of the three. Because an id can be read from its right end, this needs
  // no assumption about the characters of a job id.
  lemma IdsNeverCollide(p: Publish, q: Publish)
    ensures IdOf(p) == IdOf(q) <==> p == q
  {
    if IdOf(p) == IdOf(q) {
      var pf, pt := Tail(p);
      var qf, qt := Tail(q);
      CutAtLastColon(pf, qf, pt, qt);
      if p.attempt.Some? {
        assert pt[1..] == Print(p.attempt.value) && qt[1..] == Print(q.attempt.value);
        PrintInjective(p.attempt.value, q.attempt.value);
      }
      FirstPublishInjective(p, q);
    }
  }
}
