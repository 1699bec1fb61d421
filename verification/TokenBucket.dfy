// services/metadata/server/guardrails.go: the per-user rate limiter, over exact
// reals. Time is in seconds; the cache may forget a user's bucket at any moment.
module TokenBucket {
  import opened Common

  datatype Limits = Limits(rps: real, burst: nat)

  predicate Sane(l: Limits) {
    l.rps >= 0.0
  }

  datatype Bucket = Bucket(tokens: real, at: real)

  // limiterFor starts a new bucket full.
  function Full(l: Limits, now: real): Bucket {
    Bucket(l.burst as real, now)
  }

  function Least(a: real, b: real): real {
    if a > b then b else a
  }

  // What flows in over so many seconds.
  function Gained(l: Limits, seconds: real): real {
    seconds * l.rps
  }

  lemma GainedGrows(l: Limits, seconds: real)
    requires Sane(l) && seconds >= 0.0
    ensures Gained(l, seconds) >= 0.0
  {
  }

  lemma GainedAddsUp(l: Limits, a: real, b: real)
    ensures Gained(l, a) + Gained(l, b) == Gained(l, a + b)
  {
  }

  // The bucket after the refill of a call.
  function Refilled(b: Bucket, l: Limits, now: real): Bucket {
    Bucket(Least(b.tokens + Gained(l, now - b.at), l.burst as real), now)
  }

  predicate Admits(b: Bucket, l: Limits, now: real) {
    Refilled(b, l, now).tokens >= 1.0
  }

  function Charged(b: Bucket, l: Limits, now: real): Bucket {
    var r := Refilled(b, l, now);
    if r.tokens < 1.0 then r else r.(tokens := r.tokens - 1.0)
  }

  class TokenBucket {
    var tokens: real
    var at: real

    constructor (l: Limits, now: real)
      ensures View() == Full(l, now)
    {
      tokens := l.burst as real;
      at := now;
    }

    ghost function View(): Bucket
      reads this
    {
      Bucket(tokens, at)
    }

    method Allow(l: Limits, now: real) returns (ok: bool)
      modifies this
      ensures ok <==> Admits(old(View()), l, now)
      ensures View() == Charged(old(View()), l, now)
    {
      hide Gained;
      tokens := tokens + Gained(l, now - at);
      if tokens > l.burst as real {
        tokens := l.burst as real;
      }
      at := now;
      if tokens < 1.0 {
        return false;
      }
      tokens := tokens - 1.0;
      return true;
    }
  }

  // ---------------------------------------------------------------- runs

  // What happens to one user's limiter.
  datatype Event = Call(now: real) | Forget

  function Before(state: Option<Bucket>, l: Limits, now: real): Bucket {
    match state
    case Some(b) => b
    case None => Full(l, now)
  }

  function Step(state: Option<Bucket>, l: Limits, e: Event): Option<Bucket> {
    match e
    case Call(now) => Some(Charged(Before(state, l, now), l, now))
    case Forget => None
  }

  function State(state: Option<Bucket>, l: Limits, events: seq<Event>): Option<Bucket> {
    if events == [] then state
    else Step(State(state, l, events[..|events| - 1]), l, events[|events| - 1])
  }

  // How many of the calls were let through.
  function Admitted(state: Option<Bucket>, l: Limits, events: seq<Event>): nat {
    if events == [] then 0
    else
      var front, e := events[..|events| - 1], events[|events| - 1];
      Admitted(state, l, front) +
      (if e.Call? && Admits(Before(State(state, l, front), l, e.now), l, e.now) then 1 else 0)
  }

  function Forgets(events: seq<Event>): nat {
    if events == [] then 0
    else Forgets(events[..|events| - 1]) + (if events[|events| - 1].Forget? then 1 else 0)
  }

  // Calls come at nondecreasing times within [from, to].
  ghost predicate During(events: seq<Event>, from: real, to: real) {
    && (forall i :: 0 <= i < |events| && events[i].Call? ==> from <= events[i].now <= to)
    && (forall i, j :: 0 <= i < j < |events| && events[i].Call? && events[j].Call? ==> events[i].now <= events[j].now)
  }

  ghost predicate BucketOk(state: Option<Bucket>, l: Limits, now: real) {
    state.Some? ==> 0.0 <= state.value.tokens <= l.burst as real && state.value.at <= now
  }

  lemma DuringPrefix(events: seq<Event>, from: real, to: real)
    requires events != [] && During(events, from, to)
    ensures During(events[..|events| - 1], from, if events[|events| - 1].Call? then events[|events| - 1].now else to)
  {
  }

  lemma ChargedIsOk(b: Bucket, l: Limits, now: real)
    requires Sane(l) && 0.0 <= b.tokens <= l.burst as real && b.at <= now
    ensures 0.0 <= Charged(b, l, now).tokens <= l.burst as real
    ensures Admits(b, l, now) ==> Charged(b, l, now).tokens + 1.0 == Refilled(b, l, now).tokens
    ensures !Admits(b, l, now) ==> Charged(b, l, now) == Refilled(b, l, now)
    ensures b.tokens <= Refilled(b, l, now).tokens <= b.tokens + Gained(l, now - b.at)
  {
    hide Gained;
    GainedGrows(l, now - b.at);
  }

  // Tokens never leave the range from zero to the burst.
  lemma {:induction false} TokensStayInRange(state: Option<Bucket>, l: Limits, events: seq<Event>, from: real, to: real)
    requires Sane(l) && from <= to && BucketOk(state, l, from) && During(events, from, to)
    ensures BucketOk(State(state, l, events), l, to)
    decreases |events|
  {
    if events != [] {
      var front, e := events[..|events| - 1], events[|events| - 1];
      DuringPrefix(events, from, to);
      if e.Call? {
        TokensStayInRange(state, l, front, from, e.now);
        ChargedIsOk(Before(State(state, l, front), l, e.now), l, e.now);
      }
    }
  }

  function Bursts(l: Limits, n: nat): real {
    n as real * l.burst as real
  }

  lemma OneMoreBurst(l: Limits, n: nat)
    ensures Bursts(l, n + 1) == Bursts(l, n) + l.burst as real
  {
  }

  // What was let through plus what is left, once the window's first refill has
  // capped the bucket, is bounded by what the window can have supplied.
  ghost predicate Budget(l: Limits, admitted: nat, state: Option<Bucket>, forgets: nat, from: real, to: real) {
    match state
    case None => admitted as real <= Bursts(l, forgets) + Gained(l, to - from)
    case Some(b) => admitted as real + b.tokens <= Bursts(l, forgets + 1) + Gained(l, b.at - from)
  }

  lemma WindowStep(l: Limits, admitted: nat, state: Option<Bucket>, forgets: nat, from: real, now: real)
    requires Sane(l) && from <= now && BucketOk(state, l, now)
    requires state.Some? ==> from <= state.value.at
    requires Budget(l, admitted, state, forgets, from, now)
    ensures var b := Before(state, l, now);
      Budget(l, admitted + (if Admits(b, l, now) then 1 else 0), Some(Charged(b, l, now)), forgets, from, now)
  {
    hide Gained, Bursts;
    var b := Before(state, l, now);
    ChargedIsOk(b, l, now);
    OneMoreBurst(l, forgets);
    if state.Some? {
      GainedAddsUp(l, b.at - from, now - b.at);
    } else {
      GainedGrows(l, now - from);
    }
  }

  lemma ForgetStep(l: Limits, admitted: nat, state: Option<Bucket>, forgets: nat, from: real, now: real)
    requires Sane(l) && from <= now && BucketOk(state, l, now)
    requires Budget(l, admitted, state, forgets, from, now)
    ensures Budget(l, admitted, None, forgets + 1, from, now)
  {
    hide Gained, Bursts;
    OneMoreBurst(l, forgets);
    if state.Some? {
      GainedAddsUp(l, state.value.at - from, now - state.value.at);
      GainedGrows(l, now - state.value.at);
    }
  }

  lemma TimePasses(l: Limits, admitted: nat, state: Option<Bucket>, forgets: nat, from: real, now: real, later: real)
    requires Sane(l) && from <= now <= later && Budget(l, admitted, state, forgets, from, now)
    ensures Budget(l, admitted, state, forgets, from, later)
  {
    hide Gained, Bursts;
    GainedAddsUp(l, now - from, later - now);
    GainedGrows(l, later - now);
  }

  // From a bucket as of the start of the window.
  lemma {:induction false} WindowBudget(state: Option<Bucket>, l: Limits, events: seq<Event>, from: real, to: real)
    requires Sane(l) && from <= to && BucketOk(state, l, from) && (state.Some? ==> state.value.at == from)
    requires During(events, from, to)
    ensures Budget(l, Admitted(state, l, events), State(state, l, events), Forgets(events), from, to)
    ensures BucketOk(State(state, l, events), l, to)
    ensures State(state, l, events).Some? ==> from <= State(state, l, events).value.at
    decreases |events|
  {
    hide Budget, During, Charged, Admits;
    if events == [] {
      StartBudget(state, l, from, to);
    } else {
      var front, e := events[..|events| - 1], events[|events| - 1];
      DuringPrefix(events, from, to);
      TokensStayInRange(state, l, events, from, to);
      match e
      case Call(now) =>
        CallIsDuring(events, from, to);
        WindowBudget(state, l, front, from, now);
        WindowStep(l, Admitted(state, l, front), State(state, l, front), Forgets(front), from, now);
        ChargedAt(Before(State(state, l, front), l, now), l, now);
        TimePasses(l, Admitted(state, l, events), State(state, l, events), Forgets(events), from, now, to);
      case Forget =>
        WindowBudget(state, l, front, from, to);
        ForgetStep(l, Admitted(state, l, front), State(state, l, front), Forgets(front), from, to);
    }
  }

  lemma StartBudget(state: Option<Bucket>, l: Limits, from: real, to: real)
    requires Sane(l) && from <= to && BucketOk(state, l, from) && (state.Some? ==> state.value.at == from)
    ensures Budget(l, 0, state, 0, from, to)
  {
    hide Gained;
    GainedGrows(l, to - from);
    GainedGrows(l, 0.0);
  }

  lemma CallIsDuring(events: seq<Event>, from: real, to: real)
    requires events != [] && During(events, from, to) && events[|events| - 1].Call?
    ensures from <= events[|events| - 1].now <= to
  {
  }

  lemma ChargedAt(b: Bucket, l: Limits, now: real)
    ensures Charged(b, l, now).at == now
  {
  }

  // Refilling at the start of the window first changes nothing for its calls.
  lemma RefillTwice(b: Bucket, l: Limits, from: real, now: real)
    requires Sane(l) && b.at <= from <= now
    ensures Refilled(Refilled(b, l, from), l, now) == Refilled(b, l, now)
  {
    hide Gained;
    GainedAddsUp(l, from - b.at, now - from);
    GainedGrows(l, now - from);
  }

  lemma {:induction false} SettlingIsHarmless(b: Bucket, l: Limits, events: seq<Event>, from: real, to: real)
    requires Sane(l) && b.at <= from <= to && During(events, from, to)
    ensures var settled := Refilled(b, l, from);
      && Admitted(Some(b), l, events) == Admitted(Some(settled), l, events)
      && (State(Some(b), l, events) == State(Some(settled), l, events)
          || (State(Some(b), l, events) == Some(b) && State(Some(settled), l, events) == Some(settled)))
    decreases |events|
  {
    if events != [] {
      var front, e := events[..|events| - 1], events[|events| - 1];
      DuringPrefix(events, from, to);
      if e.Call? {
        SettlingIsHarmless(b, l, front, from, e.now);
        RefillTwice(b, l, from, e.now);
      } else {
        SettlingIsHarmless(b, l, front, from, to);
      }
    }
  }

  lemma RefilledIsOk(b: Bucket, l: Limits, now: real)
    requires Sane(l) && BucketOk(Some(b), l, now)
    ensures BucketOk(Some(Refilled(b, l, now)), l, now) && Refilled(b, l, now).at == now
  {
    ChargedIsOk(b, l, now);
  }

  // However the calls of a window [from, to] are spaced, at most
  // burst + rps * (to - from) are let through by one bucket; each time the cache
  // forgets the bucket, another burst comes on top.
  lemma WindowIsBounded(state: Option<Bucket>, l: Limits, events: seq<Event>, from: real, to: real)
    requires Sane(l) && from <= to && BucketOk(state, l, from) && During(events, from, to)
    ensures Admitted(state, l, events) as real <= Bursts(l, Forgets(events) + 1) + Gained(l, to - from)
  {
    hide During, Budget, Charged, Refilled;
    var start := match state case Some(b) => Some(Refilled(b, l, from)) case None => None;
    if state.Some? {
      SettlingIsHarmless(state.value, l, events, from, to);
      RefilledIsOk(state.value, l, from);
    }
    WindowBudget(start, l, events, from, to);
    SpentAtMost(l, Admitted(start, l, events), State(start, l, events), Forgets(events), from, to);
  }

  lemma SpentAtMost(l: Limits, admitted: nat, state: Option<Bucket>, forgets: nat, from: real, to: real)
    requires Sane(l) && from <= to && BucketOk(state, l, to) && Budget(l, admitted, state, forgets, from, to)
    ensures admitted as real <= Bursts(l, forgets + 1) + Gained(l, to - from)
  {
    hide Gained, Bursts;
    OneMoreBurst(l, forgets);
    if state.Some? {
      GainedAddsUp(l, state.value.at - from, to - state.value.at);
      GainedGrows(l, to - state.value.at);
    }
  }

  // A user who has waited for one token is let through.
  lemma WaitingIsEnough(b: Bucket, l: Limits, now: real)
    requires l.rps > 0.0 && l.burst >= 1 && 0.0 <= b.tokens && Gained(l, now - b.at) >= 1.0
    ensures Admits(b, l, now)
  {
    hide Gained;
    assert l.burst as real >= 1.0;
  }

  // n calls at the same moment.
  function Together(n: nat, now: real): seq<Event> {
    seq(n, _ => Call(now))
  }

  // A user without a bucket, new or forgotten, has the whole burst at once and not
  // one call more.
  lemma {:induction false} NewUserHasTheBurst(l: Limits, n: nat, now: real)
    ensures Admitted(None, l, Together(n, now)) == Min(n, l.burst)
    ensures n > 0 ==> State(None, l, Together(n, now)) == Some(Bucket((l.burst - Min(n, l.burst)) as real, now))
    ensures n == 0 ==> State(None, l, Together(n, now)) == None
  {
    if n > 0 {
      var events := Together(n, now);
      assert events[..n - 1] == Together(n - 1, now) && events[n - 1] == Call(now);
      NewUserHasTheBurst(l, n - 1, now);
      NothingGained(l);
      var b := Before(State(None, l, Together(n - 1, now)), l, now);
      assert b == Bucket((l.burst - Min(n - 1, l.burst)) as real, now);
    }
  }

  lemma NothingGained(l: Limits)
    ensures Gained(l, 0.0) == 0.0
  {
  }

  // ---------------------------------------------------------------- limiter

  class RateLimiter {
    const limits: Limits
    var cache: map<string, TokenBucket>

    constructor (limits: Limits)
      ensures this.limits == limits && cache == map[] && Valid()
    {
      this.limits := limits;
      cache := map[];
    }

    // Users do not share buckets.
    ghost predicate Valid()
      reads this
    {
      forall u, v :: u in cache && v in cache && u != v ==> cache[u] != cache[v]
    }

    ghost function StateOf(user: string): Option<Bucket>
      reads this, cache.Values
    {
      if user in cache then Some(cache[user].View()) else None
    }

    // The user's bucket takes one step, and nobody else's changes.
    method Allow(user: string, now: real) returns (ok: bool)
      requires Valid()
      modifies this, cache.Values
      ensures Valid()
      ensures ok <==> Admits(Before(old(StateOf(user)), limits, now), limits, now)
      ensures StateOf(user) == Step(old(StateOf(user)), limits, Call(now))
      ensures forall v :: v != user ==> StateOf(v) == old(StateOf(v))
    {
      if user !in cache {
        var full := new TokenBucket(limits, now);
        cache := cache[user := full];
      }
      ok := cache[user].Allow(limits, now);
    }

    // The cache drops an entry.
    method Evict(user: string)
      requires Valid()
      modifies this
      ensures Valid()
      ensures StateOf(user) == Step(old(StateOf(user)), limits, Forget)
      ensures forall v :: v != user ==> StateOf(v) == old(StateOf(v))
    {
      cache := cache - {user};
    }
  }
}
