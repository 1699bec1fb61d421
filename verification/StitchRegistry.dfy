// services/metadata/internal/repository/stitch_repo.go: the registry of
// consolidated objects, and the work index that has to mirror it. Every operation
// is a list of single writes, and may stop after any of them.
module StitchRegistry {
  import opened Common

  type FileId = string

  datatype State = Pending | Stitching | Ready | Failed | Skipped

  datatype Row = Row(state: State, attempts: nat, claimedAt: int, objectKey: string)

  type Entry = (State, FileId)

  // stitched_objects and stitched_objects_by_state
  datatype Tables = Tables(rows: map<FileId, Row>, index: set<Entry>)

  const INDEXED := [Pending, Stitching, Failed]

  // indexedStitchState
  predicate Indexed(s: State) {
    s.Pending? || s.Stitching? || s.Failed?
  }

  // ---------------------------------------------------------------- operations

  datatype Write = PutRow(id: FileId, row: Row) | DropRow(id: FileId) | PutEntry(entry: Entry) | DropEntry(entry: Entry)

  function Perform(t: Tables, w: Write): Tables {
    match w
    case PutRow(id, row) => t.(rows := t.rows[id := row])
    case DropRow(id) => t.(rows := t.rows - {id})
    case PutEntry(entry) => t.(index := t.index + {entry})
    case DropEntry(entry) => t.(index := t.index - {entry})
  }

  function PerformAll(t: Tables, ws: seq<Write>): Tables
    decreases |ws|
  {
    if ws == [] then t else PerformAll(Perform(t, ws[0]), ws[1..])
  }

  datatype Op =
    | Enqueue(now: int)
    | Claim(staleAfter: int, now: int)
    | MarkReady(objectKey: string)
    | MarkFailed
    | MarkSkipped
    | Reset(now: int)
    | Delete

  // indexSet
  function IndexWrites(id: FileId, from: Option<State>, to: State): seq<Write> {
    (if from.Some? && from.value != to then [DropEntry((from.value, id))] else []) +
    (if Indexed(to) && from != Some(to) then [PutEntry((to, id))] else [])
  }

  // ClaimForStitch takes the row.
  predicate Claimable(row: Row, staleAfter: int, now: int) {
    || row.state.Pending?
    || row.state.Failed?
    || (row.state.Stitching? && row.claimedAt + staleAfter <= now)
  }

  // The row an operation on an existing row writes; None when it writes none.
  function NewRow(row: Row, op: Op): Option<Row> {
    match op
    case Enqueue(_) => None
    case Claim(staleAfter, now) =>
      if Claimable(row, staleAfter, now) then Some(row.(state := Stitching, attempts := row.attempts + 1, claimedAt := now))
      else None
    case MarkReady(objectKey) => Some(row.(state := Ready, objectKey := objectKey, attempts := row.attempts + 1))
    case MarkFailed => Some(row.(state := Failed))
    case MarkSkipped => if row.state.Ready? then None else Some(row.(state := Skipped))
    case Reset(now) => Some(row.(state := Stitching, claimedAt := now))
    case Delete => None
  }

  function Clears(id: FileId): seq<Write> {
    [DropEntry((Pending, id)), DropEntry((Stitching, id)), DropEntry((Failed, id))]
  }

  // The writes an operation issues, in order, given what it reads.
  function Plan(t: Tables, id: FileId, op: Op): seq<Write> {
    if op.Delete? then [DropRow(id)] + Clears(id)
    else if id in t.rows then
      if op.Enqueue? then IndexWrites(id, None, t.rows[id].state)
      else
        match NewRow(t.rows[id], op)
        case None => []
        case Some(row) => [PutRow(id, row)] + IndexWrites(id, Some(t.rows[id].state), row.state)
    else if op.Enqueue? then IndexWrites(id, None, Pending) + [PutRow(id, Row(Pending, 0, op.now, ""))]
    else if op.Claim? then IndexWrites(id, None, Stitching) + [PutRow(id, Row(Stitching, 1, op.now, ""))]
    else []
  }

  // ---------------------------------------------------------------- the mirror

  // The entries of one file are exactly those of its row.
  ghost predicate ExactFor(t: Tables, id: FileId) {
    forall s: State :: (s, id) in t.index <==> id in t.rows && t.rows[id].state == s && Indexed(s)
  }

  // The work index holds exactly the (state, file) pairs of actionable rows.
  ghost predicate Exact(t: Tables) {
    forall id: FileId :: ExactFor(t, id)
  }

  // Writes about one file leave every other file alone.
  ghost predicate Only(t: Tables, v: Tables, id: FileId) {
    && (forall k: FileId :: k != id ==> (k in v.rows <==> k in t.rows) && (k in t.rows ==> v.rows[k] == t.rows[k]))
    && (forall k: FileId, s: State :: k != id ==> ((s, k) in v.index <==> (s, k) in t.index))
  }

  predicate About(w: Write, id: FileId) {
    match w
    case PutRow(k, _) => k == id
    case DropRow(k) => k == id
    case PutEntry(entry) => entry.1 == id
    case DropEntry(entry) => entry.1 == id
  }

  lemma {:induction false} WritesStayLocal(t: Tables, ws: seq<Write>, id: FileId)
    requires forall w :: w in ws ==> About(w, id)
    ensures Only(t, PerformAll(t, ws), id)
    decreases |ws|
  {
    if ws != [] {
      assert About(ws[0], id);
      WritesStayLocal(Perform(t, ws[0]), ws[1..], id);
    }
  }

  lemma PlanIsLocal(t: Tables, id: FileId, op: Op)
    ensures forall w :: w in Plan(t, id, op) ==> About(w, id)
  {
  }

  // A completed operation makes its own file exact if it was, and touches no other.
  lemma CompletedOpKeepsExact(t: Tables, id: FileId, op: Op)
    requires Exact(t)
    ensures Exact(PerformAll(t, Plan(t, id, op)))
  {
    var v := PerformAll(t, Plan(t, id, op));
    PlanIsLocal(t, id, op);
    WritesStayLocal(t, Plan(t, id, op), id);
    assert ExactFor(t, id);
    OwnFileIsExact(t, id, op);
    forall k: FileId ensures ExactFor(v, k) {
      assert ExactFor(t, k);
    }
  }

  lemma {:induction false} PerformJoined(t: Tables, xs: seq<Write>, ys: seq<Write>)
    ensures PerformAll(t, xs + ys) == PerformAll(PerformAll(t, xs), ys)
    decreases |xs|
  {
    if xs == [] {
      assert xs + ys == ys;
    } else {
      assert (xs + ys)[1..] == xs[1..] + ys;
      PerformJoined(Perform(t, xs[0]), xs[1..], ys);
    }
  }

  // indexSet retires one entry and publishes another.
  lemma IndexWritesEffect(t: Tables, id: FileId, from: Option<State>, to: State)
    ensures var v := PerformAll(t, IndexWrites(id, from, to));
      && v.rows == t.rows
      && v.index == (if from.Some? && from.value != to then t.index - {(from.value, id)} else t.index)
                    + (if Indexed(to) && from != Some(to) then {(to, id)} else {})
  {
    var drop := if from.Some? && from.value != to then [DropEntry((from.value, id))] else [];
    var put := if Indexed(to) && from != Some(to) then [PutEntry((to, id))] else [];
    PerformJoined(t, drop, put);
  }

  lemma ClearsEffect(t: Tables, id: FileId)
    ensures PerformAll(t, Clears(id)) == t.(index := t.index - {(Pending, id), (Stitching, id), (Failed, id)})
  {
    hide Perform;
    var a, b, c := DropEntry((Pending, id)), DropEntry((Stitching, id)), DropEntry((Failed, id));
    TwoWrites(t, a, b);
    PerformJoined(t, [a, b], [c]);
    OneWrite(PerformAll(t, [a, b]), c);
    assert Clears(id) == [a, b] + [c];
    ThreeDrops(t, a.entry, b.entry, c.entry);
  }

  lemma ThreeDrops(t: Tables, a: Entry, b: Entry, c: Entry)
    ensures Perform(Perform(Perform(t, DropEntry(a)), DropEntry(b)), DropEntry(c)) == t.(index := t.index - {a, b, c})
  {
  }

  lemma OneWrite(t: Tables, w: Write)
    ensures PerformAll(t, [w]) == Perform(t, w)
  {
  }

  lemma TwoWrites(t: Tables, a: Write, b: Write)
    ensures PerformAll(t, [a, b]) == Perform(Perform(t, a), b)
  {
    PerformJoined(t, [a], [b]);
    OneWrite(t, a);
    OneWrite(PerformAll(t, [a]), b);
    assert [a] + [b] == [a, b];
  }

  // What a whole operation leaves behind.
  lemma PlanEffect(t: Tables, id: FileId, op: Op)
    ensures var v := PerformAll(t, Plan(t, id, op));
      if op.Delete? then
        v == Tables(t.rows - {id}, t.index - {(Pending, id), (Stitching, id), (Failed, id)})
      else if id in t.rows then
        var from := t.rows[id].state;
        if op.Enqueue? then v == t.(index := if Indexed(from) then t.index + {(from, id)} else t.index)
        else
          match NewRow(t.rows[id], op)
          case None => v == t
          case Some(row) =>
            v == Tables(t.rows[id := row],
                        if row.state == from then t.index
                        else t.index - {(from, id)} + (if Indexed(row.state) then {(row.state, id)} else {}))
      else if op.Enqueue? then v == Tables(t.rows[id := Row(Pending, 0, op.now, "")], t.index + {(Pending, id)})
      else if op.Claim? then v == Tables(t.rows[id := Row(Stitching, 1, op.now, "")], t.index + {(Stitching, id)})
      else v == t
  {
    hide IndexWrites, Clears;
    if op.Delete? {
      PerformJoined(t, [DropRow(id)], Clears(id));
      ClearsEffect(t.(rows := t.rows - {id}), id);
    } else if id in t.rows {
      var from := t.rows[id].state;
      if op.Enqueue? {
        IndexWritesEffect(t, id, None, from);
      } else if NewRow(t.rows[id], op).Some? {
        var row := NewRow(t.rows[id], op).value;
        PerformJoined(t, [PutRow(id, row)], IndexWrites(id, Some(from), row.state));
        IndexWritesEffect(t.(rows := t.rows[id := row]), id, Some(from), row.state);
      }
    } else if op.Enqueue? {
      var put := PutRow(id, Row(Pending, 0, op.now, ""));
      PerformJoined(t, IndexWrites(id, None, Pending), [put]);
      IndexWritesEffect(t, id, None, Pending);
    } else if op.Claim? {
      var put := PutRow(id, Row(Stitching, 1, op.now, ""));
      PerformJoined(t, IndexWrites(id, None, Stitching), [put]);
      IndexWritesEffect(t, id, None, Stitching);
    }
  }

  lemma OwnFileIsExact(t: Tables, id: FileId, op: Op)
    requires ExactFor(t, id)
    ensures ExactFor(PerformAll(t, Plan(t, id, op)), id)
  {
    PlanEffect(t, id, op);
  }

  // ---------------------------------------------------------------- crashes

  // The sweeper finds a file through any of its entries.
  ghost predicate Visible(t: Tables, id: FileId) {
    exists s: State :: Indexed(s) && (s, id) in t.index
  }

  // An actionable row that no sweep will look at.
  ghost predicate Hidden(t: Tables, id: FileId) {
    id in t.rows && Indexed(t.rows[id].state) && !Visible(t, id)
  }

  // Whatever crashes have left behind, one completed Enqueue makes the file's
  // actionable row visible again, under its own state.
  lemma EnqueueRepairs(t: Tables, id: FileId, now: int)
    ensures var v := PerformAll(t, Plan(t, id, Enqueue(now)));
      && id in v.rows
      && (id in t.rows ==> v.rows[id] == t.rows[id])
      && (Indexed(v.rows[id].state) ==> (v.rows[id].state, id) in v.index)
      && !Hidden(v, id)
      && Only(t, v, id)
  {
    PlanEffect(t, id, Enqueue(now));
    PlanIsLocal(t, id, Enqueue(now));
    WritesStayLocal(t, Plan(t, id, Enqueue(now)), id);
  }

  // Whatever crashes have left behind, one completed Delete leaves neither row nor
  // entry, so the file is exact again.
  lemma DeleteClears(t: Tables, id: FileId)
    requires forall s: State :: (s, id) in t.index ==> Indexed(s)
    ensures var v := PerformAll(t, Plan(t, id, Delete));
      id !in v.rows && (forall s: State :: (s, id) !in v.index) && ExactFor(v, id) && Only(t, v, id)
  {
    PlanEffect(t, id, Delete);
    PlanIsLocal(t, id, Delete);
    WritesStayLocal(t, Plan(t, id, Delete), id);
  }

  // Only actionable states are ever indexed, also after crashes.
  ghost predicate IndexedOnly(t: Tables) {
    forall s: State, id: FileId :: (s, id) in t.index ==> Indexed(s)
  }

  lemma {:induction false} CrashKeepsIndexedOnly(t: Tables, ws: seq<Write>)
    requires IndexedOnly(t) && forall w :: w in ws && w.PutEntry? ==> Indexed(w.entry.0)
    ensures IndexedOnly(PerformAll(t, ws))
    decreases |ws|
  {
    if ws != [] {
      assert ws[0] in ws;
      CrashKeepsIndexedOnly(Perform(t, ws[0]), ws[1..]);
    }
  }

  // A crash after k writes of an operation that changes an existing row hides the
  // row exactly when the new state is actionable, differs from the old one, and
  // either the old entry is already gone or there never was one. The order of
  // writes protects new rows only, not re-claims, failures or resets.
  lemma CrashHidesExactlyWhen(t: Tables, id: FileId, op: Op, k: nat)
    requires Exact(t) && id in t.rows && !op.Delete? && !op.Enqueue? && NewRow(t.rows[id], op).Some?
    requires k <= |Plan(t, id, op)|
    ensures var from, to := t.rows[id].state, NewRow(t.rows[id], op).value.state;
      Hidden(PerformAll(t, Plan(t, id, op)[..k]), id)
      <==> Indexed(to) && from != to && (k == 2 || (k == 1 && !Indexed(from)))
  {
    var plan := Plan(t, id, op);
    var from, row := t.rows[id].state, NewRow(t.rows[id], op).value;
    assert ExactFor(t, id);
    if k == 0 {
      assert Indexed(from) ==> (from, id) in t.index;
    } else if k == 1 {
      OneWrite(t, PutRow(id, row));
      assert plan[..1] == [PutRow(id, row)];
      assert Indexed(from) ==> (from, id) in PerformAll(t, plan[..1]).index;
    } else if k == 2 {
      TwoWrites(t, PutRow(id, row), DropEntry((from, id)));
      assert plan[..2] == [PutRow(id, row), DropEntry((from, id))];
      assert forall s: State :: (s, id) !in PerformAll(t, plan[..2]).index;
    } else {
      assert plan[..k] == plan;
      PlanEffect(t, id, op);
      assert Indexed(row.state) ==> (row.state, id) in PerformAll(t, plan).index;
    }
  }

  // A crash inside an operation that creates the row never hides it.
  lemma CrashNeverHidesNewRow(t: Tables, id: FileId, op: Op, k: nat)
    requires Exact(t) && id !in t.rows && (op.Enqueue? || op.Claim?) && k <= |Plan(t, id, op)|
    ensures !Hidden(PerformAll(t, Plan(t, id, op)[..k]), id)
  {
    var plan := Plan(t, id, op);
    var to := if op.Enqueue? then Pending else Stitching;
    assert |plan| == 2 && plan[0] == PutEntry((to, id));
    if k == 2 {
      assert plan[..2] == plan;
      PlanEffect(t, id, op);
      assert (to, id) in PerformAll(t, plan).index;
    } else if k == 1 {
      assert plan[..1] == [PutEntry((to, id))];
    }
  }

  // An entry under a state the row no longer has is retired by nothing but Delete:
  // every other operation only retires the entry of the state it read. A crash of
  // MarkReady after its first write leaves such an entry for a finished file, and
  // it takes a slot of every sweep from then on.
  lemma StaleEntryStays(t: Tables, id: FileId, op: Op, s: State)
    requires id in t.rows && t.rows[id].state != s && (s, id) in t.index && !op.Delete?
    ensures (s, id) in PerformAll(t, Plan(t, id, op)).index
  {
    PlanEffect(t, id, op);
  }

  // ---------------------------------------------------------------- runs

  // The first n writes of a plan, or all of them.
  function Stopped(t: Tables, ws: seq<Write>, n: nat): Tables {
    PerformAll(t, ws[..Min(n, |ws|)])
  }

  // An operation on one file that stops after so many writes.
  datatype Step = Step(id: FileId, op: Op, writes: nat)

  function After(steps: seq<Step>): Tables {
    if steps == [] then Tables(map[], {})
    else
      var t, step := After(steps[..|steps| - 1]), steps[|steps| - 1];
      Stopped(t, Plan(t, step.id, step.op), step.writes)
  }

  predicate Completes(steps: seq<Step>, i: nat)
    requires i < |steps|
  {
    steps[i].writes >= |Plan(After(steps[..i]), steps[i].id, steps[i].op)|
  }

  // Over every run of completed operations the index is the exact mirror of the
  // actionable rows.
  lemma {:induction false} CompletedRunsAreExact(steps: seq<Step>)
    requires forall i :: 0 <= i < |steps| ==> Completes(steps, i)
    ensures Exact(After(steps))
  {
    if steps != [] {
      var front, step := steps[..|steps| - 1], steps[|steps| - 1];
      forall i | 0 <= i < |front| ensures Completes(front, i) {
        assert Completes(steps, i);
        assert front[..i] == steps[..i];
      }
      CompletedRunsAreExact(front);
      assert Completes(steps, |steps| - 1);
      var plan := Plan(After(front), step.id, step.op);
      assert plan[..Min(step.writes, |plan|)] == plan;
      CompletedOpKeepsExact(After(front), step.id, step.op);
    }
  }

  lemma {:induction false} RunsIndexOnlyActionable(steps: seq<Step>)
    ensures IndexedOnly(After(steps))
  {
    if steps != [] {
      var front, step := steps[..|steps| - 1], steps[|steps| - 1];
      RunsIndexOnlyActionable(front);
      var plan := Plan(After(front), step.id, step.op);
      CrashKeepsIndexedOnly(After(front), plan[..Min(step.writes, |plan|)]);
    }
  }

  // After any run with any crashes: a completed Enqueue leaves no hidden row of its
  // file, and a completed Delete leaves nothing of it.
  lemma CrashesAreRepaired(steps: seq<Step>, id: FileId, now: int)
    ensures var t := After(steps);
      && !Hidden(PerformAll(t, Plan(t, id, Enqueue(now))), id)
      && var v := PerformAll(t, Plan(t, id, Delete));
      id !in v.rows && forall s: State :: (s, id) !in v.index
  {
    RunsIndexOnlyActionable(steps);
    EnqueueRepairs(After(steps), id, now);
    DeleteClears(After(steps), id);
  }

  // ---------------------------------------------------------------- repository

  lemma StoppedJoined(t: Tables, xs: seq<Write>, ys: seq<Write>, n: nat)
    ensures Stopped(t, xs + ys, n) ==
      if n < |xs| then Stopped(t, xs, n) else Stopped(PerformAll(t, xs), ys, n - |xs|)
  {
    hide PerformAll;
    if n < |xs| {
      assert (xs + ys)[..n] == xs[..n];
    } else {
      var m := Min(n - |xs|, |ys|);
      assert (xs + ys)[..|xs| + m] == xs + ys[..m];
      PerformJoined(t, xs, ys[..m]);
    }
  }

  lemma StoppedOne(t: Tables, w: Write, n: nat)
    ensures Stopped(t, [w], n) == if n == 0 then t else Perform(t, w)
  {
    if n > 0 {
      assert [w][..1] == [w];
      OneWrite(t, w);
    }
  }

  lemma NoWrites(t: Tables)
    ensures Stopped(t, [], 0) == t
  {
  }

  lemma AllOfIt(t: Tables, ws: seq<Write>, n: nat)
    requires n >= |ws|
    ensures Stopped(t, ws, n) == PerformAll(t, ws)
  {
    assert ws[..|ws|] == ws;
  }

  lemma StoppedPrefix(t: Tables, ws: seq<Write>, k: nat, n: nat)
    requires k <= |ws|
    ensures n <= k ==> Stopped(t, ws, n) == Stopped(t, ws[..k], n)
  {
    if n <= k {
      assert ws[..k][..n] == ws[..n];
    }
  }

  // The files the index lists under one state.
  function Partition(index: set<Entry>, s: State): set<FileId> {
    set entry | entry in index && entry.0 == s :: entry.1
  }

  lemma PartitionShrinks(small: set<Entry>, big: set<Entry>, s: State)
    requires small <= big
    ensures |Partition(small, s)| <= |Partition(big, s)|
  {
    SubsetSize(Partition(small, s), Partition(big, s));
  }

  // How many entries the first n partitions of the index have.
  function Entries(index: set<Entry>, n: nat): nat
    requires n <= |INDEXED|
  {
    if n == 0 then 0 else Entries(index, n - 1) + |Partition(index, INDEXED[n - 1])|
  }

  lemma EntriesGrow(index: set<Entry>, n: nat)
    requires n < |INDEXED|
    ensures Entries(index, n) + |Partition(index, INDEXED[n])| == Entries(index, n + 1) <= Entries(index, |INDEXED|)
  {
    assert Entries(index, 3) == Entries(index, 2) + |Partition(index, INDEXED[2])|;
    assert Entries(index, 2) == Entries(index, 1) + |Partition(index, INDEXED[1])|;
  }

  lemma NothingFollows(index: set<Entry>, n: nat)
    requires n < |INDEXED| && Entries(index, |INDEXED|) <= Entries(index, n)
    ensures forall k, id :: n <= k < |INDEXED| ==> (INDEXED[k], id) !in index
  {
    EntriesGrow(index, n);
    forall k | n <= k < |INDEXED| ensures Partition(index, INDEXED[k]) == {} {
      assert Entries(index, 3) == Entries(index, 2) + |Partition(index, INDEXED[2])|;
      assert Entries(index, 2) == Entries(index, 1) + |Partition(index, INDEXED[1])|;
    }
    forall k, id | n <= k < |INDEXED| ensures (INDEXED[k], id) !in index {
      assert id !in Partition(index, INDEXED[k]);
    }
  }

  lemma NoEntries(index: set<Entry>)
    ensures Entries(index, 0) == 0
  {
  }

  // A record of a work list: an unfinished row found through the index.
  ghost predicate Found(t: Tables, r: (FileId, Row)) {
    r.0 in t.rows && r.1 == t.rows[r.0] && !r.1.state.Ready? && Visible(t, r.0)
  }

  ghost predicate Gathered(t: Tables, records: seq<(FileId, Row)>, s: State) {
    forall id :: (s, id) in t.index && id in t.rows && !t.rows[id].state.Ready? ==> (id, t.rows[id]) in records
  }

  lemma FoundIn(t: Tables, before: seq<(FileId, Row)>, records: seq<(FileId, Row)>, s: State)
    requires Indexed(s) && forall r :: r in before ==> Found(t, r)
    requires forall r :: r in records && r !in before ==>
      r.0 in t.rows && r.1 == t.rows[r.0] && !r.1.state.Ready? && (s, r.0) in t.index
    ensures forall r :: r in records ==> Found(t, r)
  {
  }

  lemma GatheredStays(t: Tables, before: seq<(FileId, Row)>, records: seq<(FileId, Row)>, states: seq<State>)
    requires before <= records
    ensures forall s :: s in states && Gathered(t, before, s) ==> Gathered(t, records, s)
  {
  }

  lemma AllGathered(t: Tables, records: seq<(FileId, Row)>)
    requires forall k :: 0 <= k < |INDEXED| ==> Gathered(t, records, INDEXED[k])
    ensures forall id :: id in t.rows && !t.rows[id].state.Ready? && Visible(t, id) ==> (id, t.rows[id]) in records
  {
    forall id | id in t.rows && !t.rows[id].state.Ready? && Visible(t, id) ensures (id, t.rows[id]) in records {
      var s: State :| Indexed(s) && (s, id) in t.index;
      IndexedStates(s);
    }
  }

  lemma IndexedStates(s: State)
    requires Indexed(s)
    ensures exists k :: 0 <= k < |INDEXED| && INDEXED[k] == s
  {
    assert INDEXED[0] == Pending && INDEXED[1] == Stitching && INDEXED[2] == Failed;
  }

  // The database performs `answered` more writes, then fails.
  class StitchRepo {
    var rows: map<FileId, Row>
    var index: set<Entry>
    var answered: nat

    constructor (answered: nat)
      ensures View() == Tables(map[], {}) && this.answered == answered
    {
      rows := map[];
      index := {};
      this.answered := answered;
    }

    ghost function View(): Tables
      reads this
    {
      Tables(rows, index)
    }

    // What a method that issues these writes leaves behind.
    twostate predicate Issued(ws: seq<Write>, ok: bool)
      reads this
    {
      && View() == Stopped(old(View()), ws, old(answered))
      && (ok <==> old(answered) >= |ws|)
      && answered == Max(old(answered) - |ws|, 0)
    }

    method Issue(w: Write) returns (ok: bool)
      modifies this
      ensures Issued([w], ok)
      ensures !ok ==> rows == old(rows) && index == old(index)
      ensures ok && w.PutRow? ==> rows == old(rows)[w.id := w.row] && index == old(index)
      ensures ok && w.DropRow? ==> rows == old(rows) - {w.id} && index == old(index)
      ensures ok && w.PutEntry? ==> rows == old(rows) && index == old(index) + {w.entry}
      ensures ok && w.DropEntry? ==> rows == old(rows) && index == old(index) - {w.entry}
    {
      StoppedOne(View(), w, answered);
      ok := answered > 0;
      if ok {
        answered := answered - 1;
        match w
        case PutRow(id, row) => rows := rows[id := row];
        case DropRow(id) => rows := rows - {id};
        case PutEntry(entry) => index := index + {entry};
        case DropEntry(entry) => index := index - {entry};
      }
    }

    method IndexSet(id: FileId, from: Option<State>, to: State) returns (ok: bool)
      modifies this
      ensures Issued(IndexWrites(id, from, to), ok)
      ensures rows == old(rows)
    {
      ok := true;
      StoppedJoined(View(), if from.Some? && from.value != to then [DropEntry((from.value, id))] else [],
                    if Indexed(to) && from != Some(to) then [PutEntry((to, id))] else [], answered);
      if from.Some? && from.value != to {
        StoppedOne(View(), DropEntry((from.value, id)), answered);
        ok := Issue(DropEntry((from.value, id)));
        if !ok {
          return;
        }
      }
      if !Indexed(to) || from == Some(to) {
        return;
      }
      ok := Issue(PutEntry((to, id)));
    }

    // One write of the row, then the index.
    method PutRowThenIndex(id: FileId, row: Row, from: State) returns (ok: bool)
      modifies this
      ensures Issued([PutRow(id, row)] + IndexWrites(id, Some(from), row.state), ok)
      ensures rows == old(rows)[id := row] || (!ok && rows == old(rows))
    {
      hide PerformAll, IndexWrites;
      StoppedJoined(View(), [PutRow(id, row)], IndexWrites(id, Some(from), row.state), answered);
      StoppedOne(View(), PutRow(id, row), answered);
      OneWrite(View(), PutRow(id, row));
      ok := Issue(PutRow(id, row));
      if ok {
        ok := IndexSet(id, Some(from), row.state);
      }
    }

    // The index first, then a new row.
    method IndexThenPutRow(id: FileId, row: Row) returns (ok: bool)
      modifies this
      ensures Issued(IndexWrites(id, None, row.state) + [PutRow(id, row)], ok)
      ensures rows == if ok then old(rows)[id := row] else old(rows)
    {
      hide PerformAll, IndexWrites;
      StoppedJoined(View(), IndexWrites(id, None, row.state), [PutRow(id, row)], answered);
      if answered >= |IndexWrites(id, None, row.state)| {
        AllOfIt(View(), IndexWrites(id, None, row.state), answered);
      }
      ok := IndexSet(id, None, row.state);
      if ok {
        ok := Issue(PutRow(id, row));
      }
    }

    method Enqueue(id: FileId, now: int) returns (ok: bool)
      modifies this
      ensures Issued(Plan(old(View()), id, Op.Enqueue(now)), ok)
      ensures ok ==> rows == if id in old(rows) then old(rows) else old(rows)[id := Row(Pending, 0, now, "")]
    {
      if id in rows {
        ok := IndexSet(id, None, rows[id].state);
      } else {
        ok := IndexThenPutRow(id, Row(Pending, 0, now, ""));
      }
    }

    method ClaimForStitch(id: FileId, staleAfter: int, now: int) returns (ok: bool, claimed: bool)
      modifies this
      ensures Issued(Plan(old(View()), id, Claim(staleAfter, now)), ok)
      ensures claimed <==> ok && (id !in old(rows) || Claimable(old(rows)[id], staleAfter, now))
      ensures claimed ==> rows == old(rows)[id :=
        if id !in old(rows) then Row(Stitching, 1, now, "")
        else Row(Stitching, old(rows)[id].attempts + 1, now, old(rows)[id].objectKey)]
      ensures ok && !claimed ==>
        && rows == old(rows) && id in rows
        && (rows[id].state.Ready? || rows[id].state.Skipped? || (rows[id].state.Stitching? && now < rows[id].claimedAt + staleAfter))
    {
      claimed := false;
      if id !in rows {
        ok := IndexThenPutRow(id, Row(Stitching, 1, now, ""));
        claimed := ok;
        return;
      }
      var current := rows[id];
      if current.state.Ready? || current.state.Skipped? || (current.state.Stitching? && current.claimedAt + staleAfter > now) {
        NoWrites(View());
        return true, false;
      }
      ok := PutRowThenIndex(id, current.(state := Stitching, attempts := current.attempts + 1, claimedAt := now), current.state);
      claimed := ok;
    }

    // False also when the row is gone: the file was purged mid-stitch.
    method MarkReady(id: FileId, objectKey: string) returns (ok: bool)
      modifies this
      ensures id in old(rows) ==> Issued(Plan(old(View()), id, Op.MarkReady(objectKey)), ok)
      ensures id !in old(rows) ==> !ok && View() == old(View()) && answered == old(answered)
      ensures ok ==> rows == old(rows)[id := Row(Ready, old(rows)[id].attempts + 1, old(rows)[id].claimedAt, objectKey)]
    {
      if id !in rows {
        return false;
      }
      var current := rows[id];
      ok := PutRowThenIndex(id, current.(state := Ready, objectKey := objectKey, attempts := current.attempts + 1), current.state);
    }

    method MarkFailed(id: FileId) returns (ok: bool)
      modifies this
      ensures id in old(rows) ==> Issued(Plan(old(View()), id, Op.MarkFailed), ok)
      ensures id !in old(rows) ==> !ok && View() == old(View()) && answered == old(answered)
      ensures ok ==> rows == old(rows)[id := old(rows)[id].(state := Failed)]
    {
      if id !in rows {
        return false;
      }
      var current := rows[id];
      ok := PutRowThenIndex(id, current.(state := Failed), current.state);
    }

    // A row that is gone or already ready needs no parking.
    method MarkSkipped(id: FileId) returns (ok: bool)
      modifies this
      ensures Issued(Plan(old(View()), id, Op.MarkSkipped), ok)
      ensures ok && (id !in old(rows) || old(rows)[id].state.Ready?) ==> rows == old(rows)
      ensures ok && id in old(rows) && !old(rows)[id].state.Ready? ==> rows == old(rows)[id := old(rows)[id].(state := Skipped)]
    {
      if id !in rows || rows[id].state.Ready? {
        NoWrites(View());
        return true;
      }
      var current := rows[id];
      ok := PutRowThenIndex(id, current.(state := Skipped), current.state);
    }

    method MarkStitchingReset(id: FileId, now: int) returns (ok: bool)
      modifies this
      ensures id in old(rows) ==> Issued(Plan(old(View()), id, Reset(now)), ok)
      ensures id !in old(rows) ==> !ok && View() == old(View()) && answered == old(answered)
      ensures ok ==> rows == old(rows)[id := old(rows)[id].(state := Stitching, claimedAt := now)]
    {
      if id !in rows {
        return false;
      }
      var current := rows[id];
      ok := PutRowThenIndex(id, current.(state := Stitching, claimedAt := now), current.state);
    }

    method Delete(id: FileId) returns (ok: bool)
      modifies this
      ensures Issued(Plan(old(View()), id, Op.Delete), ok)
      ensures ok ==> rows == old(rows) - {id} && forall s: State :: Indexed(s) ==> (s, id) !in index
    {
      hide PerformAll, Perform;
      ghost var t, n := View(), answered;
      ghost var plan := [DropRow(id)] + Clears(id);
      StoppedOne(t, DropRow(id), n);
      StoppedPrefix(t, plan, 1, n);
      ok := Issue(DropRow(id));
      if !ok {
        return;
      }
      for i := 0 to |INDEXED|
        invariant Issued(plan[..i + 1], true)
        invariant rows == old(rows) - {id} && forall k :: 0 <= k < i ==> (INDEXED[k], id) !in index
      {
        var entry := (INDEXED[i], id);
        assert plan[..i + 2] == plan[..i + 1] + [DropEntry(entry)];
        StoppedJoined(t, plan[..i + 1], [DropEntry(entry)], n);
        AllOfIt(t, plan[..i + 1], n);
        StoppedOne(View(), DropEntry(entry), answered);
        StoppedPrefix(t, plan, i + 2, n);
        ok := Issue(DropEntry(entry));
        if !ok {
          return;
        }
      }
      assert plan[..4] == plan;
      forall s: State | Indexed(s) ensures (s, id) !in index {
        IndexedStates(s);
      }
    }

    // One partition of the index, up to a limit, in whatever order it comes.
    method ReadPartition(state: State, limit: nat) returns (ids: seq<FileId>)
      ensures forall id :: id in ids ==> (state, id) in index
      ensures Distinct(ids) && |ids| <= |Partition(index, state)|
      ensures |Partition(index, state)| <= limit ==> forall id :: (state, id) in index ==> id in ids
    {
      ids := [];
      var left := Partition(index, state);
      ghost var read: set<FileId> := {};
      while left != {} && |ids| < limit
        invariant read !! left && read + left == Partition(index, state)
        invariant (forall id :: id in ids <==> id in read) && |read| == |ids|
        invariant Distinct(ids)
        decreases left
      {
        var id :| id in left;
        left := left - {id};
        read := read + {id};
        ids := ids + [id];
      }
      assert |read + left| == |read| + |left|;
    }

    // The rows behind the entries of one state, added to those found so far.
    method Gather(state: State, ids: seq<FileId>, found: seq<(FileId, Row)>, limit: nat) returns (records: seq<(FileId, Row)>)
      requires Indexed(state) && |found| <= limit && Distinct(ids)
      requires forall id :: id in ids ==> (state, id) in index
      modifies this
      ensures rows == old(rows) && answered == old(answered) && index <= old(index)
      ensures forall entry :: entry in old(index) - index ==> entry.1 !in rows
      ensures |records| <= limit && found <= records
      ensures forall r :: r in records && r !in found ==>
        r.0 in rows && r.1 == rows[r.0] && !r.1.state.Ready? && (state, r.0) in old(index)
      ensures |records| <= |found| + |ids|
      ensures |records| < limit || |found| + |ids| <= limit ==>
        forall id :: id in ids && id in rows && !rows[id].state.Ready? ==> (id, rows[id]) in records
      ensures |found| + |ids| <= limit ==> forall id :: id in ids && id !in rows ==> (state, id) !in index
    {
      records := found;
      for i := 0 to |ids|
        invariant rows == old(rows) && answered == old(answered) && index <= old(index)
        invariant forall entry :: entry in old(index) - index ==> entry.1 !in rows
        invariant |records| <= limit && found <= records
        invariant forall r :: r in records && r !in found ==>
          r.0 in rows && r.1 == rows[r.0] && !r.1.state.Ready? && (state, r.0) in old(index)
        invariant |records| <= |found| + i
        invariant |found| + |ids| <= limit ==> forall k :: 0 <= k < i && ids[k] !in rows ==> (state, ids[k]) !in index
        invariant |records| < limit || |found| + |ids| <= limit ==>
          forall k :: 0 <= k < i && ids[k] in rows && !rows[ids[k]].state.Ready? ==> (ids[k], rows[ids[k]]) in records
      {
        if |records| >= limit {
          break;
        }
        var id := ids[i];
        if id !in rows {
          index := index - {(state, id)};
        } else if !rows[id].state.Ready? {
          records := records + [(id, rows[id])];
        }
      }
    }

    // A work list for one sweep: rows of files found through the index, each as it
    // stands in the registry. Entries without a row are dropped on the way.
    method ListPending(limit: nat) returns (records: seq<(FileId, Row)>)
      modifies this
      ensures rows == old(rows) && answered == old(answered) && index <= old(index)
      ensures forall entry :: entry in old(index) - index ==> entry.1 !in rows
      ensures |records| <= limit
      ensures forall r :: r in records ==>
        r.0 in rows && r.1 == rows[r.0] && !r.1.state.Ready? && Visible(old(View()), r.0)
      ensures |records| < limit && (forall s :: s in INDEXED ==> |Partition(old(index), s)| <= limit) ==>
        forall id :: id in rows && !rows[id].state.Ready? && Visible(old(View()), id) ==> (id, rows[id]) in records
      // Nothing is cut off while the whole index fits the limit, and no entry without
      // a row is left.
      ensures Entries(old(index), |INDEXED|) <= limit ==>
        forall entry :: entry in index && Indexed(entry.0) ==> entry.1 in rows
      ensures Entries(old(index), |INDEXED|) <= limit ==>
        forall id :: id in rows && !rows[id].state.Ready? && Visible(old(View()), id) ==> (id, rows[id]) in records
    {
      hide Visible, Partition, Entries;
      records := [];
      ghost var t := View();
      ghost var whole := Entries(t.index, |INDEXED|) <= limit;
      ghost var fits := forall s :: s in INDEXED ==> |Partition(t.index, s)| <= limit;
      ghost var read := 0;
      NoEntries(t.index);
      for i := 0 to |INDEXED|
        invariant rows == old(rows) && answered == old(answered) && index <= old(index)
        invariant forall entry :: entry in old(index) - index ==> entry.1 !in rows
        invariant |records| <= limit && |records| <= Entries(t.index, i)
        invariant forall r :: r in records ==> Found(t, r)
        invariant read == i
        invariant (fits && |records| < limit) || whole ==> forall k :: 0 <= k < read ==> Gathered(t, records, INDEXED[k])
        invariant whole ==> forall k, id :: 0 <= k < read && (INDEXED[k], id) in index ==> id in rows
      {
        if |records| >= limit {
          if whole {
            NothingFollows(t.index, i);
            forall k | i <= k < |INDEXED| ensures Gathered(t, records, INDEXED[k]) {
            }
          }
          read := |INDEXED|;
          break;
        }
        EntriesGrow(t.index, i);
        var ids := ReadPartition(INDEXED[i], limit);
        PartitionShrinks(index, t.index, INDEXED[i]);
        ghost var before := records;
        records := Gather(INDEXED[i], ids, records, limit);
        FoundIn(t, before, records, INDEXED[i]);
        GatheredStays(t, before, records, INDEXED[..i]);
        read := read + 1;
      }
      if (fits && |records| < limit) || whole {
        AllGathered(t, records);
      }
      forall entry | whole && entry in index && Indexed(entry.0) ensures entry.1 in rows {
        IndexedStates(entry.0);
      }
    }
  }
}
