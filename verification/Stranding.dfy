// A claimable task can still run, or it never will: the exact boundary, with
// and without the help of a client that repeats its request. The
// requeuer is no net under a lost token, since it reads IN_PROGRESS rows only.
module Stranding {
  import opened TaskTable
  import opened Protocol
  import opened Safety
  import opened Delivery

  // The process may still push this id or try to claim it.
  predicate MayServe(pc: Proc, id: TaskId) {
    match pc
    case Popped(x) => x == id
    case Pushing(x) => x == id
    case Repushing(_, ids, i, _) => i < |ids| && ids[i] == id
    case Sweeping(found, i, _) => exists k :: i <= k < |found| && found[k].id == id
    case Returned(_, x, task) => x == id && IsNew(task)
    case Enqueuing(_, x, _) => x == id
    case _ => false
  }

  // Claimable, but unknown to the list, to every process and to the scheduler's query.
  ghost predicate Orphaned(s: State, id: TaskId) {
    && id < |s.tasks|
    && Claimable(s.tasks[id]) && !Parked(s.tasks[id])
    && id !in s.queue
    && forall p :: 0 <= p < |s.procs| ==> !MayServe(s.procs[p], id)
  }

  // And unknown to the handler's test for a new row.
  ghost predicate Stranded(s: State, id: TaskId) {
    Orphaned(s, id) && !IsNew(s.tasks[id])
  }

  // The step answers a request that repeats the row's key.
  predicate LooksUp(a: Action, id: TaskId) {
    a.Create? && a.q == Lookup(id)
  }

  predicate NeverLooksUp(acts: seq<Action>, id: TaskId) {
    forall i :: 0 <= i < |acts| ==> !LooksUp(acts[i], id)
  }

  // ---- an orphan stays one until its key is looked up ----

  lemma WorkOrphans(s: State, p: ProcId, w: WorkerStep, id: TaskId)
    requires Core(s) && WorkCan(s, p, w) && Orphaned(s, id)
    ensures Orphaned(WorkNext(s, p, w), id) && WorkNext(s, p, w).tasks[id] == s.tasks[id]
  {
    assert RowOk(s.tasks[id], s.now) && !MayServe(s.procs[p], id);
    WorkMoves(s, p, w);
  }

  lemma RequeueOrphans(s: State, p: ProcId, r: RequeuerStep, id: TaskId)
    requires Core(s) && RequeueCan(s, p, r) && Orphaned(s, id)
    ensures Orphaned(RequeueNext(s, p, r), id) && RequeueNext(s, p, r).tasks[id] == s.tasks[id]
  {
    assert RowOk(s.tasks[id], s.now) && !MayServe(s.procs[p], id);
  }

  lemma ScheduleOrphans(s: State, p: ProcId, c: SchedulerStep, id: TaskId)
    requires ScheduleCan(s, p, c) && Orphaned(s, id)
    ensures Orphaned(ScheduleNext(s, p, c), id) && ScheduleNext(s, p, c).tasks[id] == s.tasks[id]
  {
    assert !MayServe(s.procs[p], id);
  }

  lemma CreateOrphans(s: State, p: ProcId, q: CreateStep, id: TaskId)
    requires CreateCan(s, p, q) && Orphaned(s, id) && (q == Lookup(id) ==> !IsNew(s.tasks[id]))
    ensures id < |CreateNext(s, p, q).tasks|
    ensures Orphaned(CreateNext(s, p, q), id) && CreateNext(s, p, q).tasks[id] == s.tasks[id]
  {
    assert !MayServe(s.procs[p], id);
  }

  lemma BeatOrphans(s: State, k: nat, id: TaskId)
    requires Core(s) && k < |s.beats| && Orphaned(s, id)
    ensures Orphaned(AfterBeat(s, k), id) && AfterBeat(s, k).tasks[id] == s.tasks[id]
  {
    assert RowOk(s.tasks[id], s.now);
  }

  lemma StepOrphans(s: State, a: Action, id: TaskId)
    requires Core(s) && Orphaned(s, id) && (LooksUp(a, id) ==> !IsNew(s.tasks[id]))
    ensures Orphaned(Step(s, a), id) && Step(s, a).tasks[id] == s.tasks[id]
  {
    if Enabled(s, a) {
      match a
      case Work(p, w) => WorkOrphans(s, p, w, id);
      case Requeue(p, r) => RequeueOrphans(s, p, r, id);
      case Schedule(p, c) => ScheduleOrphans(s, p, c, id);
      case Create(p, q) => CreateOrphans(s, p, q, id);
      case LandBeat(k) => BeatOrphans(s, k, id);
      case _ =>
    }
  }

  // Whatever requeuers, schedulers, workers and other requests do, nobody
  // touches an orphan: not until its key is looked up, and only if it then
  // still looks new.
  lemma {:induction false} OrphanedForever(s: State, acts: seq<Action>, id: TaskId)
    requires Core(s) && Orphaned(s, id) && (NeverLooksUp(acts, id) || !IsNew(s.tasks[id]))
    ensures Orphaned(Exec(s, acts), id) && Exec(s, acts).tasks[id] == s.tasks[id]
  {
    if acts != [] {
      var front := acts[..|acts| - 1];
      assert NeverLooksUp(acts, id) ==> NeverLooksUp(front, id);
      OrphanedForever(s, front, id);
      RunEvolves(s, front);
      StepOrphans(Exec(s, front), acts[|acts| - 1], id);
    }
  }

  lemma StrandedForever(s: State, acts: seq<Action>, id: TaskId)
    requires Core(s) && Stranded(s, id)
    ensures Stranded(Exec(s, acts), id) && Exec(s, acts).tasks[id] == s.tasks[id]
  {
    OrphanedForever(s, acts, id);
  }

  // ---- everything else can still run ----

  ghost predicate ClaimedBy(s: State, acts: seq<Action>, id: TaskId, n: nat) {
    id < |Exec(s, acts).tasks| && Exec(s, acts).tasks[id].attempts > n
  }

  // Some continuation claims the row for an attempt beyond the n-th; unless
  // aided, one in which its key is not looked up.
  ghost predicate Revivable(s: State, id: TaskId, n: nat, aided: bool) {
    exists acts :: ClaimedBy(s, acts, id, n) && (aided || NeverLooksUp(acts, id))
  }

  lemma ExecOne(s: State, a: Action)
    ensures Exec(s, [a]) == Step(s, a)
  {
    assert [a][..0] == [];
  }

  lemma Prepend(s: State, a: Action, id: TaskId, n: nat, aided: bool)
    requires Revivable(Step(s, a), id, n, aided) && (aided || !LooksUp(a, id))
    ensures Revivable(s, id, n, aided)
  {
    var acts :| ClaimedBy(Step(s, a), acts, id, n) && (aided || NeverLooksUp(acts, id));
    ExecOne(s, a);
    ExecConcat(s, [a], acts);
    assert ClaimedBy(s, [a] + acts, id, n);
  }

  ghost predicate CanClaim(s: State, id: TaskId, n: nat) {
    id < |s.tasks| && Claimable(s.tasks[id]) && s.tasks[id].attempts >= n
  }

  lemma PoppedRuns(s: State, p: ProcId, id: TaskId, n: nat, aided: bool)
    requires CanClaim(s, id, n) && p < |s.procs| && s.procs[p] == Popped(id)
    ensures Revivable(s, id, n, aided)
  {
    ExecOne(s, Work(p, Claim));
    assert ClaimedBy(s, [Work(p, Claim)], id, n);
  }

  // A fresh worker takes the tail of the list.
  lemma {:induction false} QueuedRuns(s: State, k: nat, id: TaskId, n: nat, aided: bool)
    requires CanClaim(s, id, n) && k < |s.queue| && s.queue[k] == id
    ensures Revivable(s, id, n, aided)
    decreases |s.queue|
  {
    var p, last := |s.procs|, s.queue[|s.queue| - 1];
    var s1 := Step(s, Spawn(Idle));
    assert s1 == s.(procs := s.procs + [Idle]);
    var s2 := Step(s1, Work(p, Pop));
    assert s2 == SetProc(s1, p, Popped(last)).(queue := s.queue[..|s.queue| - 1], popped := s.popped + [last]);
    if k == |s.queue| - 1 {
      PoppedRuns(s2, p, id, n, aided);
    } else {
      QueuedRuns(s2, k, id, n, aided);
    }
    Prepend(s1, Work(p, Pop), id, n, aided);
    Prepend(s, Spawn(Idle), id, n, aided);
  }

  lemma PushedRuns(s: State, a: Action, id: TaskId, n: nat, aided: bool)
    requires CanClaim(s, id, n) && Step(s, a).tasks == s.tasks && Step(s, a).queue == [id] + s.queue
    requires aided || !LooksUp(a, id)
    ensures Revivable(s, id, n, aided)
  {
    QueuedRuns(Step(s, a), 0, id, n, aided);
    Prepend(s, a, id, n, aided);
  }

  lemma {:induction false} SweptRuns(s: State, p: ProcId, k: nat, id: TaskId, n: nat, aided: bool)
    requires CanClaim(s, id, n) && p < |s.procs| && s.procs[p].Sweeping?
    requires s.procs[p].i <= k < |s.procs[p].found| && s.procs[p].found[k].id == id
    ensures Revivable(s, id, n, aided)
    decreases k - s.procs[p].i
  {
    var a := Schedule(p, PushDue);
    if k == s.procs[p].i {
      PushedRuns(s, a, id, n, aided);
    } else {
      assert Step(s, a) == ScheduleNext(s, p, PushDue);
      SweptRuns(Step(s, a), p, k, id, n, aided);
      Prepend(s, a, id, n, aided);
    }
  }

  lemma ReturnedRuns(s: State, p: ProcId, id: TaskId, n: nat, aided: bool)
    requires CanClaim(s, id, n) && p < |s.procs| && s.procs[p].Returned?
    requires s.procs[p].id == id && IsNew(s.procs[p].task)
    ensures Revivable(s, id, n, aided)
  {
    var task := s.procs[p].task;
    var settle := Create(p, Settle(if task.scheduledFor.Some? then task.scheduledFor.value else 0));
    var s1 := Step(s, settle);
    assert s1 == SetProc(s, p, Enqueuing(s.procs[p].req, id, task));
    PushedRuns(s1, Create(p, Enqueue), id, n, aided);
    Prepend(s, settle, id, n, aided);
  }

  lemma ServedRuns(s: State, p: ProcId, id: TaskId, n: nat, aided: bool)
    requires CanClaim(s, id, n) && p < |s.procs| && MayServe(s.procs[p], id)
    ensures Revivable(s, id, n, aided)
  {
    match s.procs[p]
    case Popped(_) => PoppedRuns(s, p, id, n, aided);
    case Pushing(_) => PushedRuns(s, Work(p, PushRetry), id, n, aided);
    case Repushing(_, _, _, _) => PushedRuns(s, Requeue(p, Repush), id, n, aided);
    case Sweeping(found, i, _) =>
      var k :| i <= k < |found| && found[k].id == id;
      SweptRuns(s, p, k, id, n, aided);
    case Returned(_, _, _) => ReturnedRuns(s, p, id, n, aided);
    case Enqueuing(_, _, _) => PushedRuns(s, Create(p, Enqueue), id, n, aided);
  }

  // What the scheduler's query returns, in table order.
  function DueRows(tasks: seq<Row>, now: Time, n: nat): (found: seq<Fetched>)
    requires n <= |tasks|
    ensures forall i :: 0 <= i < |found| ==>
              found[i].id < n && found[i].row == tasks[found[i].id] && SweepDue(found[i].row, now)
    ensures forall id :: 0 <= id < n && SweepDue(tasks[id], now) ==> Fetched(id, tasks[id]) in found
  {
    if n == 0 then []
    else
      var rest := DueRows(tasks, now, n - 1);
      if SweepDue(tasks[n - 1], now) then rest + [Fetched(n - 1, tasks[n - 1])] else rest
  }

  // A parked row: wait until it is due, then let a scheduler sweep.
  lemma ParkedRuns(s: State, id: TaskId, n: nat, aided: bool)
    requires CanClaim(s, id, n) && Parked(s.tasks[id])
    ensures Revivable(s, id, n, aided)
  {
    var due := s.tasks[id].scheduledFor.value;
    var tick := Tick(if due > s.now then due - s.now else 0);
    var s1 := Step(s, tick);
    var s2 := Step(s1, Spawn(Dozing));
    var p, found := |s.procs|, DueRows(s.tasks, s1.now, |s.tasks|);
    var s3 := Step(s2, Schedule(p, Sweep(found)));
    assert s2.tasks == s.tasks && s2.now == s1.now && s2.procs[p] == Dozing;
    assert Fetches(found, s2.tasks, s2.now);
    assert s3 == SetProc(s2, p, Sweeping(found, 0, true));
    var k :| 0 <= k < |found| && found[k] == Fetched(id, s.tasks[id]);
    SweptRuns(s3, p, k, id, n, aided);
    Prepend(s2, Schedule(p, Sweep(found)), id, n, aided);
    Prepend(s1, Spawn(Dozing), id, n, aided);
    Prepend(s, tick, id, n, aided);
  }

  // A row that still looks new: the client repeats its request.
  lemma NewRuns(s: State, id: TaskId, n: nat)
    requires CanClaim(s, id, n) && IsNew(s.tasks[id])
    ensures Revivable(s, id, n, true)
  {
    var r, p := s.tasks[id], |s.procs|;
    var req := Request(r.key, r.service, r.email, r.payload, r.scheduledFor);
    var s1 := Step(s, Spawn(Arrived(req)));
    var s2 := Step(s1, Create(p, Insert));
    var s3 := Step(s2, Create(p, Lookup(id)));
    assert s1 == s.(procs := s.procs + [Arrived(req)]);
    assert KeyTaken(s1.tasks, req.key);
    assert s2 == SetProc(s1, p, Conflicted(req));
    assert s3 == SetProc(s2, p, Returned(req, id, r));
    ReturnedRuns(s3, p, id, n, true);
    Prepend(s2, Create(p, Lookup(id)), id, n, true);
    Prepend(s1, Create(p, Insert), id, n, true);
    Prepend(s, Spawn(Arrived(req)), id, n, true);
  }

  lemma UnorphanedRuns(s: State, id: TaskId, n: nat, aided: bool)
    requires CanClaim(s, id, n) && !Orphaned(s, id)
    ensures Revivable(s, id, n, aided)
  {
    if Parked(s.tasks[id]) {
      ParkedRuns(s, id, n, aided);
    } else if id in s.queue {
      var k :| 0 <= k < |s.queue| && s.queue[k] == id;
      QueuedRuns(s, k, id, n, aided);
    } else {
      var p :| 0 <= p < |s.procs| && MayServe(s.procs[p], id);
      ServedRuns(s, p, id, n, aided);
    }
  }

  // A claimable row of any reachable state can be claimed by some continuation
  // of the run if and only if it is not stranded.
  lemma StrandedExactly(start: Time, acts: seq<Action>, id: TaskId)
    requires id < |Exec(Init(start), acts).tasks| && Claimable(Exec(Init(start), acts).tasks[id])
    ensures var s := Exec(Init(start), acts);
            Revivable(s, id, s.tasks[id].attempts, true) <==> !Stranded(s, id)
  {
    CoreAlways(start, acts);
    var s := Exec(Init(start), acts);
    var n := s.tasks[id].attempts;
    if Stranded(s, id) {
      forall more ensures !ClaimedBy(s, more, id, n) {
        StrandedForever(s, more, id);
      }
    } else if IsNew(s.tasks[id]) {
      NewRuns(s, id, n);
    } else {
      UnorphanedRuns(s, id, n, true);
    }
  }

  // It can be claimed with no further request for its key, by the loops, the
  // workers and the processes already under way, if and only if it is not an
  // orphan. So for an orphan everything hangs on a client that repeats its
  // request while the row still looks new.
  lemma OrphanedExactly(start: Time, acts: seq<Action>, id: TaskId)
    requires id < |Exec(Init(start), acts).tasks| && Claimable(Exec(Init(start), acts).tasks[id])
    ensures var s := Exec(Init(start), acts);
            Revivable(s, id, s.tasks[id].attempts, false) <==> !Orphaned(s, id)
  {
    CoreAlways(start, acts);
    var s := Exec(Init(start), acts);
    var n := s.tasks[id].attempts;
    if Orphaned(s, id) {
      forall more | NeverLooksUp(more, id) ensures !ClaimedBy(s, more, id, n) {
        OrphanedForever(s, more, id);
      }
    } else {
      UnorphanedRuns(s, id, n, false);
    }
  }

  // And only a dropped token makes an orphan, whatever else the run did.
  lemma OrphanedWasLost(start: Time, acts: seq<Action>, id: TaskId)
    requires Orphaned(Exec(Init(start), acts), id)
    ensures id in Exec(Init(start), acts).lost
  {
    NoTaskIsLost(start, acts);
    var s := Exec(Init(start), acts);
    assert Accounted(s, id);
    forall p | 0 <= p < |s.procs| ensures id !in Carried(s.procs[p]) {
      assert !MayServe(s.procs[p], id);
    }
  }

  // ---- the push after a reset fails ----

  // The row in a requeuer's hand was claimed once, more than the threshold ago.
  ghost predicate ReclaimedNotNew(s: State) {
    forall p :: 0 <= p < |s.procs| && s.procs[p].Repushing? ==> InHandNotNew(s.procs[p], s.tasks)
  }

  predicate InHandNotNew(pc: Proc, tasks: seq<Row>)
    requires pc.Repushing?
  {
    pc.i < |pc.ids| && pc.ids[pc.i] < |tasks| && !IsNew(tasks[pc.ids[pc.i]])
  }

  lemma NotNewKept(s: State, t: State, pc: Proc)
    requires pc.Repushing? && Core(s) && Evolves(s, t) && InHandNotNew(pc, s.tasks)
    ensures InHandNotNew(pc, t.tasks)
  {
    var id := pc.ids[pc.i];
    assert RowOk(s.tasks[id], s.now) && Grows(s.tasks[id], t.tasks[id]);
  }

  lemma RequeueTakesOld(s: State, p: ProcId, r: RequeuerStep)
    requires Core(s) && RequeueCan(s, p, r)
    ensures
      var t := RequeueNext(s, p, r);
      Moves(s, t, p) && (t.procs[p].Repushing? ==> InHandNotNew(t.procs[p], t.tasks))
  {
    if r.Reset? {
      var id := s.procs[p].ids[s.procs[p].i];
      assert ProcOk(s.procs[p], s.tasks) && RowOk(s.tasks[id], s.now);
    }
  }

  // Only a requeuer comes to hold a row this way.
  lemma OnlyRequeuersRepush(s: State, a: Action, p: ProcId)
    requires Core(s) && Enabled(s, a) && !a.Requeue? && p < |Step(s, a).procs| && Step(s, a).procs[p].Repushing?
    ensures p < |s.procs| && s.procs[p] == Step(s, a).procs[p]
  {
    match a
    case Work(q, w) => WorkMoves(s, q, w); WorkersNeverRepush(s, q, w);
    case Create(q, c) => CreateKeepsCore(s, q, c); RequestsNeverRepush(s, q, c);
    case _ =>
  }

  lemma WorkersNeverRepush(s: State, p: ProcId, w: WorkerStep)
    requires WorkCan(s, p, w)
    ensures p < |WorkNext(s, p, w).procs| && !WorkNext(s, p, w).procs[p].Repushing?
  {
  }

  lemma RequestsNeverRepush(s: State, p: ProcId, q: CreateStep)
    requires CreateCan(s, p, q)
    ensures p < |CreateNext(s, p, q).procs| && !CreateNext(s, p, q).procs[p].Repushing?
  {
  }

  lemma ReclaimedStep(s: State, a: Action)
    requires Core(s) && ReclaimedNotNew(s)
    ensures ReclaimedNotNew(Step(s, a))
  {
    var t := Step(s, a);
    StepEvolves(s, a);
    if Enabled(s, a) {
      forall p | 0 <= p < |t.procs| && t.procs[p].Repushing? ensures InHandNotNew(t.procs[p], t.tasks) {
        if a.Requeue? {
          RequeueTakesOld(s, a.p, a.r);
        } else {
          OnlyRequeuersRepush(s, a, p);
        }
        if !(a.Requeue? && a.p == p) {
          NotNewKept(s, t, s.procs[p]);
        }
      }
    }
  }

  lemma {:induction false} ReclaimedAlways(start: Time, acts: seq<Action>)
    ensures ReclaimedNotNew(Exec(Init(start), acts))
  {
    if acts != [] {
      CoreAlways(start, acts[..|acts| - 1]);
      ReclaimedAlways(start, acts[..|acts| - 1]);
      ReclaimedStep(Exec(Init(start), acts[..|acts| - 1]), acts[|acts| - 1]);
    }
  }

  // After the failed push the row can never run again if and only if it is
  // still waiting unscheduled, with no other token and no other carrier.
  lemma FailedRepushStrands(start: Time, acts: seq<Action>, p: ProcId)
    requires RequeueCan(Exec(Init(start), acts), p, RepushFail)
    ensures
      var s := Exec(Init(start), acts);
      var id := s.procs[p].ids[s.procs[p].i];
      && id < |s.tasks|
      && (Stranded(RequeueNext(s, p, RepushFail), id) <==>
            && Claimable(s.tasks[id]) && !Parked(s.tasks[id]) && id !in s.queue
            && forall q :: 0 <= q < |s.procs| && q != p ==> !MayServe(s.procs[q], id))
  {
    CoreAlways(start, acts);
    ReclaimedAlways(start, acts);
    FailedRepush(Exec(Init(start), acts), p);
  }

  lemma FailedRepush(s: State, p: ProcId)
    requires Core(s) && ReclaimedNotNew(s) && RequeueCan(s, p, RepushFail)
    ensures
      var id := s.procs[p].ids[s.procs[p].i];
      && id < |s.tasks|
      && (Stranded(RequeueNext(s, p, RepushFail), id) <==>
            && Claimable(s.tasks[id]) && !Parked(s.tasks[id]) && id !in s.queue
            && forall q :: 0 <= q < |s.procs| && q != p ==> !MayServe(s.procs[q], id))
  {
    var t, id := RequeueNext(s, p, RepushFail), s.procs[p].ids[s.procs[p].i];
    assert ProcOk(s.procs[p], s.tasks) && InHandNotNew(s.procs[p], s.tasks);
    assert !MayServe(t.procs[p], id);
    assert forall q :: 0 <= q < |s.procs| && q != p ==> t.procs[q] == s.procs[q];
  }
}
