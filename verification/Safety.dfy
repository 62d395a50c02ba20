// The system-wide invariant behind the owner-only fence, and the facts about
// rows that every interleaving keeps.
module Safety {
  import opened TaskTable
  import opened Protocol

  // Lock fields and status agree, and timestamps are ordered.
  predicate RowOk(r: Row, now: Time) {
    && (r.status.InProgress? <==> r.lockedBy.Some?)
    && (r.status.InProgress? <==> r.lockedAt.Some?)
    && (r.lockedAt.Some? ==> r.createdAt <= r.lockedAt.value <= r.updatedAt)
    && r.createdAt <= r.updatedAt <= now
    && !r.status.Failed?
    && (r.attempts == 0 ==> r.status.Pending? && IsNew(r))
    && r.maxAttempts == DEFAULT_MAX_ATTEMPTS
  }

  // A worker snapshot: the row as some claim of this worker left it.
  predicate SnapshotOk(task: Row, r: Row) {
    SameIdentity(task, r) && task.status.InProgress? && 1 <= task.attempts <= r.attempts
  }

  predicate VerdictOk(task: Row, v: Verdict) {
    && (v.ToRetry? ==> task.attempts < task.maxAttempts)
    && (v.ToDeadLetter? ==> task.attempts >= task.maxAttempts || !Known(task.service))
  }

  // While attempts has not moved, a row fetched as PENDING is still PENDING.
  predicate FetchOk(f: Fetched, tasks: seq<Row>) {
    && f.id < |tasks| && f.row.status.Pending? && f.row.attempts <= tasks[f.id].attempts
    && (f.row.attempts == tasks[f.id].attempts ==> tasks[f.id].status.Pending?)
  }

  predicate ProcOk(pc: Proc, tasks: seq<Row>) {
    match pc
    case Popped(id) => id < |tasks|
    case Running(id, task) => id < |tasks| && SnapshotOk(task, tasks[id]) && Known(task.service)
    case Writing(id, task, v) => id < |tasks| && SnapshotOk(task, tasks[id]) && VerdictOk(task, v)
    case Pushing(id) => id < |tasks|
    case Resetting(_, ids, _, _) => forall k :: 0 <= k < |ids| ==> ids[k] < |tasks|
    case Repushing(_, ids, i, _) => i < |ids| && forall k :: 0 <= k < |ids| ==> ids[k] < |tasks|
    case Sweeping(found, _, _) => forall k :: 0 <= k < |found| ==> FetchOk(found[k], tasks)
    case Conflicted(req) => KeyTaken(tasks, req.key)
    case Returned(req, id, task) => id < |tasks| && task.key == req.key && SameIdentity(task, tasks[id])
    case Enqueuing(req, id, task) => id < |tasks| && task.key == req.key && SameIdentity(task, tasks[id])
    case Answered(req, id, task, _) => id < |tasks| && task.key == req.key && SameIdentity(task, tasks[id])
    case _ => true
  }

  // The process is inside processTask for this row, at this attempt.
  predicate Holds(pc: Proc, id: TaskId, attempts: nat) {
    (pc.Running? || pc.Writing?) && pc.id == id && pc.task.attempts == attempts
  }

  predicate FenceOk(r: Row, id: TaskId, procs: seq<Proc>) {
    r.lockedBy.Some? ==>
      r.lockedBy.value < |procs| &&
      (procs[r.lockedBy.value].Gone? || Holds(procs[r.lockedBy.value], id, r.attempts))
  }

  ghost predicate RowsOk(s: State) {
    forall id :: 0 <= id < |s.tasks| ==> RowOk(s.tasks[id], s.now)
  }

  ghost predicate FencesOk(s: State) {
    forall id :: 0 <= id < |s.tasks| ==> FenceOk(s.tasks[id], id, s.procs)
  }

  ghost predicate ProcsOk(s: State) {
    forall p :: 0 <= p < |s.procs| ==> ProcOk(s.procs[p], s.tasks)
  }

  ghost predicate QueueOk(s: State) {
    forall k :: 0 <= k < |s.queue| ==> s.queue[k] < |s.tasks|
  }

  ghost predicate KeysUnique(s: State) {
    forall i, j :: 0 <= i < j < |s.tasks| ==> s.tasks[i].key != s.tasks[j].key
  }

  ghost predicate Core(s: State) {
    RowsOk(s) && FencesOk(s) && ProcsOk(s) && QueueOk(s) && KeysUnique(s)
  }

  // ---- what a step may do to the table ----

  // A row keeps its identity, its attempts never fall, and a PENDING row
  // changes status only by gaining an attempt.
  predicate Grows(a: Row, b: Row) {
    && SameIdentity(a, b) && a.attempts <= b.attempts && a.updatedAt <= b.updatedAt
    && (a.attempts == b.attempts && a.status.Pending? ==> b.status.Pending?)
  }

  ghost predicate Evolves(s: State, t: State) {
    && s.now <= t.now && |s.tasks| <= |t.tasks| && |s.procs| <= |t.procs|
    && forall id :: 0 <= id < |s.tasks| ==> Grows(s.tasks[id], t.tasks[id])
  }

  // A landed change of one row: a claim, a result write, a heartbeat, a reset.
  // Whichever it is, the trigger stamps the row.
  ghost predicate RowStep(r: Row, r': Row, now: Time) {
    && r'.updatedAt == now
    && (|| (Claimable(r) && exists w :: r' == ClaimRow(r, w, now))
        || (r.lockedBy.Some? && exists v :: r' == Written(r, v, now))
        || (r.status.InProgress? && (r' == BeatRow(r, now) || r' == Release(r, Pending, now))))
  }

  // A step leaves the table alone, changes one row by one statement, or
  // appends one new row under a fresh key.
  ghost predicate TableStep(s: State, t: State) {
    s.now <= t.now && |s.procs| <= |t.procs| &&
    (|| t.tasks == s.tasks
     || (exists id, r ::
           0 <= id < |s.tasks| && RowStep(s.tasks[id], r, s.now) && t.tasks == s.tasks[id := r] && t.now == s.now)
     || (exists req: Request ::
           !KeyTaken(s.tasks, req.key) && t.tasks == s.tasks + [NewRow(req, s.now)] && t.now == s.now))
  }

  lemma WorkWritesOneRow(s: State, p: ProcId, w: WorkerStep)
    requires Core(s) && WorkCan(s, p, w)
    ensures TableStep(s, WorkNext(s, p, w))
  {
    var t := WorkNext(s, p, w);
    if t.tasks != s.tasks {
      var id := s.procs[p].id;
      assert RowStep(s.tasks[id], t.tasks[id], s.now);
      assert t.tasks == s.tasks[id := t.tasks[id]];
    }
  }

  lemma RequeueWritesOneRow(s: State, p: ProcId, r: RequeuerStep)
    requires Core(s) && RequeueCan(s, p, r)
    ensures TableStep(s, RequeueNext(s, p, r))
  {
    var t := RequeueNext(s, p, r);
    if t.tasks != s.tasks {
      var id := s.procs[p].ids[s.procs[p].i];
      assert RowStep(s.tasks[id], t.tasks[id], s.now);
      assert t.tasks == s.tasks[id := t.tasks[id]];
    }
  }

  lemma BeatWritesOneRow(s: State, k: nat)
    requires Core(s) && k < |s.beats|
    ensures TableStep(s, AfterBeat(s, k))
  {
    var t, id := AfterBeat(s, k), s.beats[k].id;
    if t.tasks != s.tasks {
      assert RowStep(s.tasks[id], t.tasks[id], s.now);
      assert t.tasks == s.tasks[id := t.tasks[id]];
    }
  }

  lemma CreateAppendsOneRow(s: State, p: ProcId, q: CreateStep)
    requires Core(s) && CreateCan(s, p, q)
    ensures TableStep(s, CreateNext(s, p, q))
  {
  }

  lemma StepWritesOneRow(s: State, a: Action)
    requires Core(s)
    ensures TableStep(s, Step(s, a))
  {
    if Enabled(s, a) {
      match a
      case Work(p, w) => WorkWritesOneRow(s, p, w);
      case Requeue(p, r) => RequeueWritesOneRow(s, p, r);
      case LandBeat(k) => BeatWritesOneRow(s, k);
      case Create(p, q) => CreateAppendsOneRow(s, p, q);
      case _ =>
    }
  }

  lemma RowStepOk(r: Row, r': Row, now: Time)
    requires RowOk(r, now) && RowStep(r, r', now)
    ensures RowOk(r', now) && Grows(r, r')
  {
  }

  lemma TableStepOk(s: State, t: State)
    requires Core(s) && TableStep(s, t)
    ensures Evolves(s, t) && RowsOk(t) && KeysUnique(t)
  {
    forall id | 0 <= id < |s.tasks| ensures RowOk(t.tasks[id], t.now) && Grows(s.tasks[id], t.tasks[id]) {
      if t.tasks[id] != s.tasks[id] {
        RowStepOk(s.tasks[id], t.tasks[id], s.now);
      }
    }
    if |t.tasks| == |s.tasks| {
      forall i, j | 0 <= i < j < |t.tasks| ensures t.tasks[i].key != t.tasks[j].key {
        assert Grows(s.tasks[i], t.tasks[i]) && Grows(s.tasks[j], t.tasks[j]);
      }
    }
  }

  lemma StepEvolves(s: State, a: Action)
    requires Core(s)
    ensures Evolves(s, Step(s, a))
  {
    StepWritesOneRow(s, a);
    TableStepOk(s, Step(s, a));
  }

  // ---- what a step may do to the processes ----

  // At most process p moves.
  ghost predicate Moves(s: State, t: State, p: ProcId) {
    |t.procs| == |s.procs| && forall q :: 0 <= q < |s.procs| && q != p ==> t.procs[q] == s.procs[q]
  }

  lemma ProcOkGrows(s: State, t: State, pc: Proc)
    requires ProcOk(pc, s.tasks) && Evolves(s, t)
    ensures ProcOk(pc, t.tasks)
  {
    match pc
    case Sweeping(found, _, _) =>
      forall k | 0 <= k < |found| ensures FetchOk(found[k], t.tasks) {
        assert FetchOk(found[k], s.tasks);
        assert Grows(s.tasks[found[k].id], t.tasks[found[k].id]);
      }
    case Conflicted(req) =>
      var id :| 0 <= id < |s.tasks| && s.tasks[id].key == req.key;
      assert Grows(s.tasks[id], t.tasks[id]);
      assert t.tasks[id].key == req.key;
    case _ =>
  }

  lemma MovedProcsOk(s: State, t: State, p: ProcId)
    requires Core(s) && Evolves(s, t) && Moves(s, t, p)
    requires p < |t.procs| ==> ProcOk(t.procs[p], t.tasks)
    ensures ProcsOk(t)
  {
    forall q | 0 <= q < |t.procs| ensures ProcOk(t.procs[q], t.tasks) {
      if q != p {
        ProcOkGrows(s, t, s.procs[q]);
      }
    }
  }

  lemma MovedQueueOk(s: State, t: State)
    requires Core(s) && Evolves(s, t)
    requires forall k :: 0 <= k < |t.queue| ==> t.queue[k] in s.queue || t.queue[k] < |t.tasks|
    ensures QueueOk(t)
  {
  }

  // ---- each role keeps the invariant ----

  // A row keeps its fence when its lock is untouched and its owner still
  // holds it, when it is released, and when p claims it.
  ghost predicate LockStep(s: State, t: State, p: ProcId, id: TaskId)
    requires id < |s.tasks| && id < |t.tasks|
  {
    var r, r' := s.tasks[id], t.tasks[id];
    || r'.lockedBy.None?
    || (r'.lockedBy == r.lockedBy && r'.attempts == r.attempts && !OwnedBy(r, p))
    || (OwnedBy(r', p) && p < |t.procs| && (t.procs[p].Gone? || Holds(t.procs[p], id, r'.attempts)))
  }

  lemma LockStepFence(s: State, t: State, p: ProcId)
    requires Core(s) && Evolves(s, t) && Moves(s, t, p)
    requires forall id :: 0 <= id < |s.tasks| ==> LockStep(s, t, p, id)
    requires forall id :: |s.tasks| <= id < |t.tasks| ==> t.tasks[id].lockedBy.None?
    ensures FencesOk(t)
  {
    forall id | 0 <= id < |t.tasks| ensures FenceOk(t.tasks[id], id, t.procs) {
      if id < |s.tasks| {
        assert FenceOk(s.tasks[id], id, s.procs) && LockStep(s, t, p, id);
      }
    }
  }

  // The pieces of the invariant, put together for a step of process p.
  lemma Assembled(s: State, t: State, p: ProcId)
    requires Core(s) && TableStep(s, t) && Moves(s, t, p)
    requires forall id :: 0 <= id < |s.tasks| ==> id < |t.tasks| && LockStep(s, t, p, id)
    requires p < |t.procs| ==> ProcOk(t.procs[p], t.tasks)
    requires forall k :: 0 <= k < |t.queue| ==> t.queue[k] in s.queue || t.queue[k] < |t.tasks|
    ensures Core(t)
  {
    TableStepOk(s, t);
    LockStepFence(s, t, p);
    MovedProcsOk(s, t, p);
    MovedQueueOk(s, t);
  }

  lemma WorkLocks(s: State, p: ProcId, w: WorkerStep, id: TaskId)
    requires Core(s) && WorkCan(s, p, w) && id < |s.tasks|
    ensures id < |WorkNext(s, p, w).tasks| && LockStep(s, WorkNext(s, p, w), p, id)
  {
    assert FenceOk(s.tasks[id], id, s.procs);
  }

  lemma WorkMoves(s: State, p: ProcId, w: WorkerStep)
    requires Core(s) && WorkCan(s, p, w)
    ensures Moves(s, WorkNext(s, p, w), p) && |WorkNext(s, p, w).tasks| == |s.tasks|
  {
  }

  lemma WorkKeepsActor(s: State, p: ProcId, w: WorkerStep)
    requires Core(s) && WorkCan(s, p, w) && !w.Claim?
    ensures p < |WorkNext(s, p, w).procs| && ProcOk(WorkNext(s, p, w).procs[p], s.tasks)
  {
    assert ProcOk(s.procs[p], s.tasks);
  }

  lemma WorkActorOk(s: State, p: ProcId, w: WorkerStep)
    requires Core(s) && WorkCan(s, p, w)
    ensures p < |WorkNext(s, p, w).procs|
    ensures ProcOk(WorkNext(s, p, w).procs[p], WorkNext(s, p, w).tasks)
  {
    if w.Claim? {
      assert ProcOk(s.procs[p], s.tasks);
    } else {
      WorkKeepsActor(s, p, w);
      WorkWritesOneRow(s, p, w);
      TableStepOk(s, WorkNext(s, p, w));
      ProcOkGrows(s, WorkNext(s, p, w), WorkNext(s, p, w).procs[p]);
    }
  }

  lemma WorkQueue(s: State, p: ProcId, w: WorkerStep)
    requires Core(s) && WorkCan(s, p, w)
    ensures var t := WorkNext(s, p, w);
            forall k :: 0 <= k < |t.queue| ==> t.queue[k] in s.queue || t.queue[k] < |t.tasks|
  {
  }

  lemma WorkKeepsCore(s: State, p: ProcId, w: WorkerStep)
    requires Core(s) && WorkCan(s, p, w)
    ensures Core(WorkNext(s, p, w)) && Moves(s, WorkNext(s, p, w), p)
  {
    WorkWritesOneRow(s, p, w);
    forall id | 0 <= id < |s.tasks|
      ensures id < |WorkNext(s, p, w).tasks| && LockStep(s, WorkNext(s, p, w), p, id)
    {
      WorkLocks(s, p, w, id);
    }
    WorkMoves(s, p, w);
    WorkActorOk(s, p, w);
    WorkQueue(s, p, w);
    Assembled(s, WorkNext(s, p, w), p);
  }

  lemma RequeueLocks(s: State, p: ProcId, r: RequeuerStep, id: TaskId)
    requires Core(s) && RequeueCan(s, p, r) && id < |s.tasks|
    ensures id < |RequeueNext(s, p, r).tasks| && LockStep(s, RequeueNext(s, p, r), p, id)
  {
    assert FenceOk(s.tasks[id], id, s.procs);
  }

  lemma RequeueKeepsCore(s: State, p: ProcId, r: RequeuerStep)
    requires Core(s) && RequeueCan(s, p, r)
    ensures Core(RequeueNext(s, p, r)) && Moves(s, RequeueNext(s, p, r), p)
  {
    var t := RequeueNext(s, p, r);
    RequeueWritesOneRow(s, p, r);
    forall id | 0 <= id < |s.tasks| ensures id < |t.tasks| && LockStep(s, t, p, id) {
      RequeueLocks(s, p, r, id);
    }
    Assembled(s, t, p);
  }

  lemma ScheduleKeepsCore(s: State, p: ProcId, c: SchedulerStep)
    requires Core(s) && ScheduleCan(s, p, c)
    ensures Core(ScheduleNext(s, p, c)) && Moves(s, ScheduleNext(s, p, c), p)
  {
    var t := ScheduleNext(s, p, c);
    forall id | 0 <= id < |s.tasks| ensures LockStep(s, t, p, id) {
      assert FenceOk(s.tasks[id], id, s.procs);
    }
    Assembled(s, t, p);
  }

  lemma CreateLocks(s: State, p: ProcId, q: CreateStep, id: TaskId)
    requires Core(s) && CreateCan(s, p, q) && id < |s.tasks|
    ensures id < |CreateNext(s, p, q).tasks| && LockStep(s, CreateNext(s, p, q), p, id)
  {
    assert FenceOk(s.tasks[id], id, s.procs);
  }

  lemma CreateActorOk(s: State, p: ProcId, q: CreateStep)
    requires Core(s) && CreateCan(s, p, q)
    ensures Moves(s, CreateNext(s, p, q), p)
    ensures ProcOk(CreateNext(s, p, q).procs[p], CreateNext(s, p, q).tasks)
  {
    ProcOkGrows(s, s, s.procs[p]);
  }

  lemma CreateKeepsCore(s: State, p: ProcId, q: CreateStep)
    requires Core(s) && CreateCan(s, p, q)
    ensures Core(CreateNext(s, p, q)) && Moves(s, CreateNext(s, p, q), p)
  {
    var t := CreateNext(s, p, q);
    CreateAppendsOneRow(s, p, q);
    forall id | 0 <= id < |s.tasks| ensures id < |t.tasks| && LockStep(s, t, p, id) {
      CreateLocks(s, p, q, id);
    }
    CreateActorOk(s, p, q);
    Assembled(s, t, p);
  }

  lemma CrashKeepsCore(s: State, p: ProcId, calls: nat)
    requires Core(s) && CrashCan(s, p, calls)
    ensures Core(AfterCrash(s, p, calls)) && Moves(s, AfterCrash(s, p, calls), p)
  {
    var t := AfterCrash(s, p, calls);
    TableStepOk(s, t);
    LockStepFence(s, t, p);
    MovedProcsOk(s, t, p);
  }

  lemma BeatKeepsCore(s: State, k: nat)
    requires Core(s) && k < |s.beats|
    ensures Core(AfterBeat(s, k)) && Moves(s, AfterBeat(s, k), |s.procs|)
  {
    var t := AfterBeat(s, k);
    BeatWritesOneRow(s, k);
    TableStepOk(s, t);
    forall id | 0 <= id < |s.tasks| ensures LockStep(s, t, |s.procs|, id) {
      assert FenceOk(s.tasks[id], id, s.procs);
    }
    LockStepFence(s, t, |s.procs|);
    MovedProcsOk(s, t, |s.procs|);
  }

  lemma SpawnKeepsCore(s: State, pc: Proc)
    requires Core(s) && CanSpawn(pc)
    ensures Core(s.(procs := s.procs + [pc]))
  {
    var t := s.(procs := s.procs + [pc]);
    forall id | 0 <= id < |t.tasks| ensures FenceOk(t.tasks[id], id, t.procs) {
      assert FenceOk(s.tasks[id], id, s.procs);
    }
  }

  lemma CoreStep(s: State, a: Action)
    requires Core(s)
    ensures Core(Step(s, a))
  {
    if Enabled(s, a) {
      match a
      case Tick(_) => StepEvolves(s, a); TableStepOk(s, Step(s, a));
      case Spawn(pc) => SpawnKeepsCore(s, pc);
      case Crash(p, calls) => CrashKeepsCore(s, p, calls);
      case Work(p, w) => WorkKeepsCore(s, p, w);
      case Requeue(p, r) => RequeueKeepsCore(s, p, r);
      case Schedule(p, c) => ScheduleKeepsCore(s, p, c);
      case Create(p, q) => CreateKeepsCore(s, p, q);
      case LandBeat(k) => BeatKeepsCore(s, k);
      case LoseBeat(_) =>
    }
  }

  // ---- every run ----

  // Every state of every run satisfies the invariant.
  lemma {:induction false} CoreAlways(start: Time, acts: seq<Action>)
    ensures Core(Exec(Init(start), acts))
  {
    if acts != [] {
      CoreAlways(start, acts[..|acts| - 1]);
      CoreStep(Exec(Init(start), acts[..|acts| - 1]), acts[|acts| - 1]);
    }
  }

  lemma EvolvesTrans(s: State, t: State, u: State)
    requires Evolves(s, t) && Evolves(t, u)
    ensures Evolves(s, u)
  {
    forall id | 0 <= id < |s.tasks| ensures Grows(s.tasks[id], u.tasks[id]) {
      assert Grows(s.tasks[id], t.tasks[id]) && Grows(t.tasks[id], u.tasks[id]);
    }
  }

  lemma {:induction false} RunEvolves(s: State, acts: seq<Action>)
    requires Core(s)
    ensures Core(Exec(s, acts)) && Evolves(s, Exec(s, acts))
  {
    if acts != [] {
      var front, a := acts[..|acts| - 1], acts[|acts| - 1];
      RunEvolves(s, front);
      StepEvolves(Exec(s, front), a);
      CoreStep(Exec(s, front), a);
      EvolvesTrans(s, Exec(s, front), Exec(s, acts));
    }
  }
}
