// Leases: what timely heartbeats buy a live worker, and how fast a dead
// worker's task comes back.
module Leases {
  import opened Wrappers
  import opened TaskTable
  import opened Protocol
  import opened Safety
  import opened Heartbeats

  const REQUEUE_INTERVAL: nat := 10_000

  // ---- a live worker keeps its row ----

  // How long ago the owner of the row last proved itself alive.
  predicate WithinLease(r: Row, procs: seq<Proc>, now: Time) {
    r.lockedBy.Some? && r.lockedAt.Some? && r.lockedBy.value < |procs| && !procs[r.lockedBy.value].Gone?
    ==> now - r.lockedAt.value <= STALE_LOCK_THRESHOLD
  }

  // Time never passes beyond the threshold on a live worker's lock: its beats
  // and its result write land soon enough.
  predicate Punctual(s: State, a: Action) {
    a.Tick? ==> forall id :: 0 <= id < |s.tasks| ==> WithinLease(s.tasks[id], s.procs, s.now + a.d)
  }

  predicate Inside(pc: Proc) {
    pc.Running? || pc.Writing?
  }

  ghost predicate Leased(s: State) {
    && (forall id :: 0 <= id < |s.tasks| ==> WithinLease(s.tasks[id], s.procs, s.now))
    && (forall p :: 0 <= p < |s.procs| && Inside(s.procs[p]) ==>
          s.procs[p].id < |s.tasks| && OwnedBy(s.tasks[s.procs[p].id], p))
  }

  // What a step may do to a row some live process p owns: only p touches it,
  // except that beats refresh it.
  lemma WorkLeases(s: State, p: ProcId, w: WorkerStep)
    requires Core(s) && Leased(s) && WorkCan(s, p, w)
    ensures Leased(WorkNext(s, p, w))
  {
    var t := WorkNext(s, p, w);
    WorkMoves(s, p, w);
    forall id | 0 <= id < |t.tasks| ensures WithinLease(t.tasks[id], t.procs, t.now) {
      WorkKeepsLease(s, p, w, id);
    }
    forall q | 0 <= q < |t.procs| && Inside(t.procs[q])
      ensures t.procs[q].id < |t.tasks| && OwnedBy(t.tasks[t.procs[q].id], q)
    {
      WorkKeepsOwner(s, p, w, q);
    }
  }

  lemma WorkKeepsLease(s: State, p: ProcId, w: WorkerStep, id: TaskId)
    requires Core(s) && Leased(s) && WorkCan(s, p, w) && id < |s.tasks|
    ensures id < |WorkNext(s, p, w).tasks|
    ensures WithinLease(WorkNext(s, p, w).tasks[id], WorkNext(s, p, w).procs, s.now)
  {
    assert WithinLease(s.tasks[id], s.procs, s.now);
  }

  lemma WorkKeepsOwner(s: State, p: ProcId, w: WorkerStep, q: ProcId)
    requires Core(s) && Leased(s) && WorkCan(s, p, w)
    requires q < |WorkNext(s, p, w).procs| && Inside(WorkNext(s, p, w).procs[q])
    ensures var t := WorkNext(s, p, w);
            t.procs[q].id < |t.tasks| && OwnedBy(t.tasks[t.procs[q].id], q)
  {
    WorkMoves(s, p, w);
    if q != p {
      var id := s.procs[q].id;
      assert RowOk(s.tasks[id], s.now);
    }
  }

  // A reset lands only on a stale lock, and in a leased state that is a dead worker's.
  lemma RequeueLeases(s: State, p: ProcId, r: RequeuerStep)
    requires Core(s) && Leased(s) && RequeueCan(s, p, r)
    ensures Leased(RequeueNext(s, p, r))
  {
    var t := RequeueNext(s, p, r);
    RequeueKeepsCore(s, p, r);
    forall id | 0 <= id < |t.tasks| ensures WithinLease(t.tasks[id], t.procs, t.now) {
      assert WithinLease(s.tasks[id], s.procs, s.now);
    }
    forall q | 0 <= q < |t.procs| && Inside(t.procs[q])
      ensures t.procs[q].id < |t.tasks| && OwnedBy(t.tasks[t.procs[q].id], q)
    {
      assert t.procs[q] == s.procs[q];
      assert WithinLease(s.tasks[s.procs[q].id], s.procs, s.now);
      assert RowOk(s.tasks[s.procs[q].id], s.now);
    }
  }

  lemma CreateLeases(s: State, p: ProcId, q: CreateStep)
    requires Core(s) && Leased(s) && CreateCan(s, p, q)
    ensures Leased(CreateNext(s, p, q))
  {
    var t := CreateNext(s, p, q);
    CreateKeepsCore(s, p, q);
    forall id | 0 <= id < |t.tasks| ensures WithinLease(t.tasks[id], t.procs, t.now) {
      assert id < |s.tasks| ==> WithinLease(s.tasks[id], s.procs, s.now);
    }
  }

  lemma BeatLeases(s: State, k: nat)
    requires Core(s) && Leased(s) && k < |s.beats|
    ensures Leased(AfterBeat(s, k))
  {
    var t := AfterBeat(s, k);
    forall id | 0 <= id < |t.tasks| ensures WithinLease(t.tasks[id], t.procs, t.now) {
      assert WithinLease(s.tasks[id], s.procs, s.now);
    }
  }

  lemma SpawnLeases(s: State, pc: Proc)
    requires Core(s) && Leased(s) && CanSpawn(pc)
    ensures Leased(s.(procs := s.procs + [pc]))
  {
    var t := s.(procs := s.procs + [pc]);
    forall id | 0 <= id < |t.tasks| ensures WithinLease(t.tasks[id], t.procs, t.now) {
      assert WithinLease(s.tasks[id], s.procs, s.now) && FenceOk(s.tasks[id], id, s.procs);
    }
  }

  lemma ScheduleLeases(s: State, p: ProcId, c: SchedulerStep)
    requires Leased(s) && ScheduleCan(s, p, c)
    ensures Leased(ScheduleNext(s, p, c))
  {
    forall id | 0 <= id < |s.tasks| ensures WithinLease(s.tasks[id], ScheduleNext(s, p, c).procs, s.now) {
      assert WithinLease(s.tasks[id], s.procs, s.now);
    }
  }

  lemma CrashLeases(s: State, p: ProcId, calls: nat)
    requires Leased(s) && CrashCan(s, p, calls)
    ensures Leased(AfterCrash(s, p, calls))
  {
    forall id | 0 <= id < |s.tasks| ensures WithinLease(s.tasks[id], AfterCrash(s, p, calls).procs, s.now) {
      assert WithinLease(s.tasks[id], s.procs, s.now);
    }
  }

  lemma StepLeases(s: State, a: Action)
    requires Core(s) && Leased(s) && Punctual(s, a)
    ensures Leased(Step(s, a))
  {
    if Enabled(s, a) {
      match a
      case Work(p, w) => WorkLeases(s, p, w);
      case Requeue(p, r) => RequeueLeases(s, p, r);
      case Create(p, q) => CreateLeases(s, p, q);
      case LandBeat(k) => BeatLeases(s, k);
      case Spawn(pc) => SpawnLeases(s, pc);
      case Schedule(p, c) => ScheduleLeases(s, p, c);
      case Crash(p, calls) => CrashLeases(s, p, calls);
      case _ =>
    }
  }

  lemma {:induction false} LeasedAlways(start: Time, acts: seq<Action>)
    requires Throughout(Init(start), acts, Punctual)
    ensures Leased(Exec(Init(start), acts))
  {
    if acts != [] {
      var front := acts[..|acts| - 1];
      CoreAlways(start, front);
      LeasedAlways(start, front);
      StepLeases(Exec(Init(start), front), acts[|acts| - 1]);
    }
  }

  // What one requeuer statement may touch: a row of its scan list, IN_PROGRESS
  // and silent for more than the threshold at that very moment.
  lemma ResetTakesOnlySilentRows(s: State, p: ProcId, r: RequeuerStep, id: TaskId)
    requires Core(s) && RequeueCan(s, p, r) && id < |s.tasks| && RequeueNext(s, p, r).tasks[id] != s.tasks[id]
    ensures
      var pc := s.procs[p];
      && pc.Resetting? && pc.ids[pc.i] == id
      && s.tasks[id].lockedAt.Some? && s.now - s.tasks[id].lockedAt.value > STALE_LOCK_THRESHOLD
      && (s.tasks[id].lockedAt.value >= pc.scanAt ==> s.now - pc.scanAt > STALE_LOCK_THRESHOLD)
      && RequeueNext(s, p, r).tasks == s.tasks[id := Release(s.tasks[id], Pending, s.now)]
  {
    assert RowOk(s.tasks[id], s.now);
  }

  // A lock taken or refreshed by a step is as young as the step.
  lemma OldLockUntouched(s: State, a: Action, id: TaskId)
    requires Core(s) && id < |Step(s, a).tasks|
    requires var r := Step(s, a).tasks[id]; r.status.InProgress? && r.lockedAt.Some? && r.lockedAt.value < s.now
    ensures id < |s.tasks| && s.tasks[id] == Step(s, a).tasks[id] && !BeatHits(s, a, id)
  {
    StepWritesOneRow(s, a);
    BeatLandsNow(s, a, id);
  }

  lemma BeatLandsNow(s: State, a: Action, id: TaskId)
    requires id < |Step(s, a).tasks|
    ensures BeatHits(s, a, id) ==> Step(s, a).tasks[id].lockedAt == Some(s.now)
  {
  }

  // A lock older than s has been there since before s, and unbeaten.
  lemma {:induction false} OldLocksAreOldClaims(s: State, acts: seq<Action>, id: TaskId)
    requires Core(s) && id < |Exec(s, acts).tasks|
    requires var r := Exec(s, acts).tasks[id]; r.status.InProgress? && r.lockedAt.Some? && r.lockedAt.value < s.now
    ensures id < |s.tasks| && s.tasks[id] == Exec(s, acts).tasks[id] && BeatTimes(s, acts, id) == []
  {
    if acts != [] {
      var front, a := acts[..|acts| - 1], acts[|acts| - 1];
      RunEvolves(s, front);
      OldLockUntouched(Exec(s, front), a, id);
      OldLocksAreOldClaims(s, front, id);
    }
  }

  // A pass under any interference: let s be its scan, or any state up to 30 s
  // before one of its statements. A row this statement changes was already
  // IN_PROGRESS at s, is still in that same claim untouched, and no beat for it
  // has landed since. So a row whose owner beat or finished after the scan is
  // left alone, and so is a row claimed again since.
  lemma PassTakesOnlySilentRows(s: State, acts: seq<Action>, p: ProcId, r: RequeuerStep, id: TaskId)
    requires Core(s) && RequeueCan(Exec(s, acts), p, r) && Exec(s, acts).now - s.now <= STALE_LOCK_THRESHOLD
    requires id < |Exec(s, acts).tasks| && RequeueNext(Exec(s, acts), p, r).tasks[id] != Exec(s, acts).tasks[id]
    ensures id < |s.tasks| && s.tasks[id].status.InProgress?
    ensures s.tasks[id] == Exec(s, acts).tasks[id] && BeatTimes(s, acts, id) == []
  {
    RunEvolves(s, acts);
    ResetTakesOnlySilentRows(Exec(s, acts), p, r, id);
    assert RowOk(Exec(s, acts).tasks[id], Exec(s, acts).now);
    OldLocksAreOldClaims(s, acts, id);
  }

  // In punctual runs no live worker is ever reclaimed: whoever is inside
  // processTask owns its row, no two of them share a task, and every result
  // write lands.
  lemma LiveWorkersKeepTheirTasks(start: Time, acts: seq<Action>, p: ProcId)
    requires Throughout(Init(start), acts, Punctual)
    requires p < |Exec(Init(start), acts).procs| && Inside(Exec(Init(start), acts).procs[p])
    ensures
      var s := Exec(Init(start), acts);
      var id := s.procs[p].id;
      && id < |s.tasks| && OwnedBy(s.tasks[id], p) && s.procs[p].task.attempts == s.tasks[id].attempts
      && !Stale(s.tasks[id], s.now)
      && (forall q :: 0 <= q < |s.procs| && Inside(s.procs[q]) && s.procs[q].id == id ==> q == p)
      && (s.procs[p].Writing? ==> |AfterWrite(s, p).log| > |s.log|)
  {
    CoreAlways(start, acts);
    LeasedAlways(start, acts);
    var s := Exec(Init(start), acts);
    var id := s.procs[p].id;
    assert WithinLease(s.tasks[id], s.procs, s.now) && FenceOk(s.tasks[id], id, s.procs);
  }

  // ---- a dead worker's row comes back ----

  // The ids a requeue pass has not reset yet.
  function Remaining(pc: Proc): seq<TaskId> {
    match pc
    case Resetting(_, ids, i, _) => if i <= |ids| then ids[i..] else []
    case Repushing(_, ids, i, _) => if i < |ids| then ids[i + 1..] else []
    case _ => []
  }

  predicate Overdue(r: Row, scanAt: Time) {
    r.status.InProgress? && r.lockedAt.Some? && r.lockedAt.value < scanAt - STALE_LOCK_THRESHOLD
  }

  // Every row that was stale at the scan, and is locked since before then, is
  // still ahead of the loop.
  ghost predicate PassCovers(pc: Proc, tasks: seq<Row>, now: Time) {
    (pc.Resetting? || pc.Repushing?) && pc.clean ==>
      && pc.scanAt <= now
      && (forall id :: 0 <= id < |tasks| && Overdue(tasks[id], pc.scanAt) ==> id in Remaining(pc))
  }

  // Behind the latest clean pass there is no stale lock.
  ghost predicate Recovers(s: State) {
    && (forall p :: 0 <= p < |s.procs| ==> PassCovers(s.procs[p], s.tasks, s.now))
    && s.lastPass <= s.now
    && (forall id :: 0 <= id < |s.tasks| ==> !Overdue(s.tasks[id], s.lastPass))
  }

  // A row locked now was locked at the same time before, or has just been
  // locked or beaten.
  predicate LockFresh(tasks: seq<Row>, id: TaskId, r: Row, now: Time) {
    r.status.InProgress? && r.lockedAt.Some? ==>
      || r.lockedAt.value == now
      || (id < |tasks| && tasks[id].status.InProgress? && tasks[id].lockedAt == r.lockedAt)
  }

  ghost predicate LocksFresh(s: State, t: State) {
    s.now <= t.now && forall id :: 0 <= id < |t.tasks| ==> LockFresh(s.tasks, id, t.tasks[id], t.now)
  }

  lemma TableStepFresh(s: State, t: State)
    requires TableStep(s, t)
    ensures LocksFresh(s, t)
  {
  }

  lemma PassCoversKept(s: State, t: State, pc: Proc)
    requires PassCovers(pc, s.tasks, s.now) && LocksFresh(s, t)
    ensures PassCovers(pc, t.tasks, t.now)
  {
    if (pc.Resetting? || pc.Repushing?) && pc.clean {
      forall id | 0 <= id < |t.tasks| && Overdue(t.tasks[id], pc.scanAt) ensures id in Remaining(pc) {
        assert LockFresh(s.tasks, id, t.tasks[id], t.now);
      }
    }
  }

  lemma RecoversKept(s: State, t: State, p: ProcId)
    requires Recovers(s) && LocksFresh(s, t) && Moves(s, t, p)
    requires p < |t.procs| ==> PassCovers(t.procs[p], t.tasks, t.now)
    requires t.lastPass == s.lastPass
             || (t.lastPass <= t.now && forall id :: 0 <= id < |t.tasks| ==> !Overdue(t.tasks[id], t.lastPass))
    ensures Recovers(t)
  {
    forall q | 0 <= q < |t.procs| ensures PassCovers(t.procs[q], t.tasks, t.now) {
      if q != p {
        PassCoversKept(s, t, s.procs[q]);
      }
    }
    forall id | 0 <= id < |t.tasks| ensures !Overdue(t.tasks[id], t.lastPass) {
      assert LockFresh(s.tasks, id, t.tasks[id], t.now);
    }
  }

  // The reset row leaves IN_PROGRESS, or was not stale any more.
  lemma ResetCovers(s: State, p: ProcId)
    requires Core(s) && Recovers(s) && RequeueCan(s, p, Reset)
    ensures p < |AfterReset(s, p).procs|
    ensures PassCovers(AfterReset(s, p).procs[p], AfterReset(s, p).tasks, s.now)
  {
    var t, pc := AfterReset(s, p), s.procs[p];
    assert PassCovers(pc, s.tasks, s.now);
    if pc.clean {
      assert pc.ids[pc.i..] == [pc.ids[pc.i]] + pc.ids[pc.i + 1..];
      forall id | 0 <= id < |t.tasks| && Overdue(t.tasks[id], pc.scanAt) ensures id in Remaining(t.procs[p]) {
        assert id in Remaining(pc);
      }
    }
  }

  lemma ScanCovers(s: State, p: ProcId, ids: seq<TaskId>)
    requires Core(s) && RequeueCan(s, p, Scan(ids))
    ensures PassCovers(Resetting(s.now, ids, 0, true), s.tasks, s.now)
  {
    assert ids[0..] == ids;
  }

  lemma RequeueRecovers(s: State, p: ProcId, r: RequeuerStep)
    requires Core(s) && Recovers(s) && RequeueCan(s, p, r)
    ensures Recovers(RequeueNext(s, p, r))
  {
    var t := RequeueNext(s, p, r);
    RequeueWritesOneRow(s, p, r);
    RequeueKeepsCore(s, p, r);
    TableStepFresh(s, t);
    assert PassCovers(s.procs[p], s.tasks, s.now);
    if r.Reset? {
      ResetCovers(s, p);
    } else if r.Scan? {
      ScanCovers(s, p, r.ids);
    }
    RecoversKept(s, t, p);
  }

  // The one process a step may move; nobody's number when there is none.
  function Mover(s: State, a: Action): ProcId {
    match a
    case Work(p, _) => p
    case Requeue(p, _) => p
    case Schedule(p, _) => p
    case Create(p, _) => p
    case Crash(p, _) => p
    case _ => |s.procs|
  }

  predicate InPass(pc: Proc) {
    pc.Resetting? || pc.Repushing?
  }

  lemma OthersCover(s: State, a: Action)
    requires Core(s) && Enabled(s, a) && !a.Requeue? && !a.Spawn?
    ensures
      var t := Step(s, a);
      && t.lastPass == s.lastPass && Moves(s, t, Mover(s, a))
      && (Mover(s, a) < |t.procs| ==> !InPass(t.procs[Mover(s, a)]))
  {
    match a
    case Work(p, w) => WorkMoves(s, p, w); WorkersMakeNoPass(s, p, w);
    case Create(p, q) => CreateKeepsCore(s, p, q);
    case _ =>
  }

  lemma WorkersMakeNoPass(s: State, p: ProcId, w: WorkerStep)
    requires WorkCan(s, p, w)
    ensures p < |WorkNext(s, p, w).procs| && !InPass(WorkNext(s, p, w).procs[p])
    ensures WorkNext(s, p, w).lastPass == s.lastPass
  {
  }

  lemma StepRecovers(s: State, a: Action)
    requires Core(s) && Recovers(s)
    ensures Recovers(Step(s, a))
  {
    if Enabled(s, a) {
      if a.Requeue? {
        RequeueRecovers(s, a.p, a.r);
      } else if a.Spawn? {
        SpawnRecovers(s, a.proc);
      } else {
        StepWritesOneRow(s, a);
        TableStepFresh(s, Step(s, a));
        OthersCover(s, a);
        RecoversKept(s, Step(s, a), Mover(s, a));
      }
    }
  }

  lemma SpawnRecovers(s: State, pc: Proc)
    requires Recovers(s) && CanSpawn(pc)
    ensures Recovers(s.(procs := s.procs + [pc]))
  {
    var t := s.(procs := s.procs + [pc]);
    forall p | 0 <= p < |t.procs| ensures PassCovers(t.procs[p], t.tasks, t.now) {
      assert p < |s.procs| ==> PassCovers(s.procs[p], s.tasks, s.now);
    }
  }

  lemma {:induction false} RecoversAlways(start: Time, acts: seq<Action>)
    ensures Recovers(Exec(Init(start), acts))
  {
    if acts != [] {
      var front := acts[..|acts| - 1];
      CoreAlways(start, front);
      RecoversAlways(start, front);
      StepRecovers(Exec(Init(start), front), acts[|acts| - 1]);
    }
  }

  // However heartbeats, claims and results interleave with the passes: while
  // the scan of the latest clean pass is at most gap old, no IN_PROGRESS row
  // has gone more than threshold + gap without a landed beat.
  lemma RecoveryBound(start: Time, acts: seq<Action>, gap: nat, id: TaskId)
    requires id < |Exec(Init(start), acts).tasks|
    requires Exec(Init(start), acts).now - Exec(Init(start), acts).lastPass <= gap
    ensures
      var s := Exec(Init(start), acts);
      var r := s.tasks[id];
      && (r.status.InProgress? ==> r.lockedAt.Some? && s.now - r.lockedAt.value <= STALE_LOCK_THRESHOLD + gap)
      && (gap == REQUEUE_INTERVAL && r.status.InProgress? ==> s.now - r.lockedAt.value <= 40_000)
  {
    CoreAlways(start, acts);
    RecoversAlways(start, acts);
    var s := Exec(Init(start), acts);
    assert RowOk(s.tasks[id], s.now) && !Overdue(s.tasks[id], s.lastPass);
  }
}
