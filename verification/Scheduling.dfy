// Schedules: when the worker's unscheduled claim is still never early, and how
// a scheduler pass gives every due task a token again.
module Scheduling {
  import opened TaskTable
  import opened Protocol
  import opened Safety

  // ---- no early start ----

  // No automation reports a trial end (none in the registry does), and the
  // API's clock is not ahead of the database's.
  predicate Prompt(s: State, a: Action) {
    && !(a.Work? && a.w.Finish? && a.w.outcome.DetectedTrialEnd?)
    && (a.Create? && a.q.Settle? ==> a.q.goNow <= s.now)
  }

  predicate Reached(tasks: seq<Row>, id: TaskId, now: Time) {
    id < |tasks| ==> ScheduleReached(tasks[id], now)
  }

  predicate OnTime(pc: Proc, tasks: seq<Row>, now: Time) {
    match pc
    case Popped(id) => Reached(tasks, id, now)
    case Pushing(id) => Reached(tasks, id, now)
    case Writing(_, _, verdict) => !verdict.ToSchedule?
    case Repushing(_, ids, i, _) => i < |ids| ==> Reached(tasks, ids[i], now)
    case Sweeping(found, _, _) => forall k :: 0 <= k < |found| ==> Reached(tasks, found[k].id, now)
    case Returned(_, id, task) => id < |tasks| && task.scheduledFor == tasks[id].scheduledFor
    case Enqueuing(_, id, _) => Reached(tasks, id, now)
    case _ => true
  }

  ghost predicate AllOnTime(s: State) {
    && (forall id :: 0 <= id < |s.tasks| && s.tasks[id].attempts > 0 ==> ScheduleReached(s.tasks[id], s.now))
    && (forall k :: 0 <= k < |s.queue| ==> Reached(s.tasks, s.queue[k], s.now))
    && (forall p :: 0 <= p < |s.procs| ==> OnTime(s.procs[p], s.tasks, s.now))
  }

  // Schedules stay as they are; a row is first attempted only when due.
  ghost predicate SchedulesKept(s: State, t: State) {
    && s.now <= t.now && |s.tasks| <= |t.tasks|
    && (forall id :: 0 <= id < |s.tasks| ==>
          t.tasks[id].scheduledFor == s.tasks[id].scheduledFor
          && (t.tasks[id].attempts > s.tasks[id].attempts ==> ScheduleReached(t.tasks[id], t.now)))
    && (forall id :: |s.tasks| <= id < |t.tasks| ==> t.tasks[id].attempts == 0)
  }

  lemma OnTimeKept(s: State, t: State, pc: Proc)
    requires OnTime(pc, s.tasks, s.now) && ProcOk(pc, s.tasks) && SchedulesKept(s, t)
    ensures OnTime(pc, t.tasks, t.now)
  {
    if pc.Sweeping? {
      forall k | 0 <= k < |pc.found| ensures Reached(t.tasks, pc.found[k].id, t.now) {
        assert FetchOk(pc.found[k], s.tasks) && Reached(s.tasks, pc.found[k].id, s.now);
      }
    }
  }

  lemma AllOnTimeKept(s: State, t: State, p: ProcId)
    requires Core(s) && AllOnTime(s) && SchedulesKept(s, t) && Moves(s, t, p)
    requires p < |t.procs| ==> OnTime(t.procs[p], t.tasks, t.now)
    requires forall k :: 0 <= k < |t.queue| ==> t.queue[k] in s.queue || Reached(t.tasks, t.queue[k], t.now)
    ensures AllOnTime(t)
  {
    forall q | 0 <= q < |t.procs| ensures OnTime(t.procs[q], t.tasks, t.now) {
      if q != p {
        assert ProcOk(s.procs[q], s.tasks);
        OnTimeKept(s, t, s.procs[q]);
      }
    }
  }

  lemma WorkSchedules(s: State, p: ProcId, w: WorkerStep)
    requires Core(s) && AllOnTime(s) && WorkCan(s, p, w) && Prompt(s, Work(p, w))
    ensures SchedulesKept(s, WorkNext(s, p, w))
  {
    assert ProcOk(s.procs[p], s.tasks) && OnTime(s.procs[p], s.tasks, s.now);
  }

  lemma WorkActorOnTime(s: State, p: ProcId, w: WorkerStep)
    requires Core(s) && AllOnTime(s) && WorkCan(s, p, w) && Prompt(s, Work(p, w))
    ensures p < |WorkNext(s, p, w).procs|
    ensures var t := WorkNext(s, p, w); OnTime(t.procs[p], t.tasks, t.now)
  {
    assert ProcOk(s.procs[p], s.tasks) && OnTime(s.procs[p], s.tasks, s.now);
    if w.Write? {
      assert OwnedBy(s.tasks[s.procs[p].id], p) ==> RowOk(s.tasks[s.procs[p].id], s.now);
    }
  }

  lemma WorkListOnTime(s: State, p: ProcId, w: WorkerStep)
    requires Core(s) && AllOnTime(s) && WorkCan(s, p, w)
    ensures var t := WorkNext(s, p, w);
            forall k :: 0 <= k < |t.queue| ==> t.queue[k] in s.queue || Reached(t.tasks, t.queue[k], t.now)
  {
    assert ProcOk(s.procs[p], s.tasks) && OnTime(s.procs[p], s.tasks, s.now);
  }

  lemma WorkOnTime(s: State, p: ProcId, w: WorkerStep)
    requires Core(s) && AllOnTime(s) && WorkCan(s, p, w) && Prompt(s, Work(p, w))
    ensures AllOnTime(WorkNext(s, p, w))
  {
    WorkSchedules(s, p, w);
    WorkMoves(s, p, w);
    WorkActorOnTime(s, p, w);
    WorkListOnTime(s, p, w);
    AllOnTimeKept(s, WorkNext(s, p, w), p);
  }

  lemma RequeueOnTime(s: State, p: ProcId, r: RequeuerStep)
    requires Core(s) && AllOnTime(s) && RequeueCan(s, p, r)
    ensures AllOnTime(RequeueNext(s, p, r))
  {
    var t := RequeueNext(s, p, r);
    assert ProcOk(s.procs[p], s.tasks) && OnTime(s.procs[p], s.tasks, s.now);
    if r.Reset? {
      var id := s.procs[p].ids[s.procs[p].i];
      assert RowOk(s.tasks[id], s.now);
    }
    AllOnTimeKept(s, t, p);
  }

  lemma ScheduleOnTime(s: State, p: ProcId, c: SchedulerStep)
    requires Core(s) && AllOnTime(s) && ScheduleCan(s, p, c)
    ensures AllOnTime(ScheduleNext(s, p, c))
  {
    var t := ScheduleNext(s, p, c);
    assert OnTime(s.procs[p], s.tasks, s.now);
    AllOnTimeKept(s, t, p);
  }

  lemma CreateSchedules(s: State, p: ProcId, q: CreateStep)
    requires Core(s) && AllOnTime(s) && CreateCan(s, p, q) && Prompt(s, Create(p, q))
    ensures var t := CreateNext(s, p, q);
            SchedulesKept(s, t) && Moves(s, t, p) && OnTime(t.procs[p], t.tasks, t.now)
  {
    assert ProcOk(s.procs[p], s.tasks) && OnTime(s.procs[p], s.tasks, s.now);
  }

  lemma CreateOnTime(s: State, p: ProcId, q: CreateStep)
    requires Core(s) && AllOnTime(s) && CreateCan(s, p, q) && Prompt(s, Create(p, q))
    ensures AllOnTime(CreateNext(s, p, q))
  {
    var t := CreateNext(s, p, q);
    CreateSchedules(s, p, q);
    assert ProcOk(s.procs[p], s.tasks) && OnTime(s.procs[p], s.tasks, s.now);
    AllOnTimeKept(s, t, p);
  }

  lemma SpawnOnTime(s: State, pc: Proc)
    requires AllOnTime(s) && CanSpawn(pc)
    ensures AllOnTime(s.(procs := s.procs + [pc]))
  {
    var t := s.(procs := s.procs + [pc]);
    forall p | 0 <= p < |t.procs| ensures OnTime(t.procs[p], t.tasks, t.now) {
      assert p < |s.procs| ==> OnTime(s.procs[p], s.tasks, s.now);
    }
  }

  lemma StepOnTime(s: State, a: Action)
    requires Core(s) && AllOnTime(s) && Prompt(s, a)
    ensures AllOnTime(Step(s, a))
  {
    if Enabled(s, a) {
      var t := Step(s, a);
      match a
      case Work(p, w) => WorkOnTime(s, p, w);
      case Requeue(p, r) => RequeueOnTime(s, p, r);
      case Schedule(p, c) => ScheduleOnTime(s, p, c);
      case Create(p, q) => CreateOnTime(s, p, q);
      case Spawn(pc) => SpawnOnTime(s, pc);
      case Crash(p, _) => AllOnTimeKept(s, t, p);
      case _ => AllOnTimeKept(s, t, |s.procs|);
    }
  }

  lemma {:induction false} OnTimeAlways(start: Time, acts: seq<Action>)
    requires Throughout(Init(start), acts, Prompt)
    ensures AllOnTime(Exec(Init(start), acts))
  {
    if acts != [] {
      var front := acts[..|acts| - 1];
      CoreAlways(start, front);
      OnTimeAlways(start, front);
      StepOnTime(Exec(Init(start), front), acts[|acts| - 1]);
    }
  }

  // The worker's claim does not test the schedule, yet in such runs it never
  // lands early: a PENDING row it takes would pass the stricter Go gate too.
  lemma NoEarlyClaim(start: Time, acts: seq<Action>, p: ProcId)
    requires Throughout(Init(start), acts, Prompt) && WorkCan(Exec(Init(start), acts), p, Claim)
    ensures
      var s := Exec(Init(start), acts);
      && s.procs[p].id < |s.tasks|
      && (var r := s.tasks[s.procs[p].id];
          && ScheduleReached(r, s.now)
          && (Claimable(r) ==> GoClaimGate(r, s.now) || r.status.Retry?))
  {
    CoreAlways(start, acts);
    OnTimeAlways(start, acts);
    var s := Exec(Init(start), acts);
    assert ProcOk(s.procs[p], s.tasks) && OnTime(s.procs[p], s.tasks, s.now);
  }

  // ---- a sweep hands out tokens again ----

  ghost predicate PoppedSomewhere(procs: seq<Proc>, id: TaskId) {
    exists p :: 0 <= p < |procs| && procs[p] == Popped(id)
  }

  // Attempted since it was fetched, or holding a token again, or its new token
  // was dropped by a worker's crash.
  ghost predicate Healed(s: State, f: Fetched) {
    && f.id < |s.tasks|
    && (|| s.tasks[f.id].attempts > f.row.attempts
        || f.id in s.queue || PoppedSomewhere(s.procs, f.id) || f.id in s.lost)
  }

  lemma PoppedStays(s: State, t: State, p: ProcId, id: TaskId)
    requires Moves(s, t, p) && PoppedSomewhere(s.procs, id)
    requires p < |s.procs| ==> s.procs[p] != Popped(id)
    ensures PoppedSomewhere(t.procs, id)
  {
    var q :| 0 <= q < |s.procs| && s.procs[q] == Popped(id);
    assert t.procs[q] == s.procs[q];
  }

  lemma WorkHeals(s: State, p: ProcId, w: WorkerStep, f: Fetched)
    requires Core(s) && WorkCan(s, p, w) && FetchOk(f, s.tasks) && Healed(s, f)
    ensures Healed(WorkNext(s, p, w), f)
  {
    var t := WorkNext(s, p, w);
    WorkMoves(s, p, w);
    WorkWritesOneRow(s, p, w);
    TableStepOk(s, t);
    assert Grows(s.tasks[f.id], t.tasks[f.id]);
    if PoppedSomewhere(s.procs, f.id) && s.procs[p] != Popped(f.id) {
      PoppedStays(s, t, p, f.id);
    }
    if w.Pop? && f.id in s.queue {
      assert s.queue == s.queue[..|s.queue| - 1] + [s.queue[|s.queue| - 1]];
      assert f.id in t.queue || t.procs[p] == Popped(f.id);
    }
  }

  // Neither tokens nor popped ids disappear, except into the lost set.
  ghost predicate KeepsTokens(s: State, t: State) {
    && |s.procs| <= |t.procs|
    && (forall id :: id in s.queue ==> id in t.queue)
    && (forall id :: id in s.lost ==> id in t.lost || id in t.queue)
    && (forall q :: 0 <= q < |s.procs| && s.procs[q].Popped? ==> t.procs[q] == s.procs[q] || s.procs[q].id in t.lost)
  }

  lemma RequeueKeepsTokens(s: State, p: ProcId, r: RequeuerStep)
    requires RequeueCan(s, p, r)
    ensures KeepsTokens(s, RequeueNext(s, p, r))
  {
  }

  lemma CreateKeepsTokens(s: State, p: ProcId, q: CreateStep)
    requires CreateCan(s, p, q)
    ensures KeepsTokens(s, CreateNext(s, p, q))
  {
  }

  lemma OthersKeepTokens(s: State, a: Action)
    requires Enabled(s, a) && !a.Work?
    ensures KeepsTokens(s, Step(s, a))
  {
    match a
    case Requeue(p, r) => RequeueKeepsTokens(s, p, r);
    case Create(p, q) => CreateKeepsTokens(s, p, q);
    case _ =>
  }

  lemma KeptTokensHeal(s: State, t: State, f: Fetched)
    requires Evolves(s, t) && KeepsTokens(s, t) && Healed(s, f)
    ensures Healed(t, f)
  {
    assert Grows(s.tasks[f.id], t.tasks[f.id]);
    if PoppedSomewhere(s.procs, f.id) {
      var q :| 0 <= q < |s.procs| && s.procs[q] == Popped(f.id);
      assert t.procs[q] == s.procs[q] || f.id in t.lost;
    }
  }

  // Rows already passed by a loop whose pushes all succeeded.
  ghost predicate SweepsHeal(s: State) {
    forall p, k ::
      0 <= p < |s.procs| && s.procs[p].Sweeping? && s.procs[p].allPushed
      && 0 <= k < s.procs[p].i && k < |s.procs[p].found|
      ==> Healed(s, s.procs[p].found[k])
  }

  lemma OnlySchedulersSweep(s: State, a: Action)
    requires Core(s) && Enabled(s, a) && !a.Schedule?
    ensures
      var t := Step(s, a);
      forall p :: 0 <= p < |t.procs| && t.procs[p].Sweeping? ==> p < |s.procs| && t.procs[p] == s.procs[p]
  {
    match a
    case Work(p, w) => WorkMoves(s, p, w); WorkersNeverSweep(s, p, w);
    case Requeue(p, r) => RequeuersNeverSweep(s, p, r);
    case Create(p, w) => CreatorsNeverSweep(s, p, w);
    case _ =>
  }

  lemma WorkersNeverSweep(s: State, p: ProcId, w: WorkerStep)
    requires WorkCan(s, p, w)
    ensures p < |WorkNext(s, p, w).procs| && !WorkNext(s, p, w).procs[p].Sweeping?
  {
  }

  lemma RequeuersNeverSweep(s: State, p: ProcId, r: RequeuerStep)
    requires RequeueCan(s, p, r)
    ensures Moves(s, RequeueNext(s, p, r), p) && !RequeueNext(s, p, r).procs[p].Sweeping?
  {
  }

  lemma CreatorsNeverSweep(s: State, p: ProcId, w: CreateStep)
    requires CreateCan(s, p, w)
    ensures
      var t := CreateNext(s, p, w);
      |t.procs| == |s.procs| && forall q :: 0 <= q < |s.procs| ==> t.procs[q] == s.procs[q] || !t.procs[q].Sweeping?
  {
  }

  // A row counts as passed because it was already, or because its id was just pushed.
  lemma SweepMoves(s: State, p: ProcId, c: SchedulerStep, q: ProcId, k: nat)
    requires ScheduleCan(s, p, c) && q < |s.procs|
    requires var pc := ScheduleNext(s, p, c).procs[q]; pc.Sweeping? && pc.allPushed && k < pc.i && k < |pc.found|
    ensures
      var t := ScheduleNext(s, p, c);
      && s.procs[q].Sweeping? && s.procs[q].found == t.procs[q].found && s.procs[q].allPushed
      && (k < s.procs[q].i || t.procs[q].found[k].id in t.queue)
  {
  }

  lemma HealedStep(s: State, a: Action, f: Fetched)
    requires Core(s) && Enabled(s, a) && FetchOk(f, s.tasks) && Healed(s, f)
    ensures Healed(Step(s, a), f)
  {
    if a.Work? {
      WorkHeals(s, a.p, a.w, f);
    } else {
      OthersKeepTokens(s, a);
      StepEvolves(s, a);
      KeptTokensHeal(s, Step(s, a), f);
    }
  }

  lemma SweepsHealStep(s: State, a: Action)
    requires Core(s) && SweepsHeal(s) && Enabled(s, a)
    ensures SweepsHeal(Step(s, a))
  {
    var t := Step(s, a);
    CoreStep(s, a);
    forall p, k | 0 <= p < |t.procs| && t.procs[p].Sweeping? && t.procs[p].allPushed
                  && 0 <= k < t.procs[p].i && k < |t.procs[p].found|
      ensures Healed(t, t.procs[p].found[k])
    {
      assert ProcOk(t.procs[p], t.tasks);
      assert FetchOk(t.procs[p].found[k], t.tasks);
      if a.Schedule? {
        assert |t.procs| == |s.procs|;
        SweepMoves(s, a.p, a.c, p, k);
      } else {
        OnlySchedulersSweep(s, a);
      }
      if t.procs[p].found[k].id !in t.queue {
        assert ProcOk(s.procs[p], s.tasks);
        assert FetchOk(s.procs[p].found[k], s.tasks);
        HealedStep(s, a, s.procs[p].found[k]);
      }
    }
  }

  lemma {:induction false} SweepsHealAlways(start: Time, acts: seq<Action>)
    ensures SweepsHeal(Exec(Init(start), acts))
  {
    if acts != [] {
      var front := acts[..|acts| - 1];
      CoreAlways(start, front);
      SweepsHealAlways(start, front);
      if Enabled(Exec(Init(start), front), acts[|acts| - 1]) {
        SweepsHealStep(Exec(Init(start), front), acts[|acts| - 1]);
      }
    }
  }

  // At the end of a pass whose pushes all succeeded, every row the pass fetched
  // and that has not been attempted since is PENDING and has a token on the
  // list or in a worker's hand, unless a crash dropped the new token too.
  lemma PassHeals(start: Time, acts: seq<Action>, p: ProcId, k: nat)
    requires p < |Exec(Init(start), acts).procs|
    requires var pc := Exec(Init(start), acts).procs[p];
             pc.Sweeping? && pc.allPushed && pc.i >= |pc.found| && k < |pc.found|
    ensures
      var s := Exec(Init(start), acts);
      var f := s.procs[p].found[k];
      && f.id < |s.tasks|
      && (s.tasks[f.id].attempts == f.row.attempts ==>
            s.tasks[f.id].status.Pending?
            && (f.id in s.queue || PoppedSomewhere(s.procs, f.id) || f.id in s.lost))
  {
    CoreAlways(start, acts);
    SweepsHealAlways(start, acts);
    var s := Exec(Init(start), acts);
    assert ProcOk(s.procs[p], s.tasks);
    assert FetchOk(s.procs[p].found[k], s.tasks) && Healed(s, s.procs[p].found[k]);
  }
}
