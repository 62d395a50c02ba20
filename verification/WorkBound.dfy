// Model calls: every claim runs its automation at most once, even when the
// claim is lost and another worker runs the same task beside it.
module WorkBound {
  import opened TaskTable
  import opened Protocol
  import opened Safety
  import opened History
  import opened Accounting

  function CallsOf(work: seq<Effort>, id: TaskId): nat {
    if work == [] then 0
    else CallsOf(work[..|work| - 1], id) + (if work[|work| - 1].id == id then work[|work| - 1].calls else 0)
  }

  function RunsNow(pc: Proc, id: TaskId): nat {
    if pc.Running? && pc.id == id then 1 else 0
  }

  // How many workers are inside the automation for this task right now.
  function RunningOn(procs: seq<Proc>, id: TaskId): nat {
    if procs == [] then 0
    else RunningOn(procs[..|procs| - 1], id) + RunsNow(procs[|procs| - 1], id)
  }

  lemma CallsPush(work: seq<Effort>, e: Effort, id: TaskId)
    ensures CallsOf(work + [e], id) == CallsOf(work, id) + (if e.id == id then e.calls else 0)
  {
    assert (work + [e])[..|work|] == work;
  }

  lemma RunningPush(procs: seq<Proc>, pc: Proc, id: TaskId)
    ensures RunningOn(procs + [pc], id) == RunningOn(procs, id) + RunsNow(pc, id)
  {
    assert (procs + [pc])[..|procs|] == procs;
  }

  lemma {:induction false} RunningUpdate(procs: seq<Proc>, p: ProcId, pc: Proc, id: TaskId)
    requires p < |procs|
    ensures RunningOn(procs[p := pc], id) + RunsNow(procs[p], id) == RunningOn(procs, id) + RunsNow(pc, id)
  {
    var n := |procs| - 1;
    if p == n {
      assert procs[p := pc][..n] == procs[..n];
    } else {
      assert procs[p := pc][..n] == procs[..n][p := pc];
      RunningUpdate(procs[..n], p, pc, id);
    }
  }

  lemma {:induction false} NobodyRuns(procs: seq<Proc>, id: TaskId)
    requires forall p :: 0 <= p < |procs| ==> RunsNow(procs[p], id) == 0
    ensures RunningOn(procs, id) == 0
  {
    if procs != [] {
      NobodyRuns(procs[..|procs| - 1], id);
    }
  }

  lemma {:induction false} NoCallsYet(work: seq<Effort>, id: TaskId)
    requires forall i :: 0 <= i < |work| ==> work[i].id != id
    ensures CallsOf(work, id) == 0
  {
    if work != [] {
      NoCallsYet(work[..|work| - 1], id);
    }
  }

  // Calls made, plus the most that the runs in progress can still make.
  ghost predicate Budgeted(s: State, id: TaskId)
    requires id < |s.tasks|
  {
    CallsOf(s.work, id) + CallBound(s.tasks[id].service) * RunningOn(s.procs, id)
      <= CallBound(s.tasks[id].service) * s.tasks[id].attempts
  }

  ghost predicate WorkOk(s: State) {
    && (forall i :: 0 <= i < |s.work| ==> s.work[i].id < |s.tasks|)
    && (forall id :: 0 <= id < |s.tasks| ==> Budgeted(s, id))
  }

  // A step ends at most one automation run of this task, with its calls, and
  // starts one only by adding an attempt.
  ghost predicate SpendsBy(s: State, t: State, id: TaskId, ran: nat, calls: nat)
    requires id < |s.tasks| && id < |t.tasks|
  {
    && calls <= CallBound(s.tasks[id].service) * ran
    && CallsOf(t.work, id) == CallsOf(s.work, id) + calls
    && RunningOn(t.procs, id) + ran <= RunningOn(s.procs, id) + (t.tasks[id].attempts - s.tasks[id].attempts)
  }

  ghost predicate Spends(s: State, t: State, id: TaskId)
    requires id < |s.tasks| && id < |t.tasks|
  {
    exists ran: nat, calls: nat :: SpendsBy(s, t, id, ran, calls)
  }

  lemma SpendsKeeps(s: State, t: State, id: TaskId)
    requires id < |s.tasks| && id < |t.tasks| && Budgeted(s, id) && Spends(s, t, id)
    requires Grows(s.tasks[id], t.tasks[id])
    ensures Budgeted(t, id)
  {
    var bound := CallBound(s.tasks[id].service);
    var ran: nat, calls: nat :| SpendsBy(s, t, id, ran, calls);
    var gained := t.tasks[id].attempts - s.tasks[id].attempts;
    Scale(bound, RunningOn(t.procs, id) + ran, RunningOn(s.procs, id) + gained);
    Distribute(bound, RunningOn(t.procs, id), ran);
    Distribute(bound, RunningOn(s.procs, id), gained);
    Distribute(bound, s.tasks[id].attempts, gained);
  }

  lemma Scale(k: nat, a: int, b: int)
    requires a <= b
    ensures k * a <= k * b
  {
  }

  lemma Distribute(k: nat, a: int, b: int)
    ensures k * (a + b) == k * a + k * b
  {
  }

  lemma WorkMovesOne(s: State, p: ProcId, w: WorkerStep)
    requires WorkCan(s, p, w)
    ensures p < |WorkNext(s, p, w).procs| && WorkNext(s, p, w).procs == s.procs[p := WorkNext(s, p, w).procs[p]]
  {
  }

  // Only a landed claim starts a run, and it adds an attempt; only Finish ends one.
  lemma WorkRuns(s: State, p: ProcId, w: WorkerStep, id: TaskId)
    requires Core(s) && WorkCan(s, p, w) && id < |s.tasks|
    ensures
      var t := WorkNext(s, p, w);
      && id < |t.tasks| && p < |t.procs|
      && RunsNow(t.procs[p], id) + (if w.Finish? && s.procs[p].id == id then 1 else 0)
           <= RunsNow(s.procs[p], id) + (t.tasks[id].attempts - s.tasks[id].attempts)
  {
    WorkWritesOneRow(s, p, w);
    TableStepOk(s, WorkNext(s, p, w));
  }

  lemma WorkCalls(s: State, p: ProcId, w: WorkerStep)
    requires WorkCan(s, p, w)
    ensures WorkNext(s, p, w).work == if w.Finish? then s.work + [Effort(s.procs[p].id, w.calls)] else s.work
  {
  }

  lemma WorkSpends(s: State, p: ProcId, w: WorkerStep, id: TaskId)
    requires Core(s) && WorkCan(s, p, w) && id < |s.tasks|
    ensures id < |WorkNext(s, p, w).tasks| && Spends(s, WorkNext(s, p, w), id)
  {
    var t := WorkNext(s, p, w);
    WorkMovesOne(s, p, w);
    WorkRuns(s, p, w, id);
    WorkCalls(s, p, w);
    RunningUpdate(s.procs, p, t.procs[p], id);
    if w.Finish? && s.procs[p].id == id {
      assert ProcOk(s.procs[p], s.tasks);
      CallsPush(s.work, Effort(id, w.calls), id);
      assert SpendsBy(s, t, id, 1, w.calls);
    } else {
      if w.Finish? {
        CallsPush(s.work, Effort(s.procs[p].id, w.calls), id);
      }
      assert SpendsBy(s, t, id, 0, 0);
    }
  }

  lemma CrashSpends(s: State, p: ProcId, calls: nat, id: TaskId)
    requires Core(s) && CrashCan(s, p, calls) && id < |s.tasks|
    ensures Spends(s, AfterCrash(s, p, calls), id)
  {
    var t, pc := AfterCrash(s, p, calls), s.procs[p];
    assert ProcOk(pc, s.tasks);
    assert t.procs == s.procs[p := Gone];
    RunningUpdate(s.procs, p, Gone, id);
    if pc.Running? {
      CallsPush(s.work, Effort(pc.id, calls), id);
    }
    var here := pc.Running? && pc.id == id;
    assert SpendsBy(s, t, id, if here then 1 else 0, if here then calls else 0);
  }

  // Steps of the requeuer, the scheduler and the handler run no automation.
  lemma QuietSpends(s: State, t: State, p: ProcId, id: TaskId)
    requires id < |s.tasks| && id < |t.tasks| && Grows(s.tasks[id], t.tasks[id])
    requires t.work == s.work
    requires t.procs == s.procs || (p < |s.procs| && p < |t.procs| && t.procs == s.procs[p := t.procs[p]]
                                    && RunsNow(t.procs[p], id) <= RunsNow(s.procs[p], id))
    ensures Spends(s, t, id)
  {
    if t.procs != s.procs {
      RunningUpdate(s.procs, p, t.procs[p], id);
    }
    assert SpendsBy(s, t, id, 0, 0);
  }

  lemma LoopsMoveOne(s: State, a: Action)
    requires Enabled(s, a) && (a.Requeue? || a.Schedule? || a.Create?)
    ensures
      var t := Next(s, a);
      && a.p < |s.procs| && a.p < |t.procs| && t.work == s.work
      && t.procs == s.procs[a.p := t.procs[a.p]] && !t.procs[a.p].Running?
  {
  }

  lemma StepSpends(s: State, a: Action, id: TaskId)
    requires Core(s) && id < |s.tasks|
    ensures id < |Step(s, a).tasks| && Spends(s, Step(s, a), id)
  {
    StepEvolves(s, a);
    if !Enabled(s, a) {
      QuietSpends(s, s, 0, id);
    } else {
      match a
      case Work(p, w) => WorkSpends(s, p, w, id);
      case Crash(p, calls) => CrashSpends(s, p, calls, id);
      case Spawn(pc) => SpawnSpends(s, pc, id);
      case Requeue(p, _) => LoopSpends(s, a, id);
      case Schedule(p, _) => LoopSpends(s, a, id);
      case Create(p, _) => LoopSpends(s, a, id);
      case _ => QuietSpends(s, Step(s, a), 0, id);
    }
  }

  lemma SpawnSpends(s: State, pc: Proc, id: TaskId)
    requires id < |s.tasks| && CanSpawn(pc)
    ensures Spends(s, s.(procs := s.procs + [pc]), id)
  {
    RunningPush(s.procs, pc, id);
    assert SpendsBy(s, s.(procs := s.procs + [pc]), id, 0, 0);
  }

  lemma LoopSpends(s: State, a: Action, id: TaskId)
    requires Core(s) && id < |s.tasks| && Enabled(s, a) && (a.Requeue? || a.Schedule? || a.Create?)
    ensures id < |Step(s, a).tasks| && Spends(s, Step(s, a), id)
  {
    StepEvolves(s, a);
    LoopsMoveOne(s, a);
    QuietSpends(s, Step(s, a), a.p, id);
  }

  lemma WorkIdsKnown(s: State, a: Action)
    requires Core(s) && forall i :: 0 <= i < |s.work| ==> s.work[i].id < |s.tasks|
    ensures forall i :: 0 <= i < |Step(s, a).work| ==> Step(s, a).work[i].id < |s.tasks|
  {
    if Enabled(s, a) && (a.Crash? || a.Work?) {
      assert ProcOk(s.procs[a.p], s.tasks);
    }
  }

  lemma WorkStep(s: State, a: Action)
    requires Core(s) && WorkOk(s)
    ensures WorkOk(Step(s, a))
  {
    var t := Step(s, a);
    StepEvolves(s, a);
    CoreStep(s, a);
    WorkIdsKnown(s, a);
    forall id | 0 <= id < |t.tasks| ensures Budgeted(t, id) {
      if id < |s.tasks| {
        StepSpends(s, a, id);
        SpendsKeeps(s, t, id);
      } else {
        StepWritesOneRow(s, a);
        NewRowsAreQuiet(s, t, id);
      }
    }
  }

  // A running worker's snapshot has an attempt; a new row has none.
  lemma NewRowsAreQuiet(s: State, t: State, id: TaskId)
    requires Core(t) && TableStep(s, t) && |s.tasks| <= id < |t.tasks|
    requires forall i :: 0 <= i < |t.work| ==> t.work[i].id < |s.tasks|
    ensures Budgeted(t, id)
  {
    forall p | 0 <= p < |t.procs| ensures RunsNow(t.procs[p], id) == 0 {
      assert ProcOk(t.procs[p], t.tasks);
    }
    NobodyRuns(t.procs, id);
    NoCallsYet(t.work, id);
  }

  lemma {:induction false} WorkAlways(start: Time, acts: seq<Action>)
    ensures WorkOk(Exec(Init(start), acts))
  {
    if acts != [] {
      var front := acts[..|acts| - 1];
      CoreAlways(start, front);
      WorkAlways(start, front);
      WorkStep(Exec(Init(start), front), acts[|acts| - 1]);
    }
  }

  // All model calls ever made for one task, by all workers together.
  lemma CallsAreBounded(start: Time, acts: seq<Action>, id: TaskId)
    requires id < |Exec(Init(start), acts).tasks|
    ensures
      var s := Exec(Init(start), acts);
      var t := Tallied(EventsOf(s.log, id));
      && CallsOf(s.work, id) <= MAX_MODEL_CALLS * (s.tasks[id].maxAttempts + t.reclaims + t.schedules)
      && (t.reclaims == 0 && t.schedules == 0 ==> CallsOf(s.work, id) <= MAX_MODEL_CALLS * s.tasks[id].maxAttempts)
      && (Lower(s.tasks[id].service) != "universal" ==> CallsOf(s.work, id) == 0)
  {
    WorkAlways(start, acts);
    ClaimAccounting(start, acts, id);
    var s := Exec(Init(start), acts);
    var t := Tallied(EventsOf(s.log, id));
    assert Budgeted(s, id);
    BudgetBound(CallsOf(s.work, id), CallBound(s.tasks[id].service), RunningOn(s.procs, id), s.tasks[id].attempts,
                s.tasks[id].maxAttempts + t.reclaims + t.schedules);
  }

  lemma BudgetBound(calls: nat, bound: nat, running: nat, attempts: nat, most: nat)
    requires calls + bound * running <= bound * attempts && attempts <= most && bound <= MAX_MODEL_CALLS
    ensures calls <= MAX_MODEL_CALLS * most && (bound == 0 ==> calls == 0)
  {
    Scale(bound, 0, running);
    Scale(bound, attempts, most);
    Scale(most, bound, MAX_MODEL_CALLS);
  }
}
