// Workers left to themselves finish: a bound on the steps they can still take,
// and what every row looks like when they are done.
module Drain {
  import opened TaskTable
  import opened Protocol
  import opened Safety
  import opened Delivery
  import opened Ordering

  function Max(a: int, b: int): int {
    if a >= b then a else b
  }

  // Claims still possible without a requeue. A claimable row always has one
  // more, however many attempts it has used.
  function ClaimsLeft(r: Row): nat {
    if Claimable(r) then Max(1, r.maxAttempts - r.attempts)
    else if r.status.InProgress? then Max(0, r.maxAttempts - r.attempts)
    else 0
  }

  // Steps a worker still owes before it waits on the list again.
  function Owed(pc: Proc): nat {
    match pc
    case Popped(_) => 1
    case Pushing(_) => 3
    case Writing(_, _, _) => 4
    case Running(_, _) => 5
    case _ => 0
  }

  function SumClaims(tasks: seq<Row>): nat {
    if tasks == [] then 0 else SumClaims(tasks[..|tasks| - 1]) + ClaimsLeft(tasks[|tasks| - 1])
  }

  function SumOwed(procs: seq<Proc>): nat {
    if procs == [] then 0 else SumOwed(procs[..|procs| - 1]) + Owed(procs[|procs| - 1])
  }

  lemma {:induction false} SumClaimsUpdate(tasks: seq<Row>, id: TaskId, r: Row)
    requires id < |tasks|
    ensures SumClaims(tasks[id := r]) + ClaimsLeft(tasks[id]) == SumClaims(tasks) + ClaimsLeft(r)
  {
    var n := |tasks| - 1;
    if id == n {
      assert tasks[id := r][..n] == tasks[..n];
    } else {
      assert tasks[id := r][..n] == tasks[..n][id := r];
      SumClaimsUpdate(tasks[..n], id, r);
    }
  }

  lemma {:induction false} SumOwedUpdate(procs: seq<Proc>, p: ProcId, pc: Proc)
    requires p < |procs|
    ensures SumOwed(procs[p := pc]) + Owed(procs[p]) == SumOwed(procs) + Owed(pc)
  {
    var n := |procs| - 1;
    if p == n {
      assert procs[p := pc][..n] == procs[..n];
    } else {
      assert procs[p := pc][..n] == procs[..n][p := pc];
      SumOwedUpdate(procs[..n], p, pc);
    }
  }

  function Measure(s: State): nat {
    6 * SumClaims(s.tasks) + 2 * |s.queue| + SumOwed(s.procs)
  }

  // Nothing but workers and the clock: no crash, no push from outside, and no
  // automation that reports a trial end.
  predicate Draining(s: State, a: Action) {
    match a
    case Work(_, w) => w.Finish? ==> !w.outcome.DetectedTrialEnd?
    case Tick(_) => true
    case LandBeat(_) => true
    case LoseBeat(_) => true
    case _ => false
  }

  ghost predicate NoTrialEnds(s: State) {
    forall p :: 0 <= p < |s.procs| && s.procs[p].Writing? ==> !s.procs[p].verdict.ToSchedule?
  }

  // How one worker step changes the three summands.
  lemma WorkDecreasesParts(s: State, p: ProcId, w: WorkerStep)
    requires Core(s) && NoTrialEnds(s) && WorkCan(s, p, w) && !w.SendBeat? && Draining(s, Work(p, w))
    ensures
      var t, id := WorkNext(s, p, w), if w.Claim? || w.Write? then s.procs[p].id else 0;
      && p < |t.procs| && t.procs == s.procs[p := t.procs[p]]
      && (t.tasks == s.tasks || (id < |s.tasks| && id < |t.tasks| && t.tasks == s.tasks[id := t.tasks[id]]))
      && 6 * (if t.tasks == s.tasks then 0 else ClaimsLeft(t.tasks[id]) - ClaimsLeft(s.tasks[id]))
         + 2 * (|t.queue| - |s.queue|) + Owed(t.procs[p]) - Owed(s.procs[p]) < 0
  {
    assert ProcOk(s.procs[p], s.tasks);
    if w.Write? || w.Claim? {
      assert RowOk(s.tasks[s.procs[p].id], s.now) && FenceOk(s.tasks[s.procs[p].id], s.procs[p].id, s.procs);
    }
  }

  lemma WorkDecreases(s: State, p: ProcId, w: WorkerStep)
    requires Core(s) && NoTrialEnds(s) && WorkCan(s, p, w) && !w.SendBeat? && Draining(s, Work(p, w))
    ensures Measure(WorkNext(s, p, w)) < Measure(s)
  {
    var t, id := WorkNext(s, p, w), if w.Claim? || w.Write? then s.procs[p].id else 0;
    WorkDecreasesParts(s, p, w);
    SumOwedUpdate(s.procs, p, t.procs[p]);
    if t.tasks != s.tasks {
      SumClaimsUpdate(s.tasks, id, t.tasks[id]);
    }
  }

  lemma BeatKeepsMeasure(s: State, k: nat)
    requires k < |s.beats|
    ensures Measure(AfterBeat(s, k)) == Measure(s)
  {
    var id := s.beats[k].id;
    if AfterBeat(s, k).tasks != s.tasks {
      SumClaimsUpdate(s.tasks, id, BeatRow(s.tasks[id], s.now));
    }
  }

  lemma NoTrialEndsKept(s: State, a: Action)
    requires NoTrialEnds(s) && Draining(s, a)
    ensures NoTrialEnds(Step(s, a))
  {
    if Enabled(s, a) && a.Work? {
      WorkSchedulesNothing(s, a.p, a.w);
    }
  }

  lemma WorkSchedulesNothing(s: State, p: ProcId, w: WorkerStep)
    requires NoTrialEnds(s) && WorkCan(s, p, w) && Draining(s, Work(p, w))
    ensures NoTrialEnds(WorkNext(s, p, w))
  {
  }

  predicate Productive(s: State, a: Action) {
    a.Work? && !a.w.SendBeat? && Enabled(s, a)
  }

  // Worker steps of the run, heartbeats not counted.
  function WorkDone(s: State, acts: seq<Action>): nat {
    if acts == [] then 0
    else
      var front := acts[..|acts| - 1];
      WorkDone(s, front) + (if Productive(Exec(s, front), acts[|acts| - 1]) then 1 else 0)
  }

  lemma StepCounts(s: State, a: Action)
    requires Core(s) && NoTrialEnds(s) && Draining(s, a)
    ensures Measure(Step(s, a)) + (if Productive(s, a) then 1 else 0) <= Measure(s)
  {
    if Enabled(s, a) {
      match a
      case Work(p, w) =>
        if w.SendBeat? {
          assert Step(s, a).tasks == s.tasks && Step(s, a).procs == s.procs;
        } else {
          WorkDecreases(s, p, w);
        }
      case LandBeat(k) => BeatKeepsMeasure(s, k);
      case _ =>
    }
  }

  // Left to themselves, the workers can take no more than Measure(s) steps.
  lemma {:induction false} DrainIsBounded(s: State, acts: seq<Action>)
    requires Core(s) && NoTrialEnds(s) && Throughout(s, acts, Draining)
    ensures WorkDone(s, acts) + Measure(Exec(s, acts)) <= Measure(s)
    ensures NoTrialEnds(Exec(s, acts))
  {
    if acts != [] {
      var front, a := acts[..|acts| - 1], acts[|acts| - 1];
      DrainIsBounded(s, front);
      RunEvolves(s, front);
      StepCounts(Exec(s, front), a);
      NoTrialEndsKept(Exec(s, front), a);
    }
  }

  // ---- when they are done ----

  ghost predicate Stuck(s: State) {
    forall a :: !Productive(s, a)
  }

  lemma StuckWorkersIdle(s: State, p: ProcId)
    requires Stuck(s) && p < |s.procs|
    ensures var pc := s.procs[p]; !pc.Popped? && !pc.Running? && !pc.Writing? && !pc.Pushing?
    ensures s.procs[p].Idle? ==> s.queue == []
  {
    assert !Productive(s, Work(p, Claim)) && !Productive(s, Work(p, Finish(Failure, 0)));
    assert !Productive(s, Work(p, Write)) && !Productive(s, Work(p, PushRetry)) && !Productive(s, Work(p, Pop));
  }

  predicate LockedByTheDead(r: Row, procs: seq<Proc>) {
    r.status.InProgress? && r.lockedBy.Some? && r.lockedBy.value < |procs| && procs[r.lockedBy.value].Gone?
  }

  // A row that no worker has to touch again.
  predicate Settled(r: Row, procs: seq<Proc>) {
    r.status.Success? || r.status.DeadLetter? || Parked(r) || LockedByTheDead(r, procs)
  }

  // When no worker step is left, one worker still waits on the list and no other
  // process carries an id, every row whose token was not dropped is settled.
  lemma DoneMeansSettled(start: Time, acts: seq<Action>, idle: ProcId, id: TaskId)
    requires Stuck(Exec(Init(start), acts)) && id < |Exec(Init(start), acts).tasks|
    requires idle < |Exec(Init(start), acts).procs| && Exec(Init(start), acts).procs[idle].Idle?
    requires forall p :: 0 <= p < |Exec(Init(start), acts).procs| ==>
               var pc := Exec(Init(start), acts).procs[p]; !pc.Repushing? && !pc.Returned? && !pc.Enqueuing?
    requires id !in Exec(Init(start), acts).lost
    ensures Settled(Exec(Init(start), acts).tasks[id], Exec(Init(start), acts).procs)
  {
    var s := Exec(Init(start), acts);
    CoreAlways(start, acts);
    NoTaskIsLost(start, acts);
    StuckWorkersIdle(s, idle);
    assert Accounted(s, id) && RowOk(s.tasks[id], s.now) && FenceOk(s.tasks[id], id, s.procs);
    if s.tasks[id].status.InProgress? {
      StuckWorkersIdle(s, s.tasks[id].lockedBy.value);
    } else if HasToken(s, id) {
      var p :| 0 <= p < |s.procs| && id in Carried(s.procs[p]);
      StuckWorkersIdle(s, p);
    }
  }

  // ---- and they do get done ----

  // A worker that can move can move without reporting a trial end.
  lemma CanDrain(s: State) returns (a: Action)
    requires !Stuck(s)
    ensures Productive(s, a) && Draining(s, a)
  {
    a :| Productive(s, a);
    if a.w.Finish? {
      a := Work(a.p, Finish(Failure, a.w.calls));
    }
  }

  // Worker steps alone lead from every state to one where none is left.
  lemma DrainFinishes(s: State) returns (acts: seq<Action>)
    requires Core(s) && NoTrialEnds(s)
    ensures Throughout(s, acts, Draining) && Stuck(Exec(s, acts))
  {
    acts := [];
    while !Stuck(Exec(s, acts))
      invariant Throughout(s, acts, Draining) && Core(Exec(s, acts)) && NoTrialEnds(Exec(s, acts))
      decreases Measure(Exec(s, acts))
    {
      var t := Exec(s, acts);
      var a := CanDrain(t);
      StepCounts(t, a);
      CoreStep(t, a);
      NoTrialEndsKept(t, a);
      ThroughoutPush(s, acts, a, Draining);
      ExecPush(s, acts, a);
      acts := acts + [a];
    }
  }

  // What a draining step leaves as it is: nobody but workers carries an id, a
  // live worker stays alive, and no token is dropped.
  ghost predicate OnlyWorkersCarry(s: State) {
    forall p :: 0 <= p < |s.procs| ==> !s.procs[p].Repushing? && !s.procs[p].Returned? && !s.procs[p].Enqueuing?
  }

  ghost predicate Drains(s: State, t: State) {
    && t.lost <= s.lost && |t.procs| == |s.procs| && |t.tasks| == |s.tasks|
    && (OnlyWorkersCarry(s) ==> OnlyWorkersCarry(t))
    && (forall p :: 0 <= p < |s.procs| && LiveWorker(s.procs[p]) ==> LiveWorker(t.procs[p]))
  }

  lemma WorkDrains(s: State, p: ProcId, w: WorkerStep)
    requires WorkCan(s, p, w) && NoTrialEnds(s)
    ensures Drains(s, WorkNext(s, p, w))
  {
  }

  lemma {:induction false} RunDrains(s: State, acts: seq<Action>)
    requires Core(s) && NoTrialEnds(s) && Throughout(s, acts, Draining)
    ensures Drains(s, Exec(s, acts))
  {
    if acts != [] {
      var front, a := acts[..|acts| - 1], acts[|acts| - 1];
      RunDrains(s, front);
      DrainIsBounded(s, front);
      if Enabled(Exec(s, front), a) && a.Work? {
        WorkDrains(Exec(s, front), a.p, a.w);
      }
    }
  }

  // From any reachable state with a live worker, the workers can finish, and
  // whichever way they do, every row whose token was not dropped before is
  // settled then.
  lemma WorkersSettleEverything(start: Time, before: seq<Action>, w: ProcId)
    requires
      var s := Exec(Init(start), before);
      NoTrialEnds(s) && OnlyWorkersCarry(s) && w < |s.procs| && LiveWorker(s.procs[w])
    ensures
      var s := Exec(Init(start), before);
      && (exists acts :: Throughout(s, acts, Draining) && Stuck(Exec(s, acts)))
      && (forall acts, id :: Throughout(s, acts, Draining) && Stuck(Exec(s, acts)) && id in NotDropped(s) ==>
            id < |Exec(s, acts).tasks| && Settled(Exec(s, acts).tasks[id], Exec(s, acts).procs))
  {
    var s := Exec(Init(start), before);
    CoreAlways(start, before);
    var some := DrainFinishes(s);
    forall acts, id | Throughout(s, acts, Draining) && Stuck(Exec(s, acts)) && id in NotDropped(s)
      ensures id < |Exec(s, acts).tasks| && Settled(Exec(s, acts).tasks[id], Exec(s, acts).procs)
    {
      RunDrains(s, acts);
      StuckWorkersIdle(Exec(s, acts), w);
      ExecConcat(Init(start), before, acts);
      DoneMeansSettled(start, before + acts, w, id);
    }
  }

  // The rows whose token was not dropped.
  ghost function NotDropped(s: State): set<TaskId> {
    set id: TaskId | 0 <= id < |s.tasks| && id !in s.lost
  }
}
