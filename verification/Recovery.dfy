// A dead worker's task, from its last sign of life to its next token.
module Recovery {
  import opened TaskTable
  import opened Protocol
  import opened Safety
  import opened History
  import opened Accounting
  import opened Delivery
  import opened Heartbeats
  import opened Leases

  // ---- the dead write nothing ----

  lemma DeadStayDead(s: State, a: Action, w: ProcId)
    requires Core(s) && w < |s.procs| && s.procs[w].Gone?
    ensures w < |Step(s, a).procs| && Step(s, a).procs[w].Gone?
  {
    if Enabled(s, a) {
      match a
      case Work(p, x) => WorkMoves(s, p, x);
      case Requeue(p, r) => RequeueKeepsCore(s, p, r);
      case Schedule(p, c) => ScheduleKeepsCore(s, p, c);
      case Create(p, q) => CreateKeepsCore(s, p, q);
      case _ =>
    }
  }

  // A landed change is the requeuer's or a living worker's.
  predicate ByTheLiving(procs: seq<Proc>, e: Event) {
    e.Reclaimed? || (e.who < |procs| && !procs[e.who].Gone?)
  }

  ghost predicate LogsOne(s: State, t: State) {
    t.log == s.log || exists x :: t.log == s.log + [x] && ByTheLiving(s.procs, x.event)
  }

  lemma WorkLogs(s: State, p: ProcId, w: WorkerStep)
    requires WorkCan(s, p, w)
    ensures LogsOne(s, WorkNext(s, p, w))
  {
    var t := WorkNext(s, p, w);
    if t.log != s.log {
      var e := if w.Claim? then Claimed(p) else WriteEvent(s.procs[p].verdict, p, s.procs[p].task.attempts);
      assert t.log == s.log + [Entry(s.procs[p].id, e)];
    }
  }

  lemma RequeueLogsOne(s: State, p: ProcId, r: RequeuerStep)
    requires RequeueCan(s, p, r)
    ensures LogsOne(s, RequeueNext(s, p, r))
  {
    var t := RequeueNext(s, p, r);
    if t.log != s.log {
      assert t.log == s.log + [Entry(s.procs[p].ids[s.procs[p].i], Reclaimed)];
    }
  }

  lemma StepLogs(s: State, a: Action)
    ensures LogsOne(s, Step(s, a))
  {
    if Enabled(s, a) {
      match a
      case Work(p, w) => WorkLogs(s, p, w);
      case Requeue(p, r) => RequeueLogsOne(s, p, r);
      case _ =>
    }
  }

  // fs goes on from es without worker w.
  predicate GoesOnWithout(es: seq<Event>, fs: seq<Event>, w: ProcId) {
    && es <= fs
    && forall i :: |es| <= i < |fs| ==> fs[i].Reclaimed? || fs[i].who != w
  }

  lemma DeadStep(s: State, a: Action, w: ProcId, id: TaskId, es: seq<Event>)
    requires Core(s) && w < |s.procs| && s.procs[w].Gone? && GoesOnWithout(es, EventsOf(s.log, id), w)
    ensures GoesOnWithout(es, EventsOf(Step(s, a).log, id), w)
  {
    StepLogs(s, a);
    if Step(s, a).log != s.log {
      var x :| Step(s, a).log == s.log + [x] && ByTheLiving(s.procs, x.event);
      EventsOfPush(s.log, x, id);
    }
  }

  lemma {:induction false} DeadWriteNothing(s: State, acts: seq<Action>, w: ProcId, id: TaskId)
    requires Core(s) && w < |s.procs| && s.procs[w].Gone?
    ensures w < |Exec(s, acts).procs| && Exec(s, acts).procs[w].Gone?
    ensures GoesOnWithout(EventsOf(s.log, id), EventsOf(Exec(s, acts).log, id), w)
  {
    if acts != [] {
      var front, a := acts[..|acts| - 1], acts[|acts| - 1];
      DeadWriteNothing(s, front, w, id);
      RunEvolves(s, front);
      DeadStayDead(Exec(s, front), a, w);
      DeadStep(Exec(s, front), a, w, id, EventsOf(s.log, id));
    }
  }

  // ---- nobody refreshes its lock ----

  // While a claim lasts, only its own owner's beats move the lock time.
  lemma {:induction false} UnbeatenLockStays(s: State, acts: seq<Action>, w: ProcId, id: TaskId)
    requires Core(s) && id < |s.tasks| && OwnedBy(s.tasks[id], w) && Arrivals(s, acts, Beat(w, id)) == []
    requires id < |Exec(s, acts).tasks|
    requires Exec(s, acts).tasks[id].status.InProgress? && Exec(s, acts).tasks[id].attempts == s.tasks[id].attempts
    ensures Exec(s, acts).tasks[id] == s.tasks[id]
  {
    if acts != [] {
      var front, a := acts[..|acts| - 1], acts[|acts| - 1];
      var s1 := Exec(s, front);
      RunEvolves(s, front);
      StepEvolves(s1, a);
      assert Grows(s.tasks[id], s1.tasks[id]) && Grows(s1.tasks[id], Step(s1, a).tasks[id]);
      SameClaimStep(s1, a, id);
      UnbeatenLockStays(s, front, w, id);
      assert Arrivals(s, front, Beat(w, id)) <= Arrivals(s, acts, Beat(w, id));
      OnlyBeatsRefresh(s1, a, id);
    }
  }

  // ---- the task comes back ----

  // The claim that is the n-th of this history was taken back by the requeuer.
  predicate TakenBack(es: seq<Event>, n: nat) {
    1 <= n && 2 * n <= |es| && es[2 * n - 1].Reclaimed?
  }

  lemma OnlyTheRequeuerEnds(es: seq<Event>, fs: seq<Event>, w: ProcId, n: nat)
    requires Shaped(fs) && GoesOnWithout(es, fs, w) && |es| == 2 * n - 1 && es[|es| - 1] == Claimed(w) && |fs| >= 2 * n
    ensures TakenBack(fs, n)
  {
    var i := 2 * n - 2;
    assert i % 2 == 0 && fs[i] == es[i] && Closes(fs[i], fs[i + 1], i / 2 + 1);
  }

  // What is used here of reachable states.
  ghost predicate Sound(s: State) {
    Core(s) && Recorded(s) && Recovers(s) && NothingLost(s)
  }

  lemma SoundAlways(start: Time, acts: seq<Action>)
    ensures Sound(Exec(Init(start), acts))
  {
    HistoryAlways(start, acts);
    RecoversAlways(start, acts);
    NoTaskIsLost(start, acts);
  }

  // Row id is locked by w at s, no beat of w arrives on the way to t, and at t
  // the lock would be older than threshold + gap, with the latest clean scan at
  // most gap old.
  ghost predicate Silent(s: State, more: seq<Action>, gap: nat, w: ProcId, id: TaskId) {
    && id < |s.tasks| && OwnedBy(s.tasks[id], w) && s.tasks[id].lockedAt.Some?
    && Arrivals(s, more, Beat(w, id)) == []
    && Exec(s, more).now - Exec(s, more).lastPass <= gap
    && Exec(s, more).now - s.tasks[id].lockedAt.value > STALE_LOCK_THRESHOLD + gap
  }

  lemma ClaimIsOver(s: State, more: seq<Action>, gap: nat, w: ProcId, id: TaskId)
    requires Sound(s) && Silent(s, more, gap, w, id) && Sound(Exec(s, more))
    ensures
      var t := Exec(s, more);
      && id < |t.tasks| && s.tasks[id].attempts <= t.tasks[id].attempts
      && !(t.tasks[id].status.InProgress? && t.tasks[id].attempts == s.tasks[id].attempts)
  {
    var t := Exec(s, more);
    RunEvolves(s, more);
    assert Grows(s.tasks[id], t.tasks[id]) && !Overdue(t.tasks[id], t.lastPass);
    if t.tasks[id].status.InProgress? && t.tasks[id].attempts == s.tasks[id].attempts {
      UnbeatenLockStays(s, more, w, id);
    }
  }

  lemma ClaimedLast(s: State, w: ProcId, id: TaskId)
    requires Sound(s) && id < |s.tasks| && OwnedBy(s.tasks[id], w)
    ensures
      var es := EventsOf(s.log, id);
      1 <= s.tasks[id].attempts && |es| == 2 * s.tasks[id].attempts - 1 && es[|es| - 1] == Claimed(w)
  {
    assert RowOk(s.tasks[id], s.now);
    ReplayShape(EventsOf(s.log, id));
  }

  // A claim that is over has its ending on record.
  lemma EndingRecorded(t: State, id: TaskId, n: nat)
    requires Sound(t) && id < |t.tasks| && n <= t.tasks[id].attempts
    requires !(t.tasks[id].status.InProgress? && t.tasks[id].attempts == n)
    ensures Shaped(EventsOf(t.log, id)) && |EventsOf(t.log, id)| >= 2 * n
    ensures TakenBack(EventsOf(t.log, id), n) && t.tasks[id].attempts == n ==> t.tasks[id].status.Pending?
  {
    assert RowOk(t.tasks[id], t.now);
    ReplayShape(EventsOf(t.log, id));
  }

  lemma ComesBack(s: State, more: seq<Action>, gap: nat, w: ProcId, id: TaskId)
    requires Sound(s) && Silent(s, more, gap, w, id) && Sound(Exec(s, more)) && w < |s.procs| && s.procs[w].Gone?
    ensures
      var t := Exec(s, more);
      && id < |t.tasks| && TakenBack(EventsOf(t.log, id), s.tasks[id].attempts)
      && (t.tasks[id].attempts == s.tasks[id].attempts ==>
            t.tasks[id].status.Pending? && (Parked(t.tasks[id]) || HasToken(t, id) || id in t.lost))
  {
    var t := Exec(s, more);
    ClaimIsOver(s, more, gap, w, id);
    DeadWriteNothing(s, more, w, id);
    ClaimedLast(s, w, id);
    EndingRecorded(t, id, s.tasks[id].attempts);
    OnlyTheRequeuerEnds(EventsOf(s.log, id), EventsOf(t.log, id), w, s.tasks[id].attempts);
    assert Accounted(t, id);
  }

  // A worker dies holding a row. Once threshold + gap has passed since its last
  // landed beat, with passes at most gap apart, the requeuer has taken that
  // claim back; and until someone claims the row again it is PENDING and has a
  // token, or waits for the scheduler, or its token was dropped by a fault.
  lemma DeadWorkersTaskComesBack(
      start: Time, before: seq<Action>, more: seq<Action>, gap: nat, w: ProcId, id: TaskId)
    requires Silent(Exec(Init(start), before), more, gap, w, id)
    requires w < |Exec(Init(start), before).procs| && Exec(Init(start), before).procs[w].Gone?
    ensures
      var s := Exec(Init(start), before);
      var t := Exec(s, more);
      && id < |t.tasks| && TakenBack(EventsOf(t.log, id), s.tasks[id].attempts)
      && (t.tasks[id].attempts == s.tasks[id].attempts ==>
            t.tasks[id].status.Pending? && (Parked(t.tasks[id]) || HasToken(t, id) || id in t.lost))
  {
    SoundAlways(start, before);
    SoundAlways(start, before + more);
    ExecConcat(Init(start), before, more);
    ComesBack(Exec(Init(start), before), more, gap, w, id);
  }
}
