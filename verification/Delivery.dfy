// At-least-once delivery, with every way of losing a task accounted for, and
// the exact boundary between a task that can still run and one that never will.
module Delivery {
  import opened TaskTable
  import opened Protocol
  import opened Safety

  // ---- no task is lost unaccounted ----

  ghost predicate InHand(procs: seq<Proc>, id: TaskId) {
    exists p :: 0 <= p < |procs| && id in Carried(procs[p])
  }

  ghost predicate HasToken(s: State, id: TaskId) {
    id in s.queue || InHand(s.procs, id)
  }

  predicate Parked(r: Row) {
    r.status.Pending? && r.scheduledFor.Some?
  }

  ghost predicate Accounted(s: State, id: TaskId)
    requires id < |s.tasks|
  {
    Claimable(s.tasks[id]) && !Parked(s.tasks[id]) && id !in s.lost ==> HasToken(s, id)
  }

  ghost predicate NothingLost(s: State) {
    forall id :: 0 <= id < |s.tasks| ==> Accounted(s, id)
  }

  // A token survives a step of p when p passes on what it had or the list held.
  lemma TokenPasses(s: State, t: State, p: ProcId, id: TaskId)
    requires Moves(s, t, p) && HasToken(s, id)
    requires id in s.queue || (p < |s.procs| && id in Carried(s.procs[p])) ==> HasToken(t, id)
    ensures HasToken(t, id)
  {
    if id !in s.queue {
      var q :| 0 <= q < |s.procs| && id in Carried(s.procs[q]);
      if q != p {
        assert t.procs[q] == s.procs[q];
      }
    }
  }

  // What a worker step leaves of one row's tokens.
  lemma WorkTokens(s: State, p: ProcId, w: WorkerStep, id: TaskId)
    requires WorkCan(s, p, w) && id < |s.tasks|
    ensures
      var t := WorkNext(s, p, w);
      && p < |t.procs| && |t.tasks| == |s.tasks|
      && (id in s.queue ==> id in t.queue || id in Carried(t.procs[p]))
      && (id in Carried(s.procs[p]) ==> id in t.queue || id in Carried(t.procs[p]) || !Claimable(t.tasks[id]))
      && (id in s.lost ==> id in t.lost || id in t.queue || !Claimable(t.tasks[id]))
      && (Claimable(t.tasks[id]) && !Parked(t.tasks[id]) ==>
            (Claimable(s.tasks[id]) && !Parked(s.tasks[id])) || id in t.lost || id in Carried(t.procs[p]))
  {
    if w.Pop? {
      assert s.queue == s.queue[..|s.queue| - 1] + [s.queue[|s.queue| - 1]];
    }
  }

  lemma WorkAccounts(s: State, p: ProcId, w: WorkerStep, id: TaskId)
    requires Core(s) && WorkCan(s, p, w) && id < |s.tasks| && Accounted(s, id)
    ensures id < |WorkNext(s, p, w).tasks| && Accounted(WorkNext(s, p, w), id)
  {
    var t := WorkNext(s, p, w);
    WorkTokens(s, p, w, id);
    WorkMoves(s, p, w);
    if Claimable(t.tasks[id]) && !Parked(t.tasks[id]) && id !in t.lost {
      if id in t.queue || id in Carried(t.procs[p]) {
        assert HasToken(t, id);
      } else {
        TokenPasses(s, t, p, id);
      }
    }
  }

  lemma RequeueTokens(s: State, p: ProcId, r: RequeuerStep, id: TaskId)
    requires RequeueCan(s, p, r) && id < |s.tasks|
    ensures
      var t := RequeueNext(s, p, r);
      && Moves(s, t, p) && |t.tasks| == |s.tasks| && (id in s.queue ==> id in t.queue)
      && (id in Carried(s.procs[p]) ==> id in t.queue || id in t.lost)
      && (id in s.lost ==> id in t.lost || id in t.queue)
      && (Claimable(t.tasks[id]) && !Parked(t.tasks[id]) ==>
            (Claimable(s.tasks[id]) && !Parked(s.tasks[id])) || id in t.lost || id in Carried(t.procs[p]))
  {
  }

  lemma RequeueAccounts(s: State, p: ProcId, r: RequeuerStep, id: TaskId)
    requires RequeueCan(s, p, r) && id < |s.tasks| && Accounted(s, id)
    ensures id < |RequeueNext(s, p, r).tasks| && Accounted(RequeueNext(s, p, r), id)
  {
    var t := RequeueNext(s, p, r);
    RequeueTokens(s, p, r, id);
    if Claimable(t.tasks[id]) && !Parked(t.tasks[id]) && id !in t.lost {
      if id in t.queue || id in Carried(t.procs[p]) {
        assert HasToken(t, id);
      } else {
        TokenPasses(s, t, p, id);
      }
    }
  }

  lemma ScheduleAccounts(s: State, p: ProcId, c: SchedulerStep, id: TaskId)
    requires ScheduleCan(s, p, c) && id < |s.tasks| && Accounted(s, id)
    ensures id < |ScheduleNext(s, p, c).tasks| && Accounted(ScheduleNext(s, p, c), id)
  {
    var t := ScheduleNext(s, p, c);
    assert Moves(s, t, p);
    if Claimable(t.tasks[id]) && !Parked(t.tasks[id]) && id !in t.lost && id !in t.queue {
      TokenPasses(s, t, p, id);
    }
  }

  // An unscheduled new row is carried by its request until pushed or dropped.
  lemma CreateTokens(s: State, p: ProcId, q: CreateStep, id: TaskId)
    requires CreateCan(s, p, q) && id < |s.tasks|
    ensures
      var t := CreateNext(s, p, q);
      && Moves(s, t, p) && |s.tasks| <= |t.tasks| && t.tasks[id] == s.tasks[id] && (id in s.queue ==> id in t.queue)
      && (id in Carried(s.procs[p]) ==> id in t.queue || id in t.lost || id in Carried(t.procs[p]))
      && (id in s.lost ==> id in t.lost || id in t.queue)
  {
  }

  lemma CreateAccounts(s: State, p: ProcId, q: CreateStep, id: TaskId)
    requires CreateCan(s, p, q) && NothingLost(s) && id < |CreateNext(s, p, q).tasks|
    ensures Accounted(CreateNext(s, p, q), id)
  {
    var t := CreateNext(s, p, q);
    if id < |s.tasks| {
      CreateTokens(s, p, q, id);
      assert Accounted(s, id);
      if Claimable(t.tasks[id]) && !Parked(t.tasks[id]) && id !in t.lost {
        if id in t.queue || id in Carried(t.procs[p]) {
          assert HasToken(t, id);
        } else {
          TokenPasses(s, t, p, id);
        }
      }
    } else if q.Insert? {
      assert Parked(t.tasks[id]) || id in Carried(t.procs[p]);
    }
  }

  lemma CrashAccounts(s: State, p: ProcId, calls: nat, id: TaskId)
    requires CrashCan(s, p, calls) && id < |s.tasks| && Accounted(s, id)
    ensures Accounted(AfterCrash(s, p, calls), id)
  {
    var t := AfterCrash(s, p, calls);
    assert Moves(s, t, p);
    if Claimable(t.tasks[id]) && !Parked(t.tasks[id]) && id !in t.lost {
      TokenPasses(s, t, p, id);
    }
  }

  lemma BeatAccounts(s: State, k: nat, id: TaskId)
    requires Core(s) && k < |s.beats| && id < |s.tasks| && Accounted(s, id)
    ensures id < |AfterBeat(s, k).tasks| && Accounted(AfterBeat(s, k), id)
  {
    var t := AfterBeat(s, k);
    if Claimable(t.tasks[id]) && !Parked(t.tasks[id]) && id !in t.lost {
      TokenPasses(s, t, |s.procs|, id);
    }
  }

  lemma SpawnAccounts(s: State, pc: Proc, id: TaskId)
    requires id < |s.tasks| && Accounted(s, id)
    ensures Accounted(s.(procs := s.procs + [pc]), id)
  {
    var t := s.(procs := s.procs + [pc]);
    if Claimable(t.tasks[id]) && !Parked(t.tasks[id]) && id !in t.lost && id !in t.queue {
      var q :| 0 <= q < |s.procs| && id in Carried(s.procs[q]);
      assert t.procs[q] == s.procs[q];
    }
  }

  lemma StepAccounts(s: State, a: Action, id: TaskId)
    requires Core(s) && NothingLost(s) && id < |Step(s, a).tasks|
    ensures Accounted(Step(s, a), id)
  {
    assert id < |s.tasks| ==> Accounted(s, id);
    if Enabled(s, a) {
      match a
      case Work(p, w) => WorkMoves(s, p, w); WorkAccounts(s, p, w, id);
      case Requeue(p, r) => RequeueAccounts(s, p, r, id);
      case Schedule(p, c) => ScheduleAccounts(s, p, c, id);
      case Create(p, q) => CreateAccounts(s, p, q, id);
      case Crash(p, calls) => CrashAccounts(s, p, calls, id);
      case LandBeat(k) => BeatAccounts(s, k, id);
      case Spawn(pc) => SpawnAccounts(s, pc, id);
      case _ =>
    }
  }

  // In every run: a claimable row has a token on the list or in a process's
  // hand, or waits for the scheduler, or had its token dropped by a failed
  // push or a crash, with no push and no claim since.
  lemma {:induction false} NoTaskIsLost(start: Time, acts: seq<Action>)
    ensures NothingLost(Exec(Init(start), acts))
  {
    if acts != [] {
      var s := Exec(Init(start), acts[..|acts| - 1]);
      CoreAlways(start, acts[..|acts| - 1]);
      NoTaskIsLost(start, acts[..|acts| - 1]);
      forall id | 0 <= id < |Exec(Init(start), acts).tasks| ensures Accounted(Exec(Init(start), acts), id) {
        StepAccounts(s, acts[|acts| - 1], id);
      }
    }
  }

  // ---- only faults drop a token ----

  // A crash with the id in hand, a failed push of it, an insert or a reset that
  // was applied though it reported an error, or a landed trial end without a date.
  predicate DropsToken(s: State, a: Action, id: TaskId)
    requires Enabled(s, a)
  {
    match a
    case Crash(p, _) => id in Carried(s.procs[p])
    case Work(p, Write) => s.procs[p].id == id && s.procs[p].verdict.ToSchedule? && s.procs[p].verdict.when.None?
    case Requeue(p, RepushFail) => s.procs[p].ids[s.procs[p].i] == id
    case Requeue(p, ResetError(applied)) => applied && s.procs[p].ids[s.procs[p].i] == id
    case Create(p, EnqueueFail) => s.procs[p].id == id
    case Create(p, InsertError(applied)) => applied && id == |s.tasks|
    case _ => false
  }

  lemma OnlyFaultsDrop(s: State, a: Action, id: TaskId)
    requires Enabled(s, a) && id in Next(s, a).lost && id !in s.lost
    ensures DropsToken(s, a, id)
  {
  }

  // A push of the id takes it off the dropped ones.
  lemma PushedIsFound(s: State, a: Action, id: TaskId)
    requires Enabled(s, a) && Next(s, a).queue == [id] + s.queue
    ensures id !in Next(s, a).lost
  {
    assert |Next(s, a).queue| == |s.queue| + 1 && Next(s, a).queue[0] == id;
  }
}
