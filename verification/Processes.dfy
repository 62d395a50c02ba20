// The programs as they are written: loops, early returns, local variables, one
// statement after the other, with the rest of the system moving in between.
// Each method is tied to the protocol by the exact list of its deeds: the steps
// it took, what each of them changed, and what it tried to push.
module Processes {
  import opened Wrappers
  import opened TaskTable
  import opened Protocol
  import opened Safety
  import opened Heartbeats
  import opened Deeds
  import opened Statements
  import opened Cluster

  // A process at an await: the others move, and the process may not survive.
  method Await(w: World, p: ProcId, calls: nat) returns (alive: bool)
    requires w.Valid() && p < |w.procs| && !w.procs[p].Gone? && !w.procs[p].Answered?
    requires calls <= if w.procs[p].Running? then CallBound(w.procs[p].task.service) else 0
    modifies w
    ensures w.Valid() && p < |w.procs| && |old(w.tasks)| <= |w.tasks| && old(w.now) <= w.now
    ensures alive ==> w.procs[p] == old(w.procs[p]) && w.Done(p) == old(w.Done(p))
    ensures !alive ==> w.procs[p].Gone?
  {
    var within: nat := *;
    alive := AwaitWithin(w, p, calls, within);
  }

  method AwaitWithin(w: World, p: ProcId, calls: nat, within: nat) returns (alive: bool)
    requires w.Valid() && p < |w.procs| && !w.procs[p].Gone? && !w.procs[p].Answered?
    requires calls <= if w.procs[p].Running? then CallBound(w.procs[p].task.service) else 0
    modifies w
    ensures w.Valid() && p < |w.procs| && |old(w.tasks)| <= |w.tasks|
    ensures old(w.now) <= w.now <= old(w.now) + within
    ensures alive ==> w.procs[p] == old(w.procs[p]) && w.Done(p) == old(w.Done(p))
    ensures !alive ==> w.procs[p].Gone?
  {
    w.Others(p, within);
    alive := *;
    if !alive {
      w.Die(p, calls);
    }
  }

  // ---- worker.js ----

  // How one call of processTask went. landed says whether the result write did.
  datatype Report =
    | Skipped
    | Unsupported(task: Row, landed: bool)
    | Ran(task: Row, beats: nat, outcome: Outcome, calls: nat, landed: bool)
    | Died

  datatype Round = Round(id: TaskId, report: Report)

  function Repeated(d: Deed, n: nat): seq<Deed> {
    seq(n, i => d)
  }

  lemma OneMore(d: Deed, n: nat)
    ensures Repeated(d, n) + [d] == Repeated(d, n + 1)
  {
  }

  function ClaimDeeds(p: ProcId, id: TaskId, claimed: bool): seq<Deed> {
    [Deed(Work(p, Claim), if claimed then [Entry(id, Claimed(p))] else [], [])]
  }

  // The write changes the row if and only if it landed, and the id is pushed if
  // and only if a retry landed.
  function WriteDeeds(p: ProcId, id: TaskId, task: Row, v: Verdict, landed: bool): seq<Deed> {
    [Deed(Work(p, Write), if landed then [Entry(id, WriteEvent(v, p, task.attempts))] else [], [])]
    + (if landed && v.ToRetry? then [Deed(Work(p, PushRetry), [], [id])] else [])
  }

  function RunDeeds(p: ProcId, id: TaskId, report: Report): seq<Deed>
    requires report.Ran?
  {
    Repeated(Quiet(Work(p, SendBeat)), report.beats)
    + [Quiet(Work(p, Finish(report.outcome, report.calls)))]
    + WriteDeeds(p, id, report.task, Verdicted(report.task, report.outcome), report.landed)
  }

  lemma JoinedRun(begun: seq<Deed>, p: ProcId, id: TaskId, report: Report)
    requires report.Ran?
    ensures
      begun + Repeated(Quiet(Work(p, SendBeat)), report.beats) + [Quiet(Work(p, Finish(report.outcome, report.calls)))]
      + WriteDeeds(p, id, report.task, Verdicted(report.task, report.outcome), report.landed)
      == begun + RunDeeds(p, id, report)
  {
  }

  function HandledDeeds(p: ProcId, id: TaskId, report: Report): seq<Deed> {
    match report
    case Unsupported(task, landed) => WriteDeeds(p, id, task, ToDeadLetter, landed)
    case Ran(_, _, _, _, _) => RunDeeds(p, id, report)
    case _ => []
  }

  // What a call that goes this way does.
  function ReportDeeds(p: ProcId, id: TaskId, report: Report): seq<Deed> {
    if report.Died? then [] else ClaimDeeds(p, id, !report.Skipped?) + HandledDeeds(p, id, report)
  }

  // A landed trial end without a date: the log line after it throws.
  predicate EndsWorker(report: Report) {
    report.Ran? && report.landed && report.outcome == DetectedTrialEnd(None)
  }

  lemma Joined(a: seq<Deed>, b: seq<Deed>, c: seq<Deed>)
    ensures (a + b) + c == a + (b + c)
  {
  }

  function RoundDeeds(p: ProcId, rounds: seq<Round>): seq<Deed> {
    if rounds == [] then []
    else
      var last := rounds[|rounds| - 1];
      RoundDeeds(p, rounds[..|rounds| - 1]) + ([Quiet(Work(p, Pop))] + ReportDeeds(p, last.id, last.report))
  }

  lemma RoundDeedsPush(p: ProcId, begun: seq<Deed>, rounds: seq<Round>, round: Round)
    ensures (begun + RoundDeeds(p, rounds)) + ([Quiet(Work(p, Pop))] + ReportDeeds(p, round.id, round.report))
         == begun + RoundDeeds(p, rounds + [round])
  {
    assert (rounds + [round])[..|rounds|] == rounds;
  }

  lemma {:induction false} BeatsOweNothing(p: ProcId, n: nat)
    ensures Tried(Repeated(Quiet(Work(p, SendBeat)), n)) == []
    ensures PushesOwed(Repeated(Quiet(Work(p, SendBeat)), n)) == []
  {
    if n > 0 {
      BeatsOweNothing(p, n - 1);
      OneMore(Quiet(Work(p, SendBeat)), n - 1);
      ReadConcat(Repeated(Quiet(Work(p, SendBeat)), n - 1), [Quiet(Work(p, SendBeat))]);
      ReadOne(Quiet(Work(p, SendBeat)));
    }
  }

  lemma WriteDeedsPay(p: ProcId, id: TaskId, task: Row, v: Verdict, landed: bool)
    ensures PaysItsPushes(WriteDeeds(p, id, task, v, landed))
  {
    var write := Deed(Work(p, Write), if landed then [Entry(id, WriteEvent(v, p, task.attempts))] else [], []);
    var push := Deed(Work(p, PushRetry), [], [id]);
    ReadOne(write);
    ReadOne(push);
    ReadConcat([write], if landed && v.ToRetry? then [push] else []);
  }

  lemma RunDeedsPay(p: ProcId, id: TaskId, report: Report)
    requires report.Ran?
    ensures PaysItsPushes(RunDeeds(p, id, report))
  {
    var beats := Repeated(Quiet(Work(p, SendBeat)), report.beats);
    var finish := Quiet(Work(p, Finish(report.outcome, report.calls)));
    var writes := WriteDeeds(p, id, report.task, Verdicted(report.task, report.outcome), report.landed);
    BeatsOweNothing(p, report.beats);
    ReadOne(finish);
    ReadConcat(beats, [finish]);
    WriteDeedsPay(p, id, report.task, Verdicted(report.task, report.outcome), report.landed);
    ReadConcat(beats + [finish], writes);
  }

  // However a call goes: pushes tried are retries landed.
  lemma ReportsPay(p: ProcId, id: TaskId, report: Report)
    ensures PaysItsPushes(ReportDeeds(p, id, report))
  {
    var claim := ClaimDeeds(p, id, !report.Skipped?);
    ReadOne(claim[0]);
    assert claim == [claim[0]];
    match report {
      case Unsupported(task, landed) => WriteDeedsPay(p, id, task, ToDeadLetter, landed);
      case Ran(_, _, _, _, _) => RunDeedsPay(p, id, report);
      case _ =>
    }
    ReadConcat(claim, HandledDeeds(p, id, report));
  }

  lemma OnePeriod(latency: nat, n: nat)
    ensures (HEARTBEAT_INTERVAL + latency) * (n + 1)
         == (HEARTBEAT_INTERVAL + latency) * n + HEARTBEAT_INTERVAL + latency
  {
  }

  class Worker {
    const world: World
    const id: ProcId
    var isShuttingDown: bool

    constructor (world: World, id: ProcId)
      ensures this.world == world && this.id == id && !isShuttingDown
    {
      this.world := world;
      this.id := id;
      isShuttingDown := false;
    }

    method Shutdown()
      modifies this
      ensures isShuttingDown
    {
      isShuttingDown := true;
    }

    // The automation and its heartbeat timer, up to clearInterval. The worker
    // gets to look at its timer at least every latency milliseconds, and the
    // timer fires when it does and a period has passed since it was set or last
    // fired. What the automation reports is left open.
    method RunAutomation(task: Row, latency: nat) returns (alive: bool, beats: nat, outcome: Outcome, calls: nat)
      requires world.Valid() && id < |world.procs| && world.procs[id].Running? && world.procs[id].task == task
      modifies world
      ensures world.Valid() && id < |world.procs|
      ensures !alive ==> world.procs[id].Gone?
      ensures alive ==> world.procs[id] == old(world.procs[id]) && calls <= CallBound(task.service)
      ensures alive ==> world.Done(id) == old(world.Done(id)) + Repeated(Quiet(Work(id, SendBeat)), beats)
      ensures HEARTBEAT_INTERVAL * beats <= world.now - old(world.now)
      ensures world.now - old(world.now) < (HEARTBEAT_INTERVAL + latency) * (beats + 1)
    {
      outcome := *;
      calls := *;
      if calls > CallBound(task.service) {
        calls := CallBound(task.service);
      }
      var waits: nat := *;
      var last := world.now;
      beats := 0;
      alive := true;
      while waits > 0
        invariant alive && world.Valid() && id < |world.procs| && world.procs[id] == old(world.procs[id])
        invariant calls <= CallBound(task.service)
        invariant HEARTBEAT_INTERVAL * beats <= last - old(world.now) <= (HEARTBEAT_INTERVAL + latency) * beats
        invariant last <= world.now < last + HEARTBEAT_INTERVAL
        invariant world.Done(id) == old(world.Done(id)) + Repeated(Quiet(Work(id, SendBeat)), beats)
      {
        waits := waits - 1;
        alive := AwaitWithin(world, id, calls, latency);
        if !alive {
          return;
        }
        if world.now - last >= HEARTBEAT_INTERVAL {
          Beat();
          OneMore(Quiet(Work(id, SendBeat)), beats);
          OnePeriod(latency, beats);
          last, beats := world.now, beats + 1;
        }
      }
      OnePeriod(latency, beats);
      alive := AwaitWithin(world, id, calls, latency);
    }

    method Beat()
      requires world.Valid() && WorkCan(world.View(), id, SendBeat)
      modifies world
      ensures world.Valid() && id < |world.procs| && world.procs[id] == old(world.procs[id])
      ensures world.now == old(world.now)
      ensures world.Done(id) == old(world.Done(id)) + [Quiet(Work(id, SendBeat))]
    {
      PlainWorkDeed(world.View(), id, SendBeat);
      world.SendHeartbeat(id);
    }

    // One fenced write. It reports true if and only if the log gained it.
    method Write() returns (landed: bool)
      requires world.Valid() && WorkCan(world.View(), id, Protocol.Write)
      modifies world
      ensures world.Valid() && id < |world.procs| && world.now == old(world.now)
      ensures var pc := old(world.procs[id]);
              && world.Done(id) == old(world.Done(id))
                   + [Deed(Work(id, Protocol.Write),
                           if landed then [Entry(pc.id, WriteEvent(pc.verdict, id, pc.task.attempts))] else [], [])]
              && world.procs[id] == (if !landed then Idle
                                     else if pc.verdict.ToRetry? then Pushing(pc.id)
                                     else if pc.verdict == ToSchedule(None) then Gone else Idle)
    {
      WriteDeed(world.View(), id);
      landed := world.WriteResult(id);
    }

    method PushRetry()
      requires world.Valid() && WorkCan(world.View(), id, Protocol.PushRetry)
      modifies world
      ensures world.Valid() && id < |world.procs| && world.procs[id] == Idle && world.now == old(world.now)
      ensures world.Done(id) == old(world.Done(id))
                                + [Deed(Work(id, Protocol.PushRetry), [], [old(world.procs[id]).id])]
    {
      PlainWorkDeed(world.View(), id, Protocol.PushRetry);
      world.LPushRetry(id);
    }

    // After the automation: the result write and, if a retry landed, the push.
    method WriteUp(taskId: TaskId, task: Row, verdict: Verdict) returns (alive: bool, landed: bool)
      requires world.Valid() && id < |world.procs| && world.procs[id] == Writing(taskId, task, verdict)
      modifies world
      ensures world.Valid() && id < |world.procs| && old(world.now) <= world.now
      ensures !alive ==> world.procs[id].Gone?
      ensures alive ==> world.Done(id) == old(world.Done(id)) + WriteDeeds(id, taskId, task, verdict, landed)
      ensures alive ==> world.procs[id] == if landed && verdict == ToSchedule(None) then Gone else Idle
    {
      landed := false;
      alive := Await(world, id, 0);
      if !alive {
        return;
      }
      landed := Write();
      if landed && verdict.ToRetry? {
        alive := Await(world, id, 0);
        if alive {
          PushRetry();
        }
      }
    }

    method EndRun(task: Row, outcome: Outcome, calls: nat)
      requires world.Valid() && id < |world.procs| && world.procs[id].Running? && world.procs[id].task == task
      requires calls <= CallBound(task.service)
      modifies world
      ensures world.Valid() && id < |world.procs| && world.now == old(world.now)
      ensures world.procs[id] == Writing(old(world.procs[id]).id, task, Verdicted(task, outcome))
      ensures world.Done(id) == old(world.Done(id)) + [Quiet(Work(id, Finish(outcome, calls)))]
    {
      PlainWorkDeed(world.View(), id, Finish(outcome, calls));
      world.FinishAutomation(id, outcome, calls);
    }

    method RunAndWriteUp(taskId: TaskId, task: Row) returns (report: Report)
      requires world.Valid() && id < |world.procs| && world.procs[id] == Running(taskId, task)
      modifies world
      ensures world.Valid() && id < |world.procs|
      ensures report.Died? || (report.Ran? && report.task == task)
      ensures report.Died? ==> world.procs[id].Gone?
      ensures report.Ran? ==>
                && world.Done(id) == old(world.Done(id)) + RunDeeds(id, taskId, report)
                && HEARTBEAT_INTERVAL * report.beats <= world.now - old(world.now)
                && world.procs[id] == if EndsWorker(report) then Gone else Idle
    {
      ghost var begun := world.Done(id);
      var latency: nat := *;
      var alive, beats, outcome, calls := RunAutomation(task, latency);
      if !alive {
        return Died;
      }
      EndRun(task, outcome, calls);
      var landed;
      alive, landed := WriteUp(taskId, task, Verdicted(task, outcome));
      if !alive {
        return Died;
      }
      report := Ran(task, beats, outcome, calls, landed);
      JoinedRun(begun, id, taskId, report);
    }

    // The rest of processTask, once the row is claimed.
    method HandleClaimed(taskId: TaskId, task: Row) returns (report: Report)
      requires world.Valid() && id < |world.procs|
      requires world.procs[id] == if Known(task.service) then Running(taskId, task)
                                  else Writing(taskId, task, ToDeadLetter)
      modifies world
      ensures world.Valid() && id < |world.procs|
      ensures report.Died? ==> world.procs[id].Gone?
      ensures report.Died? || (if Known(task.service) then report.Ran? else report.Unsupported?)
      ensures !report.Died? ==>
                && report.task == task
                && world.Done(id) == old(world.Done(id)) + HandledDeeds(id, taskId, report)
                && world.procs[id] == if EndsWorker(report) then Gone else Idle
    {
      if Known(task.service) {
        report := RunAndWriteUp(taskId, task);
      } else {
        var alive, landed := WriteUp(taskId, task, ToDeadLetter);
        report := if alive then Unsupported(task, landed) else Died;
      }
    }

    method TryClaim(taskId: TaskId) returns (alive: bool, claimed: Option<Row>)
      requires world.Valid() && id < |world.procs| && world.procs[id] == Popped(taskId)
      modifies world
      ensures world.Valid() && id < |world.procs|
      ensures !alive ==> world.procs[id].Gone?
      ensures alive ==> world.Done(id) == old(world.Done(id)) + ClaimDeeds(id, taskId, claimed.Some?)
      ensures alive && claimed.None? ==> world.procs[id] == Idle
      ensures alive && claimed.Some? ==>
                && claimed.value.lockedBy == Some(id) && claimed.value.attempts >= 1
                && world.procs[id] == if Known(claimed.value.service) then Running(taskId, claimed.value)
                                      else Writing(taskId, claimed.value, ToDeadLetter)
      ensures alive && claimed.Some? && Registered(claimed.value.service) ==>
                world.procs[id] == Running(taskId, claimed.value)
      ensures alive && claimed.Some? && !Registered(claimed.value.service) && !Inherited(claimed.value.service) ==>
                world.procs[id] == Writing(taskId, claimed.value, ToDeadLetter)
    {
      claimed := None;
      alive := Await(world, id, 0);
      if alive {
        ClaimDeed(world.View(), id);
        claimed := world.ClaimTask(id);
        if claimed.Some? {
          KnownExactly(claimed.value.service);
        }
      }
    }

    // From a popped id to the end of its handling. Unless the worker dies, it
    // ends waiting on the list, owning no row, and having done exactly what its
    // report says: in particular, it tried to push the id if and only if its
    // retry landed.
    method ProcessTask(taskId: TaskId) returns (report: Report)
      requires world.Valid() && id < |world.procs| && world.procs[id] == Popped(taskId)
      modifies world
      ensures world.Valid() && id < |world.procs|
      ensures report.Died? ==> world.procs[id].Gone?
      ensures !report.Died? ==> world.Done(id) == old(world.Done(id)) + ReportDeeds(id, taskId, report)
      ensures PaysItsPushes(ReportDeeds(id, taskId, report))
      ensures !report.Died? ==> world.procs[id] == if EndsWorker(report) then Gone else Idle
      ensures world.procs[id].Idle? ==> forall i :: 0 <= i < |world.tasks| ==> !OwnedBy(world.tasks[i], id)
      ensures report.Unsupported? ==> !Known(report.task.service)
      ensures report.Ran? ==>
                Known(report.task.service) && report.task.lockedBy == Some(id) && report.task.attempts >= 1
    {
      ghost var begun := world.Done(id);
      var alive, claimed := TryClaim(taskId);
      if !alive {
        report := Died;
      } else if claimed.None? {
        report := Skipped;
      } else {
        report := HandleClaimed(taskId, claimed.value);
        Joined(begun, ClaimDeeds(id, taskId, true), HandledDeeds(id, taskId, report));
      }
      IdleOwnsNothing(world, id);
      ReportsPay(id, taskId, report);
    }

    // One turn of the loop: at most one popped id, dealt with to the end.
    method Turn() returns (round: Option<Round>)
      requires world.Valid() && id < |world.procs| && world.procs[id].Idle?
      modifies world
      ensures world.Valid() && id < |world.procs|
      ensures world.procs[id].Idle? || world.procs[id].Gone?
      ensures world.procs[id].Idle? ==>
                world.Done(id) == old(world.Done(id))
                  + (if round.None? then []
                     else [Quiet(Work(id, Pop))] + ReportDeeds(id, round.value.id, round.value.report))
      ensures world.procs[id].Idle? && round.None? ==> world.queue == []
    {
      round := None;
      ghost var begun := world.Done(id);
      var alive := Await(world, id, 0);
      if alive && world.queue != [] {
        var taskId := TakeId();
        var report := ProcessTask(taskId);
        round := Some(Round(taskId, report));
        Joined(begun, [Quiet(Work(id, Pop))], ReportDeeds(id, taskId, report));
      }
    }

    method TakeId() returns (taskId: TaskId)
      requires world.Valid() && WorkCan(world.View(), id, Pop)
      modifies world
      ensures world.Valid() && id < |world.procs| && world.procs[id] == Popped(taskId)
      ensures world.Done(id) == old(world.Done(id)) + [Quiet(Work(id, Pop))]
    {
      PlainWorkDeed(world.View(), id, Pop);
      taskId := world.BRPop(id);
    }

    // The main loop. The shutdown signal comes before the turn numbered
    // signalAfter, however large, if the worker lives that long. Every popped id
    // is dealt with before the next is popped; a live worker leaves the loop only
    // on the signal, and then no row is locked by it.
    method Loop(signalAfter: nat) returns (done: seq<Round>)
      requires world.Valid() && id < |world.procs| && world.procs[id].Idle?
      modifies this, world
      ensures world.Valid() && id < |world.procs|
      ensures world.procs[id].Gone? || (world.procs[id].Idle? && isShuttingDown)
      ensures world.procs[id].Idle? ==> world.Done(id) == old(world.Done(id)) + RoundDeeds(id, done)
      ensures world.procs[id].Idle? ==> forall i :: 0 <= i < |world.tasks| ==> !OwnedBy(world.tasks[i], id)
    {
      done := [];
      ghost var begun := world.Done(id);
      var n := 0;
      while !isShuttingDown && world.procs[id].Idle?
        invariant isShuttingDown || n <= signalAfter
        invariant world.Valid() && id < |world.procs|
        invariant world.procs[id].Idle? || world.procs[id].Gone?
        invariant world.procs[id].Idle? ==> world.Done(id) == begun + RoundDeeds(id, done)
        decreases if isShuttingDown then 0 else signalAfter - n + 1
      {
        if n == signalAfter {
          Shutdown();
        }
        n := n + 1;
        var round := Turn();
        if round.Some? {
          RoundDeedsPush(id, begun, done, round.value);
          done := done + [round.value];
        }
      }
      IdleOwnsNothing(world, id);
    }
  }

  // A worker back at the list holds no lock.
  lemma IdleOwnsNothing(w: World, p: ProcId)
    requires w.Valid() && p < |w.procs|
    ensures w.procs[p].Idle? ==> forall i :: 0 <= i < |w.tasks| ==> !OwnedBy(w.tasks[i], p)
  {
    CoreAlways(w.start, w.trace);
    forall i | 0 <= i < |w.tasks| && w.procs[p].Idle? ensures !OwnedBy(w.tasks[i], p) {
      assert FenceOk(w.View().tasks[i], i, w.View().procs);
    }
  }

  // ---- requeue.go ----

  // How one stale id went. After an error reply, landed says whether the reset
  // took the row back all the same.
  datatype ResetOutcome = NotStale | ResetFailed(applied: bool, landed: bool) | Requeued(pushed: bool)

  // The reset of id took the row back if and only if the outcome says so.
  function ResetDeeds(p: ProcId, id: TaskId, o: ResetOutcome): seq<Deed> {
    match o
    case NotStale => [Quiet(Requeue(p, Reset))]
    case ResetFailed(applied, landed) =>
      [Deed(Requeue(p, ResetError(applied)), if landed then [Entry(id, Reclaimed)] else [], [])]
    case Requeued(pushed) =>
      [Deed(Requeue(p, Reset), [Entry(id, Reclaimed)], []),
       Deed(Requeue(p, if pushed then Repush else RepushFail), [], [id])]
  }

  function PassDeeds(p: ProcId, ids: seq<TaskId>, outcomes: seq<ResetOutcome>): seq<Deed>
    requires |outcomes| <= |ids|
  {
    if outcomes == [] then []
    else
      var n := |outcomes| - 1;
      PassDeeds(p, ids, outcomes[..n]) + ResetDeeds(p, ids[n], outcomes[n])
  }

  lemma PassDeedsPush(p: ProcId, ids: seq<TaskId>, outcomes: seq<ResetOutcome>, o: ResetOutcome)
    requires |outcomes| < |ids|
    ensures PassDeeds(p, ids, outcomes + [o]) == PassDeeds(p, ids, outcomes) + ResetDeeds(p, ids[|outcomes|], o)
  {
    assert (outcomes + [o])[..|outcomes|] == outcomes;
  }

  lemma ResetDeedsPay(p: ProcId, id: TaskId, o: ResetOutcome)
    ensures PaysItsPushes(ResetDeeds(p, id, o)) && Tried(ResetDeeds(p, id, o)) == if o.Requeued? then [id] else []
  {
    match o
    case NotStale => ReadOne(Quiet(Requeue(p, Reset)));
    case ResetFailed(applied, landed) =>
      ReadOne(Deed(Requeue(p, ResetError(applied)), if landed then [Entry(id, Reclaimed)] else [], []));
    case Requeued(pushed) =>
      var reset := Deed(Requeue(p, Reset), [Entry(id, Reclaimed)], []);
      var push := Deed(Requeue(p, if pushed then Repush else RepushFail), [], [id]);
      ReadTwo(reset, push);
  }

  // A pass so far: what its loop has tried to push is what its resets took back.
  predicate PaidSoFar(p: ProcId, ids: seq<TaskId>, outcomes: seq<ResetOutcome>, attempted: seq<TaskId>)
    requires |outcomes| <= |ids|
  {
    var deeds := PassDeeds(p, ids, outcomes);
    attempted == Tried(deeds) && attempted == PushesOwed(deeds)
  }

  lemma PaysOn(p: ProcId, ids: seq<TaskId>, outcomes: seq<ResetOutcome>, attempted: seq<TaskId>, o: ResetOutcome)
    requires |outcomes| < |ids| && PaidSoFar(p, ids, outcomes, attempted)
    ensures PaidSoFar(p, ids, outcomes + [o], attempted + if o.Requeued? then [ids[|outcomes|]] else [])
  {
    PassDeedsPush(p, ids, outcomes, o);
    ResetDeedsPay(p, ids[|outcomes|], o);
    ReadConcat(PassDeeds(p, ids, outcomes), ResetDeeds(p, ids[|outcomes|], o));
  }

  class Requeuer {
    const world: World
    const id: ProcId

    constructor (world: World, id: ProcId)
      ensures this.world == world && this.id == id
    {
      this.world := world;
      this.id := id;
    }

    // The reset statement comes back with an error, applied or not.
    method ResetFails() returns (applied: bool, landed: bool)
      requires world.Valid() && RequeueCan(world.View(), id, Reset)
      modifies world
      ensures world.Valid() && id < |world.procs|
      ensures var pc := old(world.procs[id]);
              && world.procs[id] == Resetting(pc.scanAt, pc.ids, pc.i + 1, false)
              && world.Done(id)
                 == old(world.Done(id)) + ResetDeeds(id, pc.ids[pc.i], ResetFailed(applied, landed))
    {
      applied := *;
      var x := world.procs[id].ids[world.procs[id].i];
      landed := applied && x < |world.tasks| && Stale(world.tasks[x], world.now);
      ResetDeed(world.View(), id, ResetError(applied));
      world.Do(Requeue(id, ResetError(applied)));
    }

    method PushBack() returns (alive: bool, pushed: bool)
      requires world.Valid() && RequeueCan(world.View(), id, Repush)
      modifies world
      ensures world.Valid() && id < |world.procs|
      ensures !alive ==> world.procs[id].Gone?
      ensures var pc := old(world.procs[id]);
              alive ==>
                && world.procs[id] == Resetting(pc.scanAt, pc.ids, pc.i + 1, pc.clean)
                && world.Done(id)
                   == old(world.Done(id))
                      + [Deed(Requeue(id, if pushed then Repush else RepushFail), [], [pc.ids[pc.i]])]
    {
      pushed := *;
      alive := Await(world, id, 0);
      if alive {
        var push := if pushed then Repush else RepushFail;
        PlainRequeueDeed(world.View(), id, push);
        world.Do(Requeue(id, push));
      }
    }

    // Reports true if and only if the log gained this row's Reclaimed.
    method TryReset() returns (requeued: bool)
      requires world.Valid() && RequeueCan(world.View(), id, Reset)
      modifies world
      ensures world.Valid() && id < |world.procs|
      ensures var pc := old(world.procs[id]);
              && world.procs[id] == (if requeued then Repushing(pc.scanAt, pc.ids, pc.i, pc.clean)
                                     else Resetting(pc.scanAt, pc.ids, pc.i + 1, pc.clean))
              && world.Done(id)
                 == old(world.Done(id))
                    + [Deed(Requeue(id, Reset), if requeued then [Entry(pc.ids[pc.i], Reclaimed)] else [], [])]
    {
      ResetDeed(world.View(), id, Reset);
      requeued := world.RequeueTask(id);
    }

    // One stale task: reset it if it is still stale, and push it if and only if
    // the reset landed.
    method ResetOne() returns (alive: bool, outcome: ResetOutcome)
      requires world.Valid() && RequeueCan(world.View(), id, Reset)
      modifies world
      ensures world.Valid() && id < |world.procs|
      ensures !alive ==> world.procs[id].Gone?
      ensures var pc := old(world.procs[id]);
              alive ==>
                && world.procs[id] == Resetting(pc.scanAt, pc.ids, pc.i + 1, pc.clean && !outcome.ResetFailed?)
                && world.Done(id) == old(world.Done(id)) + ResetDeeds(id, pc.ids[pc.i], outcome)
    {
      outcome := NotStale;
      alive := Await(world, id, 0);
      if !alive {
        return;
      }
      var dbFails: bool := *;
      if dbFails {
        var applied, landed := ResetFails();
        return true, ResetFailed(applied, landed);
      }
      var requeued := TryReset();
      if requeued {
        var pushed;
        alive, pushed := PushBack();
        outcome := Requeued(pushed);
      }
    }

    method Scan() returns (ids: seq<TaskId>)
      requires world.Valid() && id < |world.procs| && world.procs[id].Resting?
      modifies world
      ensures world.Valid() && id < |world.procs|
      ensures world.procs[id] == Resetting(world.now, ids, 0, true) && Lists(ids, world.tasks, world.now)
      ensures world.Done(id) == old(world.Done(id)) + [Quiet(Requeue(id, Protocol.Scan(ids)))]
    {
      ghost var before := world.View();
      ids := world.GetStaleInProgressTasks(id);
      PlainRequeueDeed(before, id, Protocol.Scan(ids));
    }

    method EndPass()
      requires world.Valid() && RequeueCan(world.View(), id, Protocol.EndPass)
      modifies world
      ensures world.Valid() && id < |world.procs| && world.procs[id].Resting?
      ensures world.Done(id) == old(world.Done(id)) + [Quiet(Requeue(id, Protocol.EndPass))]
    {
      PlainRequeueDeed(world.View(), id, Protocol.EndPass);
      world.Do(Requeue(id, Protocol.EndPass));
    }

    // The loop over the scanned ids.
    method ResetAll(ids: seq<TaskId>) returns (alive: bool, outcomes: seq<ResetOutcome>, attempted: seq<TaskId>)
      requires world.Valid() && id < |world.procs| && world.procs[id].Resetting?
      requires world.procs[id].ids == ids && world.procs[id].i == 0
      modifies world
      ensures world.Valid() && id < |world.procs|
      ensures !alive ==> world.procs[id].Gone?
      ensures alive ==>
                && RequeueCan(world.View(), id, Protocol.EndPass) && |outcomes| == |ids|
                && world.Done(id) == old(world.Done(id)) + PassDeeds(id, ids, outcomes)
                && PaidSoFar(id, ids, outcomes, attempted)
    {
      outcomes, attempted, alive := [], [], true;
      ghost var begun := world.Done(id);
      var i := 0;
      while i < |ids|
        invariant 0 <= i <= |ids| && |outcomes| == i && alive
        invariant world.Valid() && id < |world.procs| && world.procs[id].Resetting?
        invariant world.procs[id].ids == ids && world.procs[id].i == i
        invariant world.Done(id) == begun + PassDeeds(id, ids, outcomes)
        invariant PaidSoFar(id, ids, outcomes, attempted)
      {
        var outcome;
        alive, outcome := ResetOne();
        if !alive {
          return;
        }
        PassDeedsPush(id, ids, outcomes, outcome);
        PaysOn(id, ids, outcomes, attempted, outcome);
        Joined(begun, PassDeeds(id, ids, outcomes), ResetDeeds(id, ids[i], outcome));
        outcomes := outcomes + [outcome];
        attempted := attempted + if outcome.Requeued? then [ids[i]] else [];
        i := i + 1;
      }
    }

    // Under any interference between its statements, a pass scans once, tries
    // every scanned id once in order, and attempts a push for exactly the ids
    // whose reset took the row back, each once. attempted lists them: read off
    // what the steps changed, and read off what they tried to push.
    method RunOnce()
        returns (alive: bool, scanned: bool, ids: seq<TaskId>, outcomes: seq<ResetOutcome>, attempted: seq<TaskId>)
      requires world.Valid() && id < |world.procs| && world.procs[id].Resting?
      modifies world
      ensures world.Valid() && id < |world.procs|
      ensures !alive ==> world.procs[id].Gone?
      ensures alive ==> world.procs[id].Resting? && |outcomes| == |ids| && PaidSoFar(id, ids, outcomes, attempted)
      ensures forall i, j :: 0 <= i < j < |ids| ==> ids[i] != ids[j]
      ensures alive && !scanned ==> ids == [] && world.Done(id) == old(world.Done(id))
      ensures alive && scanned ==>
                world.Done(id) == old(world.Done(id)) + [Quiet(Requeue(id, Protocol.Scan(ids)))]
                                  + PassDeeds(id, ids, outcomes) + [Quiet(Requeue(id, Protocol.EndPass))]
    {
      scanned, ids, outcomes, attempted := false, [], [], [];
      alive := Await(world, id, 0);
      if !alive {
        return;
      }
      var scanFails: bool := *;
      if scanFails {
        return;
      }
      scanned := true;
      ids := Scan();
      alive, outcomes, attempted := ResetAll(ids);
      if alive {
        EndPass();
      }
    }
  }

  // ---- scheduler.go ----

  // One push tried for each row fetched, in order.
  function SweepDeeds(p: ProcId, found: seq<Fetched>, pushes: seq<bool>): seq<Deed>
    requires |pushes| <= |found|
  {
    if pushes == [] then []
    else
      var n := |pushes| - 1;
      SweepDeeds(p, found, pushes[..n])
      + [Deed(Schedule(p, if pushes[n] then PushDue else PushDueFail), [], [found[n].id])]
  }

  lemma SweepDeedsPush(p: ProcId, found: seq<Fetched>, pushes: seq<bool>, ok: bool)
    requires |pushes| < |found|
    ensures SweepDeeds(p, found, pushes + [ok])
         == SweepDeeds(p, found, pushes)
            + [Deed(Schedule(p, if ok then PushDue else PushDueFail), [], [found[|pushes|].id])]
  {
    assert (pushes + [ok])[..|pushes|] == pushes;
  }

  class Scheduler {
    const world: World
    const id: ProcId

    constructor (world: World, id: ProcId)
      ensures this.world == world && this.id == id
    {
      this.world := world;
      this.id := id;
    }

    method Fetch() returns (found: seq<Fetched>)
      requires world.Valid() && id < |world.procs| && world.procs[id].Dozing?
      modifies world
      ensures world.Valid() && id < |world.procs|
      ensures world.procs[id] == Sweeping(found, 0, true) && Fetches(found, world.tasks, world.now)
      ensures world.Done(id) == old(world.Done(id)) + [Quiet(Schedule(id, Sweep(found)))]
    {
      ghost var before := world.View();
      found := world.GetPendingScheduledTasks(id);
      ScheduleDeed(before, id, Sweep(found));
    }

    method PushOne(ok: bool)
      requires world.Valid() && ScheduleCan(world.View(), id, PushDue)
      modifies world
      ensures world.Valid() && id < |world.procs|
      ensures var pc := old(world.procs[id]);
              && world.procs[id] == Sweeping(pc.found, pc.i + 1, pc.allPushed && ok)
              && world.Done(id)
                 == old(world.Done(id))
                    + [Deed(Schedule(id, if ok then PushDue else PushDueFail), [], [pc.found[pc.i].id])]
    {
      var push := if ok then PushDue else PushDueFail;
      ScheduleDeed(world.View(), id, push);
      world.Do(Schedule(id, push));
    }

    method PushAll(found: seq<Fetched>) returns (alive: bool, pushes: seq<bool>)
      requires world.Valid() && id < |world.procs| && world.procs[id] == Sweeping(found, 0, true)
      modifies world
      ensures world.Valid() && id < |world.procs|
      ensures !alive ==> world.procs[id].Gone?
      ensures alive ==>
                && ScheduleCan(world.View(), id, EndSweep) && |pushes| == |found|
                && world.Done(id) == old(world.Done(id)) + SweepDeeds(id, found, pushes)
    {
      pushes, alive := [], true;
      ghost var begun := world.Done(id);
      var i := 0;
      while i < |found|
        invariant 0 <= i <= |found| && |pushes| == i && alive
        invariant world.Valid() && id < |world.procs| && world.procs[id].Sweeping?
        invariant world.procs[id].found == found && world.procs[id].i == i
        invariant world.Done(id) == begun + SweepDeeds(id, found, pushes)
      {
        alive := Await(world, id, 0);
        if !alive {
          return;
        }
        var ok: bool := *;
        PushOne(ok);
        SweepDeedsPush(id, found, pushes, ok);
        pushes := pushes + [ok];
        i := i + 1;
      }
    }

    // One pass: a push is attempted once for every due row fetched, in order.
    method RunOnce() returns (alive: bool, fetched: bool, found: seq<Fetched>, pushes: seq<bool>)
      requires world.Valid() && id < |world.procs| && world.procs[id].Dozing?
      modifies world
      ensures world.Valid() && id < |world.procs|
      ensures !alive ==> world.procs[id].Gone?
      ensures alive ==> world.procs[id].Dozing? && |pushes| == |found|
      ensures alive && !fetched ==> found == [] && world.Done(id) == old(world.Done(id))
      ensures alive && fetched ==>
                world.Done(id) == old(world.Done(id)) + [Quiet(Schedule(id, Sweep(found)))]
                                  + SweepDeeds(id, found, pushes) + [Quiet(Schedule(id, EndSweep))]
    {
      fetched, found, pushes := false, [], [];
      alive := Await(world, id, 0);
      if !alive {
        return;
      }
      var queryFails: bool := *;
      if queryFails {
        return;
      }
      fetched := true;
      found := Fetch();
      alive, pushes := PushAll(found);
      if alive {
        ScheduleDeed(world.View(), id, EndSweep);
        world.Do(Schedule(id, EndSweep));
      }
    }
  }
}
