// The shared world as an object: the Postgres table, the Redis list, the clock
// and everyone's program counter, changed statement by statement. Between two
// statements of one process the others may do anything the protocol allows.
module Cluster {
  import opened Wrappers
  import opened TaskTable
  import opened Protocol
  import opened Safety
  import opened Deeds
  import opened Statements

  class World {
    var now: Time
    var tasks: seq<Row>
    var queue: seq<TaskId>
    var procs: seq<Proc>
    var beats: seq<Beat>
    // history, consulted by no method
    var lost: set<TaskId>
    var lastPass: Time
    var log: seq<Entry>
    var work: seq<Effort>
    var pushed: seq<TaskId>
    var popped: seq<TaskId>

    const start: Time
    ghost var trace: seq<Action>

    function View(): State
      reads this
    {
      State(now, tasks, queue, procs, beats, lost, lastPass, log, work, pushed, popped)
    }

    // The world is always the outcome of the run recorded so far, each step of
    // which was enabled when taken, so every theorem about runs speaks about it.
    ghost predicate Valid()
      reads this
    {
      Legal(Init(start), trace) && View() == Exec(Init(start), trace)
    }

    // What process p has done so far.
    ghost function Done(p: ProcId): seq<Deed>
      requires Legal(Init(start), trace)
      reads this`trace
    {
      DeedsOf(Init(start), trace, p)
    }

    constructor (start: Time)
      ensures Valid() && View() == Init(start) && trace == []
    {
      this.start := start;
      now, lastPass := start, start;
      tasks, queue, procs, beats, lost := [], [], [], [], {};
      log, work, pushed, popped := [], [], [], [];
      trace := [];
    }

    // What a statement of action a must achieve.
    twostate predicate Took(a: Action)
      reads this
    {
      && old(Valid()) && old(Enabled(View(), a)) && Valid()
      && View() == Next(old(View()), a) && trace == old(trace) + [a]
      && forall p: ProcId :: Done(p) == old(Done(p)) + (if Actor(a) == Some(p) then [DeedOf(old(View()), a)] else [])
    }

    ghost method Record(a: Action, before: State)
      requires Legal(Init(start), trace) && before == Exec(Init(start), trace)
      requires Enabled(before, a) && View() == Next(before, a)
      modifies this`trace
      ensures Valid() && trace == old(trace) + [a]
      ensures forall p: ProcId :: Done(p) == old(Done(p)) + (if Actor(a) == Some(p) then [DeedOf(before, a)] else [])
    {
      ExecPush(Init(start), trace, a);
      LegalPush(Init(start), trace, a);
      forall p: ProcId ensures DeedsOf(Init(start), trace + [a], p)
        == DeedsOf(Init(start), trace, p) + (if Actor(a) == Some(p) then [DeedOf(before, a)] else [])
      {
        DeedsPush(Init(start), trace, a, p);
      }
      trace := trace + [a];
    }

    method Become(s: State)
      modifies this
      ensures View() == s && trace == old(trace)
    {
      now, tasks, queue, procs, beats := s.now, s.tasks, s.queue, s.procs, s.beats;
      lost, lastPass, log, work, pushed, popped := s.lost, s.lastPass, s.log, s.work, s.pushed, s.popped;
    }

    // Anything the rest of the system does while p waits, in at most the given time.
    method Others(p: ProcId, within: nat)
      requires Valid() && p < |procs|
      modifies this
      ensures Valid() && p < |procs| && procs[p] == old(procs[p])
      ensures |old(tasks)| <= |tasks| && old(now) <= now <= old(now) + within
      ensures old(trace) <= trace && Done(p) == old(Done(p))
    {
      var env: seq<Action> := *;
      var deadline := now + within;
      var i := 0;
      while i < |env|
        invariant 0 <= i <= |env|
        invariant Valid() && p < |procs| && procs[p] == old(procs[p])
        invariant |old(tasks)| <= |tasks| && old(now) <= now <= deadline
        invariant old(trace) <= trace && Done(p) == old(Done(p))
      {
        if Actor(env[i]) != Some(p) && Enabled(View(), env[i])
           && (env[i].Tick? ==> now + env[i].d <= deadline)
        {
          CoreAlways(start, trace);
          OthersLeaveAlone(View(), env[i], p);
          StepEvolves(View(), env[i]);
          OnlyTicksTakeTime(View(), env[i]);
          Do(env[i]);
        }
        i := i + 1;
      }
    }

    // ---- the worker's statements ----

    method BRPop(p: ProcId) returns (id: TaskId)
      requires Valid() && WorkCan(View(), p, Pop)
      modifies this
      ensures Took(Work(p, Pop)) && id == old(queue)[|old(queue)| - 1]
    {
      ghost var before := View();
      id := queue[|queue| - 1];
      queue := queue[..|queue| - 1];
      popped := popped + [id];
      procs := procs[p := Popped(id)];
      Record(Work(p, Pop), before);
    }

    method ClaimTask(p: ProcId) returns (task: Option<Row>)
      requires Valid() && WorkCan(View(), p, Claim)
      modifies this
      ensures Took(Work(p, Claim))
      ensures var id := old(procs[p]).id;
              && (task.Some? <==>
                    id < |old(tasks)| && (old(tasks)[id].status.Pending? || old(tasks)[id].status.Retry?))
              && (task.Some? ==>
                    ClaimedRow(old(tasks)[id], task.value, p, now) && tasks == old(tasks)[id := task.value])
              && (task.None? ==> tasks == old(tasks))
    {
      ghost var before := View();
      var id := procs[p].id;
      if id < |tasks| && Claimable(tasks[id]) {
        var row := LandClaim(p, id);
        task := Some(row);
      } else {
        procs := procs[p := Idle];
        task := None;
      }
      Record(Work(p, Claim), before);
    }

    // The row is locked, and the registry says how the worker goes on.
    method LandClaim(p: ProcId, id: TaskId) returns (row: Row)
      requires WorkCan(View(), p, Claim) && procs[p].id == id && id < |tasks| && Claimable(tasks[id])
      modifies this`tasks, this`log, this`lost, this`procs
      ensures View() == AfterClaim(old(View()), p)
      ensures ClaimedRow(old(tasks)[id], row, p, now) && tasks == old(tasks)[id := row]
    {
      row := ClaimRow(tasks[id], p, now);
      tasks := tasks[id := row];
      log := log + [Entry(id, Claimed(p))];
      lost := lost - {id};
      procs := procs[p := if Known(row.service) then Running(id, row) else Writing(id, row, ToDeadLetter)];
    }

    method SendHeartbeat(p: ProcId)
      requires Valid() && WorkCan(View(), p, SendBeat)
      modifies this
      ensures Took(Work(p, SendBeat))
    {
      ghost var before := View();
      beats := beats + [Beat(p, procs[p].id)];
      Record(Work(p, SendBeat), before);
    }

    method FinishAutomation(p: ProcId, outcome: Outcome, calls: nat)
      requires Valid() && WorkCan(View(), p, Finish(outcome, calls))
      modifies this
      ensures Took(Work(p, Finish(outcome, calls)))
      ensures var v := procs[p].verdict;
              && (v.ToSuccess? <==> outcome.Succeeded?)
              && (outcome.DetectedTrialEnd? ==> v == ToSchedule(outcome.when))
              && (outcome.Failure? ==>
                    v == if old(procs[p]).task.attempts < old(procs[p]).task.maxAttempts then ToRetry else ToDeadLetter)
    {
      ghost var before := View();
      var pc := procs[p];
      procs := procs[p := Writing(pc.id, pc.task, Verdicted(pc.task, outcome))];
      work := work + [Effort(pc.id, calls)];
      Record(Work(p, Finish(outcome, calls)), before);
    }

    // updateTaskSuccess, updateTaskRetry, updateTaskDeadLetter or scheduleTask,
    // as the verdict says. Returns whether the write landed.
    method WriteResult(p: ProcId) returns (landed: bool)
      requires Valid() && WorkCan(View(), p, Write)
      modifies this
      ensures Took(Work(p, Write))
      ensures var pc := old(procs[p]);
              && (landed <==> pc.id < |old(tasks)| && old(tasks)[pc.id].lockedBy == Some(p))
              && (landed ==>
                    && pc.id < |tasks| && tasks == old(tasks)[pc.id := tasks[pc.id]]
                    && ResultRow(old(tasks)[pc.id], tasks[pc.id], pc.verdict, now))
              && (!landed ==> tasks == old(tasks))
    {
      ghost var before := View();
      var pc := procs[p];
      landed := pc.id < |tasks| && OwnedBy(tasks[pc.id], p);
      if landed {
        LandResult(p, pc.id, pc.verdict, pc.task.attempts);
      } else {
        procs := procs[p := Idle];
      }
      Record(Work(p, Write), before);
    }

    // The row changes, and the worker goes on as processTask does.
    method LandResult(p: ProcId, id: TaskId, v: Verdict, epoch: nat)
      requires WorkCan(View(), p, Write) && procs[p].id == id && procs[p].verdict == v
      requires procs[p].task.attempts == epoch && id < |tasks| && OwnedBy(tasks[id], p)
      modifies this`tasks, this`log, this`procs, this`lost
      ensures View() == AfterWrite(old(View()), p)
    {
      tasks := tasks[id := Written(tasks[id], v, now)];
      log := log + [Entry(id, WriteEvent(v, p, epoch))];
      if v.ToRetry? {
        procs := procs[p := Pushing(id)];
      } else if v == ToSchedule(None) {
        procs := procs[p := Gone];
        lost := lost + {id};
      } else {
        procs := procs[p := Idle];
      }
    }

    method LPushRetry(p: ProcId)
      requires Valid() && WorkCan(View(), p, PushRetry)
      modifies this
      ensures Took(Work(p, PushRetry)) && queue == [old(procs[p]).id] + old(queue)
    {
      ghost var before := View();
      Enqueue(procs[p].id);
      procs := procs[p := Idle];
      Record(Work(p, PushRetry), before);
    }

    // Producer.Enqueue: LPUSH to the head.
    method Enqueue(id: TaskId)
      modifies this`queue, this`pushed, this`lost
      ensures queue == [id] + old(queue) && pushed == old(pushed) + [id] && lost == old(lost) - {id}
    {
      queue := [id] + queue;
      pushed := pushed + [id];
      lost := lost - {id};
    }

    method Die(p: ProcId, calls: nat)
      requires Valid() && CrashCan(View(), p, calls)
      modifies this
      ensures Took(Crash(p, calls)) && p < |procs| && procs[p] == Gone
    {
      ghost var before := View();
      var next := AfterCrash(View(), p, calls);
      Become(next);
      Record(Crash(p, calls), before);
    }

    // ---- the requeuer's statements ----

    // The rows of the stale scan; the loop over the result set is CollectStale.
    method GetStaleInProgressTasks(p: ProcId) returns (ids: seq<TaskId>)
      requires Valid() && p < |procs| && procs[p].Resting?
      modifies this
      ensures Took(Requeue(p, Scan(ids)))
    {
      ghost var before := View();
      ids := CollectStale();
      procs := procs[p := Resetting(now, ids, 0, true)];
      Record(Requeue(p, Scan(ids)), before);
    }

    method CollectStale() returns (ids: seq<TaskId>)
      ensures Lists(ids, tasks, now)
      ensures forall id :: 0 <= id < |tasks| ==>
                (id in ids <==> tasks[id].status.InProgress? && tasks[id].lockedAt.Some?
                                && now - tasks[id].lockedAt.value > 30_000)
    {
      ids := [];
      for id := 0 to |tasks|
        invariant forall i, j :: 0 <= i < j < |ids| ==> ids[i] != ids[j]
        invariant forall i :: 0 <= i < |ids| ==> ids[i] < id && Stale(tasks[ids[i]], now)
        invariant forall k :: 0 <= k < id && Stale(tasks[k], now) ==> k in ids
      {
        if Stale(tasks[id], now) {
          ids := ids + [id];
        }
      }
    }

    // Returns whether the row was still stale and has been reset.
    method RequeueTask(p: ProcId) returns (requeued: bool)
      requires Valid() && RequeueCan(View(), p, Reset)
      modifies this
      ensures Took(Requeue(p, Reset))
      ensures var id := old(procs[p].ids[procs[p].i]);
              && (requeued <==> id < |old(tasks)| && Stale(old(tasks)[id], now))
              && (requeued <==>
                    && id < |old(tasks)| && old(tasks)[id].status.InProgress? && old(tasks)[id].lockedAt.Some?
                    && now - old(tasks)[id].lockedAt.value > 30_000)
              && (requeued ==>
                    id < |tasks| && tasks == old(tasks)[id := tasks[id]] && ResetRow(old(tasks)[id], tasks[id], now))
              && (!requeued ==> tasks == old(tasks))
    {
      ghost var before := View();
      var pc := procs[p];
      var id := pc.ids[pc.i];
      requeued := id < |tasks| && Stale(tasks[id], now);
      if requeued {
        tasks := tasks[id := Release(tasks[id], Pending, now)];
        log := log + [Entry(id, Reclaimed)];
        procs := procs[p := Repushing(pc.scanAt, pc.ids, pc.i, pc.clean)];
      } else {
        procs := procs[p := Resetting(pc.scanAt, pc.ids, pc.i + 1, pc.clean)];
      }
      Record(Requeue(p, Reset), before);
    }

    // Any step, by its effect.
    method Do(a: Action)
      requires Valid() && Enabled(View(), a)
      modifies this
      ensures Took(a)
    {
      ghost var before := View();
      var next := Next(View(), a);
      Become(next);
      Record(a, before);
    }

    // ---- the scheduler's query ----

    method GetPendingScheduledTasks(p: ProcId) returns (found: seq<Fetched>)
      requires Valid() && p < |procs| && procs[p].Dozing?
      modifies this
      ensures Took(Schedule(p, Sweep(found)))
    {
      ghost var before := View();
      found := CollectDue();
      procs := procs[p := Sweeping(found, 0, true)];
      Record(Schedule(p, Sweep(found)), before);
    }

    method CollectDue() returns (found: seq<Fetched>)
      ensures Fetches(found, tasks, now)
      ensures forall id :: 0 <= id < |tasks| ==>
                (Fetched(id, tasks[id]) in found <==>
                   tasks[id].status.Pending? && tasks[id].scheduledFor.Some? && tasks[id].scheduledFor.value <= now)
    {
      found := [];
      for id := 0 to |tasks|
        invariant forall i :: 0 <= i < |found| ==>
                    found[i].id < id && found[i].row == tasks[found[i].id] && SweepDue(found[i].row, now)
        invariant forall k :: 0 <= k < id && SweepDue(tasks[k], now) ==> Fetched(k, tasks[k]) in found
      {
        if SweepDue(tasks[id], now) {
          found := found + [Fetched(id, tasks[id])];
        }
      }
    }

    // ---- the request's statements ----

    method InsertTask(p: ProcId) returns (inserted: bool)
      requires Valid() && CreateCan(View(), p, Insert)
      modifies this
      ensures Took(Create(p, Insert))
      ensures inserted <==> !KeyTaken(old(tasks), old(procs[p]).req.key)
      ensures var req := old(procs[p]).req;
              && (inserted ==>
                    && |tasks| == |old(tasks)| + 1 && tasks[..|old(tasks)|] == old(tasks)
                    && FreshRow(tasks[|old(tasks)|], req, now)
                    && procs[p] == Returned(req, |old(tasks)|, tasks[|old(tasks)|]))
              && (!inserted ==> tasks == old(tasks) && procs[p] == Conflicted(req))
    {
      ghost var before := View();
      var req := procs[p].req;
      inserted := !KeyTaken(tasks, req.key);
      if inserted {
        var row := NewRow(req, now);
        procs := procs[p := Returned(req, |tasks|, row)];
        tasks := tasks + [row];
      } else {
        procs := procs[p := Conflicted(req)];
      }
      Record(Create(p, Insert), before);
    }

    method GetTaskByIdempotencyKey(p: ProcId) returns (id: TaskId)
      requires Valid() && p < |procs| && procs[p].Conflicted?
      modifies this
      ensures Took(Create(p, Lookup(id)))
      ensures tasks == old(tasks) && id < |tasks| && tasks[id].key == old(procs[p]).req.key
      ensures procs[p] == Returned(old(procs[p]).req, id, tasks[id])
    {
      ghost var before := View();
      CoreAlways(start, trace);
      assert ProcOk(procs[p], tasks);
      id :| 0 <= id < |tasks| && tasks[id].key == procs[p].req.key;
      procs := procs[p := Returned(procs[p].req, id, tasks[id])];
      Record(Create(p, Lookup(id)), before);
    }
  }
}
