// The leased task protocol as one labelled transition system. Every SQL
// statement, every LPUSH and every BRPOP is one atomic step; any number of
// workers, requeuers, schedulers and create requests interleave freely.
module Protocol {
  import opened Wrappers
  import opened TaskTable

  // What an automation reports, and what the worker decides to write.
  datatype Outcome = Succeeded | Failure | DetectedTrialEnd(when: Option<Time>)
  datatype Verdict = ToSuccess | ToRetry | ToDeadLetter | ToSchedule(when: Option<Time>)

  // A task fetched by a SELECT: its id and the row as it was at that moment.
  datatype Fetched = Fetched(id: TaskId, row: Row)

  datatype Proc =
    // a worker: waiting on BRPOP, holding a popped id, inside the automation,
    // about to write its verdict, about to push a retry
    | Idle
    | Popped(id: TaskId)
    | Running(id: TaskId, task: Row)
    | Writing(id: TaskId, task: Row, verdict: Verdict)
    | Pushing(id: TaskId)
    // a requeuer: between ticks, at position i of its loop, between reset and push
    | Resting
    | Resetting(scanAt: Time, ids: seq<TaskId>, i: nat, clean: bool)
    | Repushing(scanAt: Time, ids: seq<TaskId>, i: nat, clean: bool)
    // a scheduler: between ticks, at position i of its loop
    | Dozing
    | Sweeping(found: seq<Fetched>, i: nat, allPushed: bool)
    // a POST /tasks request: before the INSERT, after a conflict, holding the
    // returned row, about to enqueue, answered
    | Arrived(req: Request)
    | Conflicted(req: Request)
    | Returned(req: Request, id: TaskId, task: Row)
    | Enqueuing(req: Request, id: TaskId, task: Row)
    | Answered(req: Request, id: TaskId, task: Row, code: nat)
    // crashed, stopped, or answered with an error
    | Gone

  datatype Beat = Beat(who: ProcId, id: TaskId)

  // Landed changes of a row's life. The epoch is the attempt number in the
  // snapshot of the process that made the change.
  datatype Event =
    | Claimed(who: ProcId)
    | Retried(who: ProcId, epoch: nat)
    | Rescheduled(who: ProcId, epoch: nat)
    | Reclaimed
    | Completed(who: ProcId, epoch: nat)
    | Buried(who: ProcId, epoch: nat)

  datatype Entry = Entry(id: TaskId, event: Event)
  datatype Effort = Effort(id: TaskId, calls: nat)

  datatype State = State(
    now: Time,
    tasks: seq<Row>,
    queue: seq<TaskId>,       // head (LPUSH side) first
    procs: seq<Proc>,
    beats: seq<Beat>,         // heartbeat statements sent and not yet landed
    // history, read by no step
    lost: set<TaskId>,        // a push or a popped token was dropped; no push or claim landed since
    lastPass: Time,           // scan time of the latest requeue pass that ran without a database error
    log: seq<Entry>,
    work: seq<Effort>,        // model calls made per finished or crashed automation run
    pushed: seq<TaskId>,
    popped: seq<TaskId>)

  datatype WorkerStep =
    | Pop | Claim | Finish(outcome: Outcome, calls: nat) | Write | PushRetry | SendBeat

  datatype RequeuerStep =
    | Scan(ids: seq<TaskId>) | Reset | ResetError(applied: bool) | Repush | RepushFail | EndPass

  datatype SchedulerStep =
    | Sweep(found: seq<Fetched>) | PushDue | PushDueFail | EndSweep

  datatype CreateStep =
    | Insert | InsertError(applied: bool) | Lookup(id: TaskId) | Settle(goNow: Time) | Enqueue | EnqueueFail

  datatype Action =
    | Tick(d: nat)
    | Spawn(proc: Proc)
    | Crash(p: ProcId, calls: nat)
    | Work(p: ProcId, w: WorkerStep)
    | Requeue(p: ProcId, r: RequeuerStep)
    | Schedule(p: ProcId, c: SchedulerStep)
    | Create(p: ProcId, q: CreateStep)
    | LandBeat(k: nat)
    | LoseBeat(k: nat)

  // ---- the automation registry ----

  function LowerChar(c: char): char {
    if 'A' <= c <= 'Z' then (c as int + 32) as char else c
  }

  function Lower(s: string): string {
    seq(|s|, i requires 0 <= i < |s| => LowerChar(s[i]))
  }

  // The registry is a plain object, so two names inherited by every object are
  // found as well; neither is an automation and both runs end in failure.
  predicate Known(service: string) {
    Lower(service) in {"test", "universal", "constructor", "__proto__"}
  }

  // Model calls of one automation run; Universal proves the figure.
  const MAX_MODEL_CALLS: nat := 360

  function CallBound(service: string): nat {
    if Lower(service) == "universal" then MAX_MODEL_CALLS else 0
  }

  function Verdicted(task: Row, outcome: Outcome): Verdict {
    match outcome
    case DetectedTrialEnd(when) => ToSchedule(when)
    case Succeeded => ToSuccess
    case Failure => if task.attempts >= task.maxAttempts then ToDeadLetter else ToRetry
  }

  function Written(r: Row, v: Verdict, now: Time): Row {
    match v
    case ToSuccess => Release(r, Success, now)
    case ToRetry => Release(r, Retry, now)
    case ToDeadLetter => Release(r, DeadLetter, now)
    case ToSchedule(when) => ScheduleRow(r, when, now)
  }

  function WriteEvent(v: Verdict, p: ProcId, epoch: nat): Event {
    match v
    case ToSuccess => Completed(p, epoch)
    case ToRetry => Retried(p, epoch)
    case ToDeadLetter => Buried(p, epoch)
    case ToSchedule(_) => Rescheduled(p, epoch)
  }

  // ---- tokens in hand ----

  // The id a process is bound to push or to try to claim next. An unscheduled
  // row that looks new to its create request will be pushed by that request.
  function Carried(pc: Proc): set<TaskId> {
    match pc
    case Popped(id) => {id}
    case Pushing(id) => {id}
    case Repushing(_, ids, i, _) => if i < |ids| then {ids[i]} else {}
    case Returned(_, id, task) => if IsNew(task) && task.scheduledFor.None? then {id} else {}
    case Enqueuing(_, id, _) => {id}
    case _ => {}
  }

  // ---- building blocks of a step ----

  function SetProc(s: State, p: ProcId, pc: Proc): State
    requires p < |s.procs|
  {
    s.(procs := s.procs[p := pc])
  }

  function SetRow(s: State, id: TaskId, row: Row): State
    requires id < |s.tasks|
  {
    s.(tasks := s.tasks[id := row])
  }

  function Change(s: State, id: TaskId, row: Row, e: Event): State
    requires id < |s.tasks|
  {
    SetRow(s, id, row).(log := s.log + [Entry(id, e)])
  }

  function LPush(s: State, id: TaskId): State {
    s.(queue := [id] + s.queue, pushed := s.pushed + [id], lost := s.lost - {id})
  }

  function Lose(s: State, ids: set<TaskId>): State {
    s.(lost := s.lost + ids)
  }

  predicate Lists(ids: seq<TaskId>, tasks: seq<Row>, now: Time) {
    && (forall i, j :: 0 <= i < j < |ids| ==> ids[i] != ids[j])
    && (forall i :: 0 <= i < |ids| ==> ids[i] < |tasks| && Stale(tasks[ids[i]], now))
    && (forall id :: 0 <= id < |tasks| && Stale(tasks[id], now) ==> id in ids)
  }

  predicate Fetches(found: seq<Fetched>, tasks: seq<Row>, now: Time) {
    && (forall i :: 0 <= i < |found| ==>
          found[i].id < |tasks| && found[i].row == tasks[found[i].id] && SweepDue(found[i].row, now))
    && (forall id :: 0 <= id < |tasks| && SweepDue(tasks[id], now) ==> Fetched(id, tasks[id]) in found)
  }

  // ---- the worker ----

  predicate WorkCan(s: State, p: ProcId, w: WorkerStep) {
    p < |s.procs| &&
    match w
    case Pop => s.procs[p].Idle? && s.queue != []
    case Claim => s.procs[p].Popped?
    case Finish(_, calls) => s.procs[p].Running? && calls <= CallBound(s.procs[p].task.service)
    case Write => s.procs[p].Writing?
    case PushRetry => s.procs[p].Pushing?
    case SendBeat => s.procs[p].Running?
  }

  // claimTask, and the registry lookup that follows a landed claim.
  function AfterClaim(s: State, p: ProcId): State
    requires WorkCan(s, p, Claim)
  {
    var id := s.procs[p].id;
    if id < |s.tasks| && Claimable(s.tasks[id]) then
      var row := ClaimRow(s.tasks[id], p, s.now);
      SetProc(Change(s, id, row, Claimed(p)).(lost := s.lost - {id}), p,
              if Known(row.service) then Running(id, row) else Writing(id, row, ToDeadLetter))
    else
      SetProc(s, p, Idle)
  }

  // The result write. A trial end reported without a date lands as NULL and
  // the log line after it then throws, which ends the worker.
  function AfterWrite(s: State, p: ProcId): State
    requires WorkCan(s, p, Write)
  {
    var pc := s.procs[p];
    if pc.id < |s.tasks| && OwnedBy(s.tasks[pc.id], p) then
      var s1 := Change(s, pc.id, Written(s.tasks[pc.id], pc.verdict, s.now),
                       WriteEvent(pc.verdict, p, pc.task.attempts));
      match pc.verdict
      case ToRetry => SetProc(s1, p, Pushing(pc.id))
      case ToSchedule(None) => SetProc(Lose(s1, {pc.id}), p, Gone)
      case _ => SetProc(s1, p, Idle)
    else
      SetProc(s, p, Idle)
  }

  function WorkNext(s: State, p: ProcId, w: WorkerStep): State
    requires WorkCan(s, p, w)
  {
    var pc := s.procs[p];
    match w
    case Pop =>
      var id := s.queue[|s.queue| - 1];
      SetProc(s, p, Popped(id)).(queue := s.queue[..|s.queue| - 1], popped := s.popped + [id])
    case Claim => AfterClaim(s, p)
    case Finish(outcome, calls) =>
      SetProc(s, p, Writing(pc.id, pc.task, Verdicted(pc.task, outcome))).(work := s.work + [Effort(pc.id, calls)])
    case Write => AfterWrite(s, p)
    case PushRetry => SetProc(LPush(s, pc.id), p, Idle)
    case SendBeat => s.(beats := s.beats + [Beat(p, pc.id)])
  }

  // ---- heartbeats in flight, and crashes ----

  function AfterBeat(s: State, k: nat): State
    requires k < |s.beats|
  {
    var b := s.beats[k];
    var s1 := s.(beats := s.beats[..k] + s.beats[k+1..]);
    if b.id < |s.tasks| && BeatLands(s.tasks[b.id], b.who)
    then SetRow(s1, b.id, BeatRow(s.tasks[b.id], s.now)) else s1
  }

  predicate CrashCan(s: State, p: ProcId, calls: nat) {
    && p < |s.procs| && !s.procs[p].Gone? && !s.procs[p].Answered?
    && calls <= (if s.procs[p].Running? then CallBound(s.procs[p].task.service) else 0)
  }

  function AfterCrash(s: State, p: ProcId, calls: nat): State
    requires CrashCan(s, p, calls)
  {
    var pc := s.procs[p];
    var s1 := SetProc(Lose(s, Carried(pc)), p, Gone);
    if pc.Running? then s1.(work := s.work + [Effort(pc.id, calls)]) else s1
  }

  // ---- the requeuer ----

  predicate RequeueCan(s: State, p: ProcId, r: RequeuerStep) {
    p < |s.procs| &&
    match r
    case Scan(ids) => s.procs[p].Resting? && Lists(ids, s.tasks, s.now)
    case Reset => s.procs[p].Resetting? && s.procs[p].i < |s.procs[p].ids|
    case ResetError(_) => s.procs[p].Resetting? && s.procs[p].i < |s.procs[p].ids|
    case Repush => s.procs[p].Repushing? && s.procs[p].i < |s.procs[p].ids|
    case RepushFail => s.procs[p].Repushing? && s.procs[p].i < |s.procs[p].ids|
    case EndPass => s.procs[p].Resetting? && s.procs[p].i >= |s.procs[p].ids|
  }

  function AfterReset(s: State, p: ProcId): State
    requires RequeueCan(s, p, Reset)
  {
    var pc := s.procs[p];
    var id := pc.ids[pc.i];
    if id < |s.tasks| && Stale(s.tasks[id], s.now) then
      SetProc(Change(s, id, Release(s.tasks[id], Pending, s.now), Reclaimed), p,
              Repushing(pc.scanAt, pc.ids, pc.i, pc.clean))
    else
      SetProc(s, p, Resetting(pc.scanAt, pc.ids, pc.i + 1, pc.clean))
  }

  // An error reply leaves open whether the statement was applied.
  function AfterResetError(s: State, p: ProcId, applied: bool): State
    requires RequeueCan(s, p, ResetError(applied))
  {
    var pc := s.procs[p];
    var id := pc.ids[pc.i];
    var next := Resetting(pc.scanAt, pc.ids, pc.i + 1, false);
    if applied && id < |s.tasks| && Stale(s.tasks[id], s.now) then
      SetProc(Lose(Change(s, id, Release(s.tasks[id], Pending, s.now), Reclaimed), {id}), p, next)
    else
      SetProc(s, p, next)
  }

  function RequeueNext(s: State, p: ProcId, r: RequeuerStep): State
    requires RequeueCan(s, p, r)
  {
    var pc := s.procs[p];
    match r
    case Scan(ids) => SetProc(s, p, Resetting(s.now, ids, 0, true))
    case Reset => AfterReset(s, p)
    case ResetError(applied) => AfterResetError(s, p, applied)
    case Repush => SetProc(LPush(s, pc.ids[pc.i]), p, Resetting(pc.scanAt, pc.ids, pc.i + 1, pc.clean))
    case RepushFail => SetProc(Lose(s, {pc.ids[pc.i]}), p, Resetting(pc.scanAt, pc.ids, pc.i + 1, pc.clean))
    case EndPass =>
      SetProc(s, p, Resting).(lastPass := if pc.clean && pc.scanAt > s.lastPass then pc.scanAt else s.lastPass)
  }

  // ---- the scheduler ----

  predicate ScheduleCan(s: State, p: ProcId, c: SchedulerStep) {
    p < |s.procs| &&
    match c
    case Sweep(found) => s.procs[p].Dozing? && Fetches(found, s.tasks, s.now)
    case PushDue => s.procs[p].Sweeping? && s.procs[p].i < |s.procs[p].found|
    case PushDueFail => s.procs[p].Sweeping? && s.procs[p].i < |s.procs[p].found|
    case EndSweep => s.procs[p].Sweeping? && s.procs[p].i >= |s.procs[p].found|
  }

  function ScheduleNext(s: State, p: ProcId, c: SchedulerStep): State
    requires ScheduleCan(s, p, c)
  {
    var pc := s.procs[p];
    match c
    case Sweep(found) => SetProc(s, p, Sweeping(found, 0, true))
    case PushDue => SetProc(LPush(s, pc.found[pc.i].id), p, Sweeping(pc.found, pc.i + 1, pc.allPushed))
    case PushDueFail => SetProc(s, p, Sweeping(pc.found, pc.i + 1, false))
    case EndSweep => SetProc(s, p, Dozing)
  }

  // ---- POST /tasks ----

  predicate CreateCan(s: State, p: ProcId, q: CreateStep) {
    p < |s.procs| &&
    match q
    case Insert => s.procs[p].Arrived?
    case InsertError(_) => s.procs[p].Arrived?
    case Lookup(id) => s.procs[p].Conflicted? && id < |s.tasks| && s.tasks[id].key == s.procs[p].req.key
    case Settle(_) => s.procs[p].Returned?
    case Enqueue => s.procs[p].Enqueuing?
    case EnqueueFail => s.procs[p].Enqueuing?
  }

  function AfterInsert(s: State, p: ProcId): State
    requires CreateCan(s, p, Insert)
  {
    var req := s.procs[p].req;
    if KeyTaken(s.tasks, req.key) then
      SetProc(s, p, Conflicted(req))
    else
      var row := NewRow(req, s.now);
      SetProc(s.(tasks := s.tasks + [row]), p, Returned(req, |s.tasks|, row))
  }

  function AfterInsertError(s: State, p: ProcId, applied: bool): State
    requires CreateCan(s, p, InsertError(applied))
  {
    var req := s.procs[p].req;
    if applied && !KeyTaken(s.tasks, req.key) then
      var s1 := s.(tasks := s.tasks + [NewRow(req, s.now)]);
      SetProc(if req.scheduledFor.None? then Lose(s1, {|s.tasks|}) else s1, p, Gone)
    else
      SetProc(s, p, Gone)
  }

  // The handler's test; goNow is its reading of the API's own clock.
  predicate ScheduledFuture(task: Row, goNow: Time) {
    task.scheduledFor.Some? && task.scheduledFor.value > goNow
  }

  function AfterSettle(s: State, p: ProcId, goNow: Time): State
    requires CreateCan(s, p, Settle(goNow))
  {
    var pc := s.procs[p];
    if IsNew(pc.task) && !ScheduledFuture(pc.task, goNow)
    then SetProc(s, p, Enqueuing(pc.req, pc.id, pc.task))
    else SetProc(s, p, Answered(pc.req, pc.id, pc.task, if IsNew(pc.task) then 201 else 200))
  }

  function CreateNext(s: State, p: ProcId, q: CreateStep): State
    requires CreateCan(s, p, q)
  {
    var pc := s.procs[p];
    match q
    case Insert => AfterInsert(s, p)
    case InsertError(applied) => AfterInsertError(s, p, applied)
    case Lookup(id) => SetProc(s, p, Returned(pc.req, id, s.tasks[id]))
    case Settle(goNow) => AfterSettle(s, p, goNow)
    case Enqueue => SetProc(LPush(s, pc.id), p, Answered(pc.req, pc.id, pc.task, 201))
    case EnqueueFail => SetProc(Lose(s, {pc.id}), p, Answered(pc.req, pc.id, pc.task, 201))
  }

  // ---- all steps ----

  predicate CanSpawn(pc: Proc) {
    pc.Idle? || pc.Resting? || pc.Dozing? || pc.Arrived?
  }

  predicate Enabled(s: State, a: Action) {
    match a
    case Tick(_) => true
    case Spawn(pc) => CanSpawn(pc)
    case Crash(p, calls) => CrashCan(s, p, calls)
    case Work(p, w) => WorkCan(s, p, w)
    case Requeue(p, r) => RequeueCan(s, p, r)
    case Schedule(p, c) => ScheduleCan(s, p, c)
    case Create(p, q) => CreateCan(s, p, q)
    case LandBeat(k) => k < |s.beats|
    case LoseBeat(k) => k < |s.beats|
  }

  function Next(s: State, a: Action): State
    requires Enabled(s, a)
  {
    match a
    case Tick(d) => s.(now := s.now + d)
    case Spawn(pc) => s.(procs := s.procs + [pc])
    case Crash(p, calls) => AfterCrash(s, p, calls)
    case Work(p, w) => WorkNext(s, p, w)
    case Requeue(p, r) => RequeueNext(s, p, r)
    case Schedule(p, c) => ScheduleNext(s, p, c)
    case Create(p, q) => CreateNext(s, p, q)
    case LandBeat(k) => AfterBeat(s, k)
    case LoseBeat(k) => s.(beats := s.beats[..k] + s.beats[k+1..])
  }

  // ---- runs ----

  function Init(start: Time): State {
    State(start, [], [], [], [], {}, start, [], [], [], [])
  }

  // An action that is not enabled leaves the state alone, so every list of
  // actions is a run and every run is a list of actions.
  function Step(s: State, a: Action): State {
    if Enabled(s, a) then Next(s, a) else s
  }

  function Exec(s: State, acts: seq<Action>): State {
    if acts == [] then s else Step(Exec(s, acts[..|acts| - 1]), acts[|acts| - 1])
  }

  // A list of actions each of which was enabled when it was taken.
  predicate Legal(s: State, acts: seq<Action>) {
    acts == [] || (Legal(s, acts[..|acts| - 1]) && Enabled(Exec(s, acts[..|acts| - 1]), acts[|acts| - 1]))
  }

  lemma LegalPush(s: State, acts: seq<Action>, a: Action)
    ensures Legal(s, acts + [a]) <==> Legal(s, acts) && Enabled(Exec(s, acts), a)
  {
    assert (acts + [a])[..|acts|] == acts;
  }

  lemma ExecPush(s: State, acts: seq<Action>, a: Action)
    ensures Exec(s, acts + [a]) == Step(Exec(s, acts), a)
  {
    assert (acts + [a])[..|acts|] == acts;
  }

  // Every step of the run satisfies ok.
  predicate Throughout(s: State, acts: seq<Action>, ok: (State, Action) -> bool) {
    acts == [] ||
    (Throughout(s, acts[..|acts| - 1], ok) && ok(Exec(s, acts[..|acts| - 1]), acts[|acts| - 1]))
  }

  lemma ThroughoutPush(s: State, acts: seq<Action>, a: Action, ok: (State, Action) -> bool)
    requires Throughout(s, acts, ok) && ok(Exec(s, acts), a)
    ensures Throughout(s, acts + [a], ok)
  {
    assert (acts + [a])[..|acts|] == acts;
  }

  lemma {:induction false} ExecConcat(s: State, xs: seq<Action>, ys: seq<Action>)
    ensures Exec(s, xs + ys) == Exec(Exec(s, xs), ys)
  {
    if ys == [] {
      assert xs + ys == xs;
    } else {
      var n := |ys| - 1;
      assert (xs + ys)[..|xs + ys| - 1] == xs + ys[..n];
      ExecConcat(s, xs, ys[..n]);
    }
  }
}
