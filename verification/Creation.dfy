// POST /tasks under concurrency: one row per key, every answer about that row,
// and when the handler's timestamp test really means "never claimed".
module Creation {
  import opened TaskTable
  import opened Protocol
  import opened Safety

  predicate HasRow(pc: Proc) {
    pc.Returned? || pc.Enqueuing? || pc.Answered?
  }

  // ---- idempotency ----

  // One key, one row; and everyone who was given a task for the key was given
  // that row's id, service, email and payload.
  lemma AnswersAgree(start: Time, acts: seq<Action>, p: ProcId, q: ProcId)
    requires p < |Exec(Init(start), acts).procs| && q < |Exec(Init(start), acts).procs|
    requires HasRow(Exec(Init(start), acts).procs[p]) && HasRow(Exec(Init(start), acts).procs[q])
    requires Exec(Init(start), acts).procs[p].req.key == Exec(Init(start), acts).procs[q].req.key
    ensures
      var s := Exec(Init(start), acts);
      var a, b := s.procs[p], s.procs[q];
      && a.id == b.id && a.id < |s.tasks| && SameIdentity(a.task, b.task) && SameIdentity(a.task, s.tasks[a.id])
      && (forall id :: 0 <= id < |s.tasks| && s.tasks[id].key == a.req.key ==> id == a.id)
  {
    CoreAlways(start, acts);
    var s := Exec(Init(start), acts);
    assert ProcOk(s.procs[p], s.tasks) && ProcOk(s.procs[q], s.tasks);
  }

  // After a conflict the follow-up lookup finds the row: it never comes back empty.
  lemma LookupFinds(start: Time, acts: seq<Action>, p: ProcId)
    requires p < |Exec(Init(start), acts).procs| && Exec(Init(start), acts).procs[p].Conflicted?
    ensures exists id :: CreateCan(Exec(Init(start), acts), p, Lookup(id))
  {
    CoreAlways(start, acts);
    var s := Exec(Init(start), acts);
    assert ProcOk(s.procs[p], s.tasks);
    var id :| 0 <= id < |s.tasks| && s.tasks[id].key == s.procs[p].req.key;
    assert CreateCan(s, p, Lookup(id));
  }

  // What the winning INSERT stored, every later answer for the key repeats,
  // whatever service, email and payload the later request carried.
  lemma FirstWinnerStays(start: Time, acts: seq<Action>, p: ProcId, more: seq<Action>, q: ProcId)
    requires CreateCan(Exec(Init(start), acts), p, Insert)
    requires !KeyTaken(Exec(Init(start), acts).tasks, Exec(Init(start), acts).procs[p].req.key)
    requires
      var u := Exec(Step(Exec(Init(start), acts), Create(p, Insert)), more);
      && q < |u.procs| && HasRow(u.procs[q])
      && u.procs[q].req.key == Exec(Init(start), acts).procs[p].req.key
    ensures
      var s := Exec(Init(start), acts);
      var req := s.procs[p].req;
      var u := Exec(Step(s, Create(p, Insert)), more);
      && u.procs[q].id == |s.tasks|
      && u.procs[q].task.service == req.service && u.procs[q].task.email == req.email
      && u.procs[q].task.payload == req.payload
  {
    var s := Exec(Init(start), acts);
    var t := Step(s, Create(p, Insert));
    CoreAlways(start, acts);
    CoreStep(s, Create(p, Insert));
    assert t == AfterInsert(s, p);
    WinnerKept(t, more, |s.tasks|, q);
  }

  lemma WinnerKept(t: State, more: seq<Action>, id: TaskId, q: ProcId)
    requires Core(t) && id < |t.tasks|
    requires q < |Exec(t, more).procs| && HasRow(Exec(t, more).procs[q])
    requires Exec(t, more).procs[q].req.key == t.tasks[id].key
    ensures Exec(t, more).procs[q].id == id && SameIdentity(Exec(t, more).procs[q].task, t.tasks[id])
  {
    var u := Exec(t, more);
    RunEvolves(t, more);
    assert Grows(t.tasks[id], u.tasks[id]) && ProcOk(u.procs[q], u.tasks);
  }

  // ---- created_at = updated_at ----

  // A claim comes strictly later than the insert, by the database's clock.
  predicate ClockAdvances(s: State, a: Action) {
    a.Work? && a.w.Claim? && WorkCan(s, a.p, Claim) && s.procs[a.p].id < |s.tasks|
    ==> s.now > s.tasks[s.procs[a.p].id].createdAt
  }

  predicate NewIffUnclaimed(r: Row) {
    (IsNew(r) <==> r.attempts == 0) && r.createdAt <= r.updatedAt
  }

  predicate ReadIsHonest(pc: Proc) {
    (pc.Returned? || pc.Enqueuing? || pc.Answered? ==> NewIffUnclaimed(pc.task))
    && (pc.Enqueuing? ==> IsNew(pc.task))
    && (pc.Answered? ==> pc.code == if IsNew(pc.task) then 201 else 200)
  }

  ghost predicate TimestampsTell(s: State) {
    && (forall id :: 0 <= id < |s.tasks| ==> NewIffUnclaimed(s.tasks[id]))
    && (forall p :: 0 <= p < |s.procs| ==> ReadIsHonest(s.procs[p]))
  }

  lemma WorkTells(s: State, p: ProcId, w: WorkerStep, id: TaskId)
    requires Core(s) && TimestampsTell(s) && WorkCan(s, p, w) && ClockAdvances(s, Work(p, w)) && id < |s.tasks|
    ensures id < |WorkNext(s, p, w).tasks| && NewIffUnclaimed(WorkNext(s, p, w).tasks[id])
  {
    assert RowOk(s.tasks[id], s.now) && NewIffUnclaimed(s.tasks[id]);
  }

  lemma RequeueTells(s: State, p: ProcId, r: RequeuerStep, id: TaskId)
    requires Core(s) && TimestampsTell(s) && RequeueCan(s, p, r) && id < |s.tasks|
    ensures id < |RequeueNext(s, p, r).tasks| && NewIffUnclaimed(RequeueNext(s, p, r).tasks[id])
  {
    assert RowOk(s.tasks[id], s.now) && NewIffUnclaimed(s.tasks[id]);
  }

  lemma BeatTells(s: State, k: nat, id: TaskId)
    requires Core(s) && TimestampsTell(s) && k < |s.beats| && id < |s.tasks|
    ensures id < |AfterBeat(s, k).tasks| && NewIffUnclaimed(AfterBeat(s, k).tasks[id])
  {
    assert RowOk(s.tasks[id], s.now) && NewIffUnclaimed(s.tasks[id]);
  }

  lemma CreateTells(s: State, p: ProcId, q: CreateStep, id: TaskId)
    requires TimestampsTell(s) && CreateCan(s, p, q) && id < |CreateNext(s, p, q).tasks|
    ensures NewIffUnclaimed(CreateNext(s, p, q).tasks[id])
  {
    assert id < |s.tasks| ==> NewIffUnclaimed(s.tasks[id]);
  }

  lemma RowsTell(s: State, a: Action, id: TaskId)
    requires Core(s) && TimestampsTell(s) && ClockAdvances(s, a) && id < |Step(s, a).tasks|
    ensures NewIffUnclaimed(Step(s, a).tasks[id])
  {
    if Enabled(s, a) {
      match a
      case Work(p, w) => WorkMoves(s, p, w); WorkTells(s, p, w, id);
      case Requeue(p, r) => RequeueWritesOneRow(s, p, r); RequeueTells(s, p, r, id);
      case LandBeat(k) => BeatWritesOneRow(s, k); BeatTells(s, k, id);
      case Create(p, q) => CreateTells(s, p, q, id);
      case _ =>
    }
  }

  lemma CreateReadsHonestly(s: State, p: ProcId, q: CreateStep)
    requires TimestampsTell(s) && CreateCan(s, p, q)
    ensures p < |CreateNext(s, p, q).procs| && ReadIsHonest(CreateNext(s, p, q).procs[p])
  {
    assert ReadIsHonest(s.procs[p]);
  }

  lemma ReadsTell(s: State, a: Action, p: ProcId)
    requires Core(s) && TimestampsTell(s) && p < |Step(s, a).procs|
    ensures ReadIsHonest(Step(s, a).procs[p])
  {
    assert p < |s.procs| ==> ReadIsHonest(s.procs[p]);
    if Enabled(s, a) {
      match a
      case Work(x, w) => WorkMoves(s, x, w); WorkersHoldNoAnswer(s, x, w);
      case Requeue(x, r) => RequeuersHoldNoAnswer(s, x, r);
      case Create(x, q) => CreateKeepsCore(s, x, q); CreateReadsHonestly(s, x, q);
      case _ =>
    }
  }

  lemma RequeuersHoldNoAnswer(s: State, p: ProcId, r: RequeuerStep)
    requires RequeueCan(s, p, r)
    ensures Moves(s, RequeueNext(s, p, r), p) && !HasRow(RequeueNext(s, p, r).procs[p])
  {
  }

  lemma WorkersHoldNoAnswer(s: State, p: ProcId, w: WorkerStep)
    requires WorkCan(s, p, w)
    ensures p < |WorkNext(s, p, w).procs| && !HasRow(WorkNext(s, p, w).procs[p])
  {
  }

  lemma {:induction false} TimestampsAlwaysTell(start: Time, acts: seq<Action>)
    requires Throughout(Init(start), acts, ClockAdvances)
    ensures TimestampsTell(Exec(Init(start), acts))
  {
    if acts != [] {
      var front, a := acts[..|acts| - 1], acts[|acts| - 1];
      var s := Exec(Init(start), front);
      CoreAlways(start, front);
      TimestampsAlwaysTell(start, front);
      forall id | 0 <= id < |Step(s, a).tasks| ensures NewIffUnclaimed(Step(s, a).tasks[id]) {
        RowsTell(s, a, id);
      }
      forall p | 0 <= p < |Step(s, a).procs| ensures ReadIsHonest(Step(s, a).procs[p]) {
        ReadsTell(s, a, p);
      }
    }
  }

  // With a clock that advances, a create or a replay goes on to enqueue exactly
  // when the row it read had never been claimed and its schedule, if any, was
  // reached by the API's clock; and 201 means never claimed when read, not newly inserted.
  lemma EnqueuesExactlyUnclaimed(start: Time, acts: seq<Action>, p: ProcId, goNow: Time)
    requires Throughout(Init(start), acts, ClockAdvances)
    requires CreateCan(Exec(Init(start), acts), p, Settle(goNow))
    ensures
      var s := Exec(Init(start), acts);
      var task, next := s.procs[p].task, AfterSettle(s, p, goNow).procs[p];
      && (next.Enqueuing? <==> task.attempts == 0 && ScheduleReached(task, goNow))
      && (next.Answered? ==> (next.code == 201 <==> task.attempts == 0))
  {
    TimestampsAlwaysTell(start, acts);
    var s := Exec(Init(start), acts);
    assert ReadIsHonest(s.procs[p]);
  }

  // The condition is needed claim by claim: the test goes wrong at once when a
  // claim lands at the very instant of the insert.
  lemma SameInstantClaimFoolsTheTest(s: State, p: ProcId)
    requires Core(s) && TimestampsTell(s) && WorkCan(s, p, Claim)
    requires s.procs[p].id < |s.tasks| && Claimable(s.tasks[s.procs[p].id])
    ensures NewIffUnclaimed(AfterClaim(s, p).tasks[s.procs[p].id]) <==> ClockAdvances(s, Work(p, Claim))
  {
    assert RowOk(s.tasks[s.procs[p].id], s.now);
  }
}
