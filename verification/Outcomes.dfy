// From what an automation reports to what its row's history says, over whole
// runs: the lists of reports and of landed result writes are read off the
// run's steps, and the history is compared with both.
module Outcomes {
  import opened Wrappers
  import opened TaskTable
  import opened Protocol
  import opened Safety
  import opened History
  import opened Accounting

  // Worker who reported this outcome from its run of the task at this attempt.
  datatype Told = Told(who: ProcId, epoch: nat, outcome: Outcome)
  // Worker who's result write for its claim at this attempt landed.
  datatype Stamp = Stamp(who: ProcId, epoch: nat)

  function ToldBy(s: State, a: Action, id: TaskId): seq<Told> {
    if a.Work? && a.w.Finish? && Enabled(s, a) && s.procs[a.p].id == id
    then [Told(a.p, s.procs[a.p].task.attempts, a.w.outcome)] else []
  }

  function LandedBy(s: State, a: Action, id: TaskId): seq<Stamp> {
    if a.Work? && a.w.Write? && Enabled(s, a) && s.procs[a.p].id == id
       && id < |s.tasks| && s.tasks[id].lockedBy == Some(a.p)
    then [Stamp(a.p, s.procs[a.p].task.attempts)] else []
  }

  function Reports(s: State, acts: seq<Action>, id: TaskId): seq<Told> {
    if acts == [] then []
    else
      var front := acts[..|acts| - 1];
      Reports(s, front, id) + ToldBy(Exec(s, front), acts[|acts| - 1], id)
  }

  function Landings(s: State, acts: seq<Action>, id: TaskId): seq<Stamp> {
    if acts == [] then []
    else
      var front := acts[..|acts| - 1];
      Landings(s, front, id) + LandedBy(Exec(s, front), acts[|acts| - 1], id)
  }

  // ---- what must agree ----

  predicate IsResult(e: Event) {
    e.Completed? || e.Retried? || e.Buried? || e.Rescheduled?
  }

  predicate VerdictFits(v: Verdict, o: Outcome, attempts: nat, limit: nat) {
    match o
    case Succeeded => v.ToSuccess?
    case DetectedTrialEnd(when) => v == ToSchedule(when)
    case Failure => if attempts < limit then v.ToRetry? else v.ToDeadLetter?
  }

  predicate EventFits(e: Event, o: Outcome, limit: nat)
    requires IsResult(e)
  {
    match o
    case Succeeded => e.Completed?
    case DetectedTrialEnd(_) => e.Rescheduled?
    case Failure => if e.epoch < limit then e.Retried? else e.Buried?
  }

  ghost predicate Reported(told: seq<Told>, w: ProcId, k: nat) {
    exists o :: Told(w, k, o) in told
  }

  // A worker past its run carries what it reported; one still running has not.
  ghost predicate CarriesReport(pc: Proc, p: ProcId, r: Row, id: TaskId, told: seq<Told>) {
    && (pc.Running? && pc.id == id ==> !Reported(told, p, pc.task.attempts))
    && (pc.Writing? && pc.id == id ==>
          if Known(r.service)
          then exists o :: Told(p, pc.task.attempts, o) in told
                           && VerdictFits(pc.verdict, o, pc.task.attempts, r.maxAttempts)
          else pc.verdict.ToDeadLetter?)
  }

  ghost predicate EventExplained(e: Event, r: Row, told: seq<Told>, landed: seq<Stamp>) {
    IsResult(e) ==>
      && Stamp(e.who, e.epoch) in landed
      && (if Known(r.service) then exists o :: Told(e.who, e.epoch, o) in told && EventFits(e, o, r.maxAttempts)
          else e.Buried?)
  }

  ghost predicate OnRecord(st: Stamp, es: seq<Event>) {
    exists e :: e in es && IsResult(e) && e.who == st.who && e.epoch == st.epoch
  }

  // No run is reported twice, and none beyond the row's present attempt.
  predicate ToldOnce(told: seq<Told>, r: Row) {
    && (forall i, j :: 0 <= i < j < |told| ==> told[i].who != told[j].who || told[i].epoch != told[j].epoch)
    && (forall i :: 0 <= i < |told| ==> told[i].epoch <= r.attempts)
    && (told != [] ==> Known(r.service))
  }

  ghost predicate Agrees(s: State, id: TaskId, told: seq<Told>, landed: seq<Stamp>)
    requires id < |s.tasks|
  {
    var es := EventsOf(s.log, id);
    && ToldOnce(told, s.tasks[id])
    && (forall p :: 0 <= p < |s.procs| ==> CarriesReport(s.procs[p], p, s.tasks[id], id, told))
    && (forall e :: e in es ==> EventExplained(e, s.tasks[id], told, landed))
    && (forall st :: st in landed ==> OnRecord(st, es))
  }

  // ---- steps that report and write nothing for this row ----

  // The worker either was inside this task already, just as it is now, or it
  // has just claimed it, or it is not inside it.
  ghost predicate InsideAsBefore(s: State, t: State, q: ProcId, id: TaskId)
    requires id < |s.tasks| && q < |t.procs|
  {
    (t.procs[q].Running? || t.procs[q].Writing?) && t.procs[q].id == id ==>
      || (q < |s.procs| && t.procs[q] == s.procs[q])
      || (t.procs[q].task.attempts > s.tasks[id].attempts
          && (t.procs[q].Writing? ==> t.procs[q].verdict.ToDeadLetter? && !Known(s.tasks[id].service)))
  }

  ghost predicate LogsNoResult(s: State, t: State, id: TaskId) {
    || EventsOf(t.log, id) == EventsOf(s.log, id)
    || exists e :: EventsOf(t.log, id) == EventsOf(s.log, id) + [e] && !IsResult(e)
  }

  lemma AgreesKept(s: State, t: State, id: TaskId, told: seq<Told>, landed: seq<Stamp>)
    requires id < |s.tasks| && id < |t.tasks| && Grows(s.tasks[id], t.tasks[id])
    requires Agrees(s, id, told, landed) && LogsNoResult(s, t, id)
    requires forall q :: 0 <= q < |t.procs| ==> InsideAsBefore(s, t, q, id)
    ensures Agrees(t, id, told, landed)
  {
    forall q | 0 <= q < |t.procs| ensures CarriesReport(t.procs[q], q, t.tasks[id], id, told) {
      assert InsideAsBefore(s, t, q, id);
      assert q < |s.procs| ==> CarriesReport(s.procs[q], q, s.tasks[id], id, told);
    }
    var es, fs := EventsOf(s.log, id), EventsOf(t.log, id);
    forall e | e in fs ensures EventExplained(e, t.tasks[id], told, landed) {
      assert e in es ==> EventExplained(e, s.tasks[id], told, landed);
    }
    forall st | st in landed ensures OnRecord(st, fs) {
      assert OnRecord(st, es);
      var e :| e in es && IsResult(e) && e.who == st.who && e.epoch == st.epoch;
      assert e in fs;
    }
  }

  // ---- the report ----

  lemma FinishTells(s: State, p: ProcId, o: Outcome, calls: nat, id: TaskId, told: seq<Told>, landed: seq<Stamp>)
    requires Core(s) && WorkCan(s, p, Finish(o, calls)) && id < |s.tasks| && Agrees(s, id, told, landed)
    requires s.procs[p].id == id
    ensures
      var t := WorkNext(s, p, Finish(o, calls));
      && id < |t.tasks| && Agrees(t, id, told + [Told(p, s.procs[p].task.attempts, o)], landed)
  {
    var t, k := WorkNext(s, p, Finish(o, calls)), s.procs[p].task.attempts;
    var told' := told + [Told(p, k, o)];
    assert ProcOk(s.procs[p], s.tasks) && CarriesReport(s.procs[p], p, s.tasks[id], id, told);
    forall i | 0 <= i < |told| ensures told[i].who != p || told[i].epoch != k {
      assert Told(told[i].who, told[i].epoch, told[i].outcome) in told;
    }
    assert Told(p, k, o) in told';
    forall q | 0 <= q < |t.procs| ensures CarriesReport(t.procs[q], q, t.tasks[id], id, told') {
      if q != p {
        assert t.procs[q] == s.procs[q];
        CarriesOn(s.procs[q], q, s.tasks[id], id, told, Told(p, k, o));
      }
    }
    forall e | e in EventsOf(s.log, id) ensures EventExplained(e, t.tasks[id], told', landed) {
      ExplainedStill(e, s.tasks[id], told, Told(p, k, o), landed);
    }
  }

  lemma CarriesOn(pc: Proc, q: ProcId, r: Row, id: TaskId, told: seq<Told>, x: Told)
    requires CarriesReport(pc, q, r, id, told) && x.who != q
    ensures CarriesReport(pc, q, r, id, told + [x])
  {
    if pc.Writing? && pc.id == id && Known(r.service) {
      var o :| Told(q, pc.task.attempts, o) in told && VerdictFits(pc.verdict, o, pc.task.attempts, r.maxAttempts);
      assert Told(q, pc.task.attempts, o) in told + [x];
    }
  }

  lemma ExplainedStill(e: Event, r: Row, told: seq<Told>, x: Told, landed: seq<Stamp>)
    requires EventExplained(e, r, told, landed)
    ensures EventExplained(e, r, told + [x], landed)
  {
    if IsResult(e) && Known(r.service) {
      var o :| Told(e.who, e.epoch, o) in told && EventFits(e, o, r.maxAttempts);
      assert Told(e.who, e.epoch, o) in told + [x];
    }
  }

  // ---- the write ----

  lemma WriteEventFits(v: Verdict, o: Outcome, w: ProcId, k: nat, limit: nat)
    requires VerdictFits(v, o, k, limit)
    ensures IsResult(WriteEvent(v, w, k)) && EventFits(WriteEvent(v, w, k), o, limit)
  {
  }

  lemma WriteEffects(s: State, p: ProcId, id: TaskId)
    requires WorkCan(s, p, Write) && id < |s.tasks| && s.procs[p].id == id && OwnedBy(s.tasks[id], p)
    ensures
      var t, pc := AfterWrite(s, p), s.procs[p];
      && id < |t.tasks| && SameIdentity(s.tasks[id], t.tasks[id]) && t.tasks[id].attempts == s.tasks[id].attempts
      && |t.procs| == |s.procs| && (forall q :: 0 <= q < |s.procs| && q != p ==> t.procs[q] == s.procs[q])
      && !t.procs[p].Running? && !t.procs[p].Writing?
      && EventsOf(t.log, id) == EventsOf(s.log, id) + [WriteEvent(pc.verdict, p, pc.task.attempts)]
  {
    var pc := s.procs[p];
    EventsOfPush(s.log, Entry(id, WriteEvent(pc.verdict, p, pc.task.attempts)), id);
  }

  // One more result on record, and one more stamp.
  lemma OneMoreResult(es: seq<Event>, e: Event, r: Row, told: seq<Told>, landed: seq<Stamp>)
    requires IsResult(e) && EventExplained(e, r, told, landed + [Stamp(e.who, e.epoch)])
    requires forall x :: x in es ==> EventExplained(x, r, told, landed)
    requires forall st :: st in landed ==> OnRecord(st, es)
    ensures forall x :: x in es + [e] ==> EventExplained(x, r, told, landed + [Stamp(e.who, e.epoch)])
    ensures forall st :: st in landed + [Stamp(e.who, e.epoch)] ==> OnRecord(st, es + [e])
  {
    var st := Stamp(e.who, e.epoch);
    forall x | x in landed + [st] ensures OnRecord(x, es + [e]) {
      if x in landed {
        assert OnRecord(x, es);
        var y :| y in es && IsResult(y) && y.who == x.who && y.epoch == x.epoch;
        assert y in es + [e];
      } else {
        assert e in es + [e];
      }
    }
  }

  lemma WriteLands(s: State, p: ProcId, id: TaskId, told: seq<Told>, landed: seq<Stamp>)
    requires Core(s) && WorkCan(s, p, Write) && id < |s.tasks| && Agrees(s, id, told, landed)
    requires s.procs[p].id == id && OwnedBy(s.tasks[id], p)
    ensures
      var t := AfterWrite(s, p);
      && id < |t.tasks| && Agrees(t, id, told, landed + [Stamp(p, s.procs[p].task.attempts)])
  {
    var t, pc := AfterWrite(s, p), s.procs[p];
    WriteEffects(s, p, id);
    ResultExplained(s, p, id, told, landed);
    OneMoreResult(EventsOf(s.log, id), WriteEvent(pc.verdict, p, pc.task.attempts), s.tasks[id], told, landed);
    WrittenAgrees(s, t, id, told, landed + [Stamp(p, pc.task.attempts)]);
  }

  lemma WrittenAgrees(s: State, t: State, id: TaskId, told: seq<Told>, landed: seq<Stamp>)
    requires id < |s.tasks| && id < |t.tasks| && SameIdentity(s.tasks[id], t.tasks[id])
    requires ToldOnce(told, s.tasks[id]) && t.tasks[id].attempts == s.tasks[id].attempts
    requires |t.procs| == |s.procs|
    requires forall p :: 0 <= p < |s.procs| ==> CarriesReport(s.procs[p], p, s.tasks[id], id, told)
    requires forall q :: 0 <= q < |t.procs| ==>
               t.procs[q] == s.procs[q] || (!t.procs[q].Running? && !t.procs[q].Writing?)
    requires forall e :: e in EventsOf(t.log, id) ==> EventExplained(e, s.tasks[id], told, landed)
    requires forall st :: st in landed ==> OnRecord(st, EventsOf(t.log, id))
    ensures Agrees(t, id, told, landed)
  {
    forall q | 0 <= q < |t.procs| ensures CarriesReport(t.procs[q], q, t.tasks[id], id, told) {
      assert CarriesReport(s.procs[q], q, s.tasks[id], id, told);
    }
    forall e | e in EventsOf(t.log, id) ensures EventExplained(e, t.tasks[id], told, landed) {
      assert EventExplained(e, s.tasks[id], told, landed);
    }
  }

  lemma ResultExplained(s: State, p: ProcId, id: TaskId, told: seq<Told>, landed: seq<Stamp>)
    requires WorkCan(s, p, Write) && id < |s.tasks| && Agrees(s, id, told, landed) && s.procs[p].id == id
    ensures
      var pc := s.procs[p];
      EventExplained(WriteEvent(pc.verdict, p, pc.task.attempts), s.tasks[id], told,
                     landed + [Stamp(p, pc.task.attempts)])
  {
    var pc, r := s.procs[p], s.tasks[id];
    assert CarriesReport(pc, p, r, id, told);
    if Known(r.service) {
      var o :| Told(p, pc.task.attempts, o) in told && VerdictFits(pc.verdict, o, pc.task.attempts, r.maxAttempts);
      WriteEventFits(pc.verdict, o, p, pc.task.attempts, r.maxAttempts);
    }
  }

  // ---- all other steps ----

  lemma OtherWorkInside(s: State, p: ProcId, w: WorkerStep, id: TaskId, q: ProcId)
    requires Core(s) && WorkCan(s, p, w) && id < |s.tasks| && (w.Finish? ==> s.procs[p].id != id)
    requires q < |WorkNext(s, p, w).procs|
    ensures InsideAsBefore(s, WorkNext(s, p, w), q, id)
  {
    WorkMoves(s, p, w);
  }

  lemma OtherWorkLogs(s: State, p: ProcId, w: WorkerStep, id: TaskId)
    requires Core(s) && WorkCan(s, p, w) && id < |s.tasks|
    requires w.Write? ==> s.procs[p].id != id || !OwnedBy(s.tasks[id], p)
    ensures LogsNoResult(s, WorkNext(s, p, w), id)
  {
    var t := WorkNext(s, p, w);
    if t.log != s.log {
      var x := Entry(s.procs[p].id, if w.Claim? then Claimed(p)
                                    else WriteEvent(s.procs[p].verdict, p, s.procs[p].task.attempts));
      assert t.log == s.log + [x];
      EventsOfPush(s.log, x, id);
    }
  }

  lemma WorkAgrees(s: State, p: ProcId, w: WorkerStep, id: TaskId, told: seq<Told>, landed: seq<Stamp>)
    requires Core(s) && WorkCan(s, p, w) && id < |s.tasks| && Agrees(s, id, told, landed)
    ensures
      var t := WorkNext(s, p, w);
      && id < |t.tasks|
      && Agrees(t, id, told + ToldBy(s, Work(p, w), id), landed + LandedBy(s, Work(p, w), id))
  {
    var t := WorkNext(s, p, w);
    if w.Finish? && s.procs[p].id == id {
      FinishTells(s, p, w.outcome, w.calls, id, told, landed);
      assert landed + LandedBy(s, Work(p, w), id) == landed;
    } else if w.Write? && s.procs[p].id == id && OwnedBy(s.tasks[id], p) {
      WriteLands(s, p, id, told, landed);
      assert told + ToldBy(s, Work(p, w), id) == told;
    } else {
      WorkWritesOneRow(s, p, w);
      TableStepOk(s, t);
      OtherWorkLogs(s, p, w, id);
      forall q | 0 <= q < |t.procs| ensures InsideAsBefore(s, t, q, id) {
        OtherWorkInside(s, p, w, id, q);
      }
      AgreesKept(s, t, id, told, landed);
      assert told + ToldBy(s, Work(p, w), id) == told && landed + LandedBy(s, Work(p, w), id) == landed;
    }
  }

  lemma RequeueLogsNoResult(s: State, p: ProcId, r: RequeuerStep, id: TaskId)
    requires RequeueCan(s, p, r)
    ensures LogsNoResult(s, RequeueNext(s, p, r), id)
  {
    var t := RequeueNext(s, p, r);
    if t.log != s.log {
      var x := Entry(s.procs[p].ids[s.procs[p].i], Reclaimed);
      assert t.log == s.log + [x];
      EventsOfPush(s.log, x, id);
    }
  }

  lemma CreateInside(s: State, p: ProcId, c: CreateStep)
    requires CreateCan(s, p, c)
    ensures
      var t := CreateNext(s, p, c);
      Moves(s, t, p) && t.log == s.log && !t.procs[p].Running? && !t.procs[p].Writing?
  {
  }

  lemma RequeueInside(s: State, p: ProcId, r: RequeuerStep)
    requires RequeueCan(s, p, r)
    ensures
      var t := RequeueNext(s, p, r);
      Moves(s, t, p) && !t.procs[p].Running? && !t.procs[p].Writing?
  {
  }

  lemma OthersAgree(s: State, a: Action, id: TaskId, told: seq<Told>, landed: seq<Stamp>)
    requires Core(s) && Enabled(s, a) && !a.Work? && id < |s.tasks| && Agrees(s, id, told, landed)
    ensures id < |Step(s, a).tasks| && Agrees(Step(s, a), id, told, landed)
  {
    var t := Step(s, a);
    StepEvolves(s, a);
    match a {
      case Requeue(p, r) => RequeueInside(s, p, r); RequeueLogsNoResult(s, p, r, id);
      case Create(p, c) => CreateInside(s, p, c);
      case _ =>
    }
    AgreesKept(s, t, id, told, landed);
  }

  // A row that has just appeared has no history, and nobody is inside it.
  lemma NewRowAgrees(s: State, t: State, id: TaskId)
    requires Core(s) && Core(t) && Recorded(s) && t.log == s.log && |s.tasks| <= id < |t.tasks|
    requires forall p :: 0 <= p < |t.procs| && (t.procs[p].Running? || t.procs[p].Writing?) ==>
               p < |s.procs| && t.procs[p] == s.procs[p]
    ensures Agrees(t, id, [], [])
  {
    NoEventsYet(s.log, id);
    forall p | 0 <= p < |t.procs| ensures CarriesReport(t.procs[p], p, t.tasks[id], id, []) {
      if t.procs[p].Running? || t.procs[p].Writing? {
        assert ProcOk(s.procs[p], s.tasks);
      }
    }
  }

  lemma NothingYet(s: State, a: Action, id: TaskId)
    requires Core(s) && |s.tasks| <= id
    ensures ToldBy(s, a, id) == [] && LandedBy(s, a, id) == []
  {
    if a.Work? && Enabled(s, a) {
      assert ProcOk(s.procs[a.p], s.tasks);
    }
  }

  lemma {:induction false} NothingBefore(start: Time, acts: seq<Action>, id: TaskId)
    requires |Exec(Init(start), acts).tasks| <= id
    ensures Reports(Init(start), acts, id) == [] && Landings(Init(start), acts, id) == []
  {
    if acts != [] {
      var front := acts[..|acts| - 1];
      CoreAlways(start, front);
      StepEvolves(Exec(Init(start), front), acts[|acts| - 1]);
      NothingBefore(start, front, id);
      NothingYet(Exec(Init(start), front), acts[|acts| - 1], id);
    }
  }

  lemma RowAppears(s: State, a: Action, id: TaskId)
    requires Core(s) && Recorded(s) && |s.tasks| <= id < |Step(s, a).tasks|
    ensures Agrees(Step(s, a), id, [], [])
  {
    CoreStep(s, a);
    StepWritesOneRow(s, a);
    match a
    case Create(p, c) =>
      CreateInside(s, p, c);
      NewRowAgrees(s, Step(s, a), id);
    case Work(p, w) => WorkMoves(s, p, w);
    case _ =>
  }

  lemma StepAgrees(s: State, a: Action, id: TaskId, told: seq<Told>, landed: seq<Stamp>)
    requires Core(s) && id < |s.tasks| && Agrees(s, id, told, landed)
    ensures id < |Step(s, a).tasks|
    ensures Agrees(Step(s, a), id, told + ToldBy(s, a, id), landed + LandedBy(s, a, id))
  {
    if Enabled(s, a) && a.Work? {
      WorkAgrees(s, a.p, a.w, id, told, landed);
    } else {
      assert told + ToldBy(s, a, id) == told && landed + LandedBy(s, a, id) == landed;
      if Enabled(s, a) {
        OthersAgree(s, a, id, told, landed);
      }
    }
  }

  lemma {:induction false} AgreesAlways(start: Time, acts: seq<Action>, id: TaskId)
    requires id < |Exec(Init(start), acts).tasks|
    ensures Agrees(Exec(Init(start), acts), id, Reports(Init(start), acts, id), Landings(Init(start), acts, id))
  {
    if acts != [] {
      var front, a := acts[..|acts| - 1], acts[|acts| - 1];
      var s := Exec(Init(start), front);
      HistoryAlways(start, front);
      if id < |s.tasks| {
        AgreesAlways(start, front, id);
        StepAgrees(s, a, id, Reports(Init(start), front, id), Landings(Init(start), front, id));
      } else {
        NothingBefore(start, front, id);
        NothingYet(s, a, id);
        RowAppears(s, a, id);
      }
    }
  }

  // ---- the history says what was reported ----

  lemma ToldAlone(told: seq<Told>, r: Row, w: ProcId, k: nat, o: Outcome, o': Outcome)
    requires ToldOnce(told, r) && Told(w, k, o) in told && Told(w, k, o') in told
    ensures o == o'
  {
    var i :| 0 <= i < |told| && told[i] == Told(w, k, o);
    var j :| 0 <= j < |told| && told[j] == Told(w, k, o');
  }

  // What is on record for worker w at attempt k, if a result of it landed.
  lemma ResultOf(s: State, id: TaskId, told: seq<Told>, landed: seq<Stamp>, w: ProcId, k: nat, o: Outcome)
    requires id < |s.tasks| && Agrees(s, id, told, landed) && Told(w, k, o) in told
    ensures forall e :: e in EventsOf(s.log, id) && IsResult(e) && e.who == w && e.epoch == k ==>
              EventFits(e, o, s.tasks[id].maxAttempts)
  {
    forall e | e in EventsOf(s.log, id) && IsResult(e) && e.who == w && e.epoch == k
      ensures EventFits(e, o, s.tasks[id].maxAttempts)
    {
      assert EventExplained(e, s.tasks[id], told, landed);
      var o' :| Told(w, k, o') in told && EventFits(e, o', s.tasks[id].maxAttempts);
      ToldAlone(told, s.tasks[id], w, k, o, o');
    }
  }

  // Worker w's claim at attempt k is on record as a success, a retry, a burial
  // or a schedule.
  lemma RecordedAs(s: State, id: TaskId, told: seq<Told>, landed: seq<Stamp>, w: ProcId, k: nat)
    requires id < |s.tasks| && Agrees(s, id, told, landed)
    ensures
      var es, r, wrote := EventsOf(s.log, id), s.tasks[id], Stamp(w, k) in landed;
      && (Completed(w, k) in es <==> wrote && Told(w, k, Succeeded) in told)
      && (Rescheduled(w, k) in es <==> wrote && exists when :: Told(w, k, DetectedTrialEnd(when)) in told)
      && (Retried(w, k) in es <==> wrote && Told(w, k, Failure) in told && k < r.maxAttempts)
      && (Buried(w, k) in es <==>
            wrote && ((Told(w, k, Failure) in told && k >= r.maxAttempts) || !Known(r.service)))
  {
    var es, r := EventsOf(s.log, id), s.tasks[id];
    FromRecord(s, id, told, landed, w, k);
    if Stamp(w, k) in landed {
      assert OnRecord(Stamp(w, k), es);
      var e :| e in es && IsResult(e) && e.who == w && e.epoch == k;
      assert EventExplained(e, r, told, landed);
      if Known(r.service) {
        var o :| Told(w, k, o) in told && EventFits(e, o, r.maxAttempts);
        ToldApart(told, r, w, k, o);
      }
    }
  }

  lemma ToldApart(told: seq<Told>, r: Row, w: ProcId, k: nat, o: Outcome)
    requires ToldOnce(told, r) && Told(w, k, o) in told
    ensures forall o' :: Told(w, k, o') in told ==> o' == o
  {
    forall o' | Told(w, k, o') in told ensures o' == o {
      ToldAlone(told, r, w, k, o, o');
    }
  }

  lemma FromRecord(s: State, id: TaskId, told: seq<Told>, landed: seq<Stamp>, w: ProcId, k: nat)
    requires id < |s.tasks| && Agrees(s, id, told, landed)
    ensures forall e :: e in EventsOf(s.log, id) && IsResult(e) && e.who == w && e.epoch == k ==>
              && Stamp(w, k) in landed
              && (if Known(s.tasks[id].service)
                  then exists o :: Told(w, k, o) in told && EventFits(e, o, s.tasks[id].maxAttempts)
                  else e.Buried?)
  {
    forall e | e in EventsOf(s.log, id) && IsResult(e) && e.who == w && e.epoch == k
      ensures Stamp(w, k) in landed
              && (if Known(s.tasks[id].service)
                  then exists o :: Told(w, k, o) in told && EventFits(e, o, s.tasks[id].maxAttempts)
                  else e.Buried?)
    {
      assert EventExplained(e, s.tasks[id], told, landed);
    }
  }

  // Over every run: a row's claim by w at attempt k is on record as completed if
  // and only if w's automation reported success there and its write landed; as
  // retried or buried if it reported failure, by the limit; as rescheduled if it
  // reported a trial end. Only a task without automation is buried unreported.
  lemma OutcomesAreRecorded(start: Time, acts: seq<Action>, id: TaskId, w: ProcId, k: nat)
    requires id < |Exec(Init(start), acts).tasks|
    ensures
      var s := Exec(Init(start), acts);
      var told, landed := Reports(Init(start), acts, id), Landings(Init(start), acts, id);
      var es, r, wrote := EventsOf(s.log, id), s.tasks[id], Stamp(w, k) in landed;
      && (Completed(w, k) in es <==> wrote && Told(w, k, Succeeded) in told)
      && (Rescheduled(w, k) in es <==> wrote && exists when :: Told(w, k, DetectedTrialEnd(when)) in told)
      && (Retried(w, k) in es <==> wrote && Told(w, k, Failure) in told && k < r.maxAttempts)
      && (Buried(w, k) in es <==>
            wrote && ((Told(w, k, Failure) in told && k >= r.maxAttempts) || !Known(r.service)))
  {
    AgreesAlways(start, acts, id);
    RecordedAs(Exec(Init(start), acts), id, Reports(Init(start), acts, id), Landings(Init(start), acts, id), w, k);
  }

  ghost predicate Succeeds(told: seq<Told>, landed: seq<Stamp>) {
    exists w, k :: Told(w, k, Succeeded) in told && Stamp(w, k) in landed
  }

  lemma EndsInSuccess(es: seq<Event>, told: seq<Told>, landed: seq<Stamp>)
    requires Shaped(es)
    requires forall w, k :: Completed(w, k) in es <==> Stamp(w, k) in landed && Told(w, k, Succeeded) in told
    ensures es != [] && es[|es| - 1].Completed? <==> Succeeds(told, landed)
  {
    if es != [] && es[|es| - 1].Completed? {
      var e := es[|es| - 1];
      assert Completed(e.who, e.epoch) in es;
    }
    if Succeeds(told, landed) {
      var w, k :| Told(w, k, Succeeded) in told && Stamp(w, k) in landed;
      assert Completed(w, k) in es;
    }
  }

  // So a row is SUCCESS if and only if some worker's automation reported success
  // and that worker's write landed.
  lemma SuccessWasReported(start: Time, acts: seq<Action>, id: TaskId)
    requires id < |Exec(Init(start), acts).tasks|
    ensures Exec(Init(start), acts).tasks[id].status.Success?
            <==> Succeeds(Reports(Init(start), acts, id), Landings(Init(start), acts, id))
  {
    TraceShape(start, acts, id);
    var es := EventsOf(Exec(Init(start), acts).log, id);
    var told, landed := Reports(Init(start), acts, id), Landings(Init(start), acts, id);
    forall w, k ensures Completed(w, k) in es <==> Stamp(w, k) in landed && Told(w, k, Succeeded) in told {
      OutcomesAreRecorded(start, acts, id, w, k);
    }
    EndsInSuccess(es, told, landed);
  }
}
