// Refinement: the interleaved system implements, row by row, a small machine
// that does check the claim's epoch. The log of landed changes is the trace.
module History {
  import opened Wrappers
  import opened TaskTable
  import opened Protocol
  import opened Safety

  // ---- the per-task machine ----

  datatype Life =
    | Waiting(epoch: nat, failed: bool)   // failed: the latest claim ended in a counted failure
    | Held(owner: ProcId, epoch: nat)
    | Finished(epoch: nat)
    | Interred(epoch: nat)
    | Abandoned(epoch: nat)   // FAILED: no event leads here

  // Every result is accepted only from the owner, at the owner's own epoch.
  function Advance(x: Life, e: Event): Option<Life> {
    match e
    case Claimed(w) => if x.Waiting? then Some(Held(w, x.epoch + 1)) else None
    case Retried(w, k) => if x == Held(w, k) then Some(Waiting(k, true)) else None
    case Rescheduled(w, k) => if x == Held(w, k) then Some(Waiting(k, false)) else None
    case Reclaimed => if x.Held? then Some(Waiting(x.epoch, false)) else None
    case Completed(w, k) => if x == Held(w, k) then Some(Finished(k)) else None
    case Buried(w, k) => if x == Held(w, k) then Some(Interred(k)) else None
  }

  function Replay(es: seq<Event>): Option<Life> {
    if es == [] then Some(Waiting(0, false))
    else match Replay(es[..|es| - 1])
         case None => None
         case Some(x) => Advance(x, es[|es| - 1])
  }

  function LifeOf(r: Row): Life {
    match r.status
    case Pending => Waiting(r.attempts, false)
    case Retry => Waiting(r.attempts, true)
    case InProgress => if r.lockedBy.Some? then Held(r.lockedBy.value, r.attempts) else Abandoned(r.attempts)
    case Success => Finished(r.attempts)
    case DeadLetter => Interred(r.attempts)
    case Failed => Abandoned(r.attempts)
  }

  function EventsOf(log: seq<Entry>, id: TaskId): seq<Event> {
    if log == [] then []
    else
      var rest := EventsOf(log[..|log| - 1], id);
      var last := log[|log| - 1];
      if last.id == id then rest + [last.event] else rest
  }

  lemma EventsOfPush(log: seq<Entry>, x: Entry, id: TaskId)
    ensures EventsOf(log + [x], id) == if x.id == id then EventsOf(log, id) + [x.event] else EventsOf(log, id)
  {
    assert (log + [x])[..|log|] == log;
  }

  lemma ReplayPush(es: seq<Event>, e: Event)
    ensures Replay(es + [e]) == match Replay(es) case None => None case Some(x) => Advance(x, e)
  {
    assert (es + [e])[..|es|] == es;
  }

  // ---- simulation, one step ----

  // What else is known of an event when it lands on row r.
  predicate Justified(r: Row, e: Event) {
    && (e.Retried? ==> e.epoch < r.maxAttempts)
    && (e.Buried? ==> e.epoch >= r.maxAttempts || !Known(r.service))
  }

  ghost predicate SameLife(s: State, t: State, id: TaskId)
    requires id < |s.tasks| && id < |t.tasks|
  {
    LifeOf(t.tasks[id]) == LifeOf(s.tasks[id])
  }

  // A stutter (with perhaps a new row, born waiting at epoch 0).
  ghost predicate Stutters(s: State, t: State) {
    && t.log == s.log && |s.tasks| <= |t.tasks|
    && (forall id :: 0 <= id < |s.tasks| ==> SameLife(s, t, id))
    && (forall id :: |s.tasks| <= id < |t.tasks| ==> LifeOf(t.tasks[id]) == Waiting(0, false))
  }

  // One row makes one legal move of the per-task machine.
  ghost predicate Lands(s: State, t: State, id: TaskId, e: Event) {
    && t.log == s.log + [Entry(id, e)] && |t.tasks| == |s.tasks| && id < |s.tasks|
    && Advance(LifeOf(s.tasks[id]), e) == Some(LifeOf(t.tasks[id])) && Justified(s.tasks[id], e)
    && (forall i :: 0 <= i < |s.tasks| && i != id ==> SameLife(s, t, i))
  }

  ghost predicate Simulates(s: State, t: State) {
    Stutters(s, t) || exists id, e :: Lands(s, t, id, e)
  }

  lemma ClaimSimulates(s: State, p: ProcId)
    requires Core(s) && WorkCan(s, p, Claim)
    ensures Simulates(s, AfterClaim(s, p))
  {
    var t, id := AfterClaim(s, p), s.procs[p].id;
    if t.log != s.log {
      assert Lands(s, t, id, Claimed(p));
    }
  }

  // The fence tests locked_by alone, yet what lands is the owner's own epoch.
  lemma WriteSimulates(s: State, p: ProcId)
    requires Core(s) && WorkCan(s, p, Write)
    ensures Simulates(s, AfterWrite(s, p))
  {
    var t, pc := AfterWrite(s, p), s.procs[p];
    assert ProcOk(pc, s.tasks);
    assert FenceOk(s.tasks[pc.id], pc.id, s.procs);
    if OwnedBy(s.tasks[pc.id], p) {
      assert RowOk(s.tasks[pc.id], s.now);
      assert Lands(s, t, pc.id, WriteEvent(pc.verdict, p, pc.task.attempts));
    }
  }

  lemma WorkSimulates(s: State, p: ProcId, w: WorkerStep)
    requires Core(s) && WorkCan(s, p, w)
    ensures Simulates(s, WorkNext(s, p, w))
  {
    if w.Claim? {
      ClaimSimulates(s, p);
    } else if w.Write? {
      WriteSimulates(s, p);
    } else {
      assert Stutters(s, WorkNext(s, p, w));
    }
  }

  lemma RequeueSimulates(s: State, p: ProcId, r: RequeuerStep)
    requires Core(s) && RequeueCan(s, p, r)
    ensures Simulates(s, RequeueNext(s, p, r))
  {
    var t := RequeueNext(s, p, r);
    if t.log != s.log {
      var id := s.procs[p].ids[s.procs[p].i];
      assert RowOk(s.tasks[id], s.now);
      assert Lands(s, t, id, Reclaimed);
    } else {
      assert Stutters(s, t);
    }
  }

  // Every step of every role is a stutter or one legal move of one row.
  lemma Refines(s: State, a: Action)
    requires Core(s)
    ensures Simulates(s, Step(s, a))
  {
    if Enabled(s, a) {
      match a
      case Work(p, w) => WorkSimulates(s, p, w);
      case Requeue(p, r) => RequeueSimulates(s, p, r);
      case LandBeat(k) => assert Stutters(s, AfterBeat(s, k));
      case Create(p, q) => assert Stutters(s, CreateNext(s, p, q));
      case _ => assert Stutters(s, Next(s, a));
    } else {
      assert Stutters(s, s);
    }
  }

  // ---- simulation, whole runs ----

  predicate AllJustified(r: Row, es: seq<Event>) {
    forall i :: 0 <= i < |es| ==> Justified(r, es[i])
  }

  ghost predicate Recorded(s: State) {
    && (forall i :: 0 <= i < |s.log| ==> s.log[i].id < |s.tasks|)
    && (forall id :: 0 <= id < |s.tasks| ==>
          Replay(EventsOf(s.log, id)) == Some(LifeOf(s.tasks[id])) && AllJustified(s.tasks[id], EventsOf(s.log, id)))
  }

  lemma {:induction false} NoEventsYet(log: seq<Entry>, id: TaskId)
    requires forall i :: 0 <= i < |log| ==> log[i].id != id
    ensures EventsOf(log, id) == []
  {
    if log != [] {
      NoEventsYet(log[..|log| - 1], id);
    }
  }

  lemma JustifiedPush(r: Row, r': Row, es: seq<Event>, e: Event)
    requires AllJustified(r, es) && Justified(r, e) && SameIdentity(r, r')
    ensures AllJustified(r', es + [e]) && AllJustified(r', es)
  {
    assert forall i :: 0 <= i < |es| ==> Justified(r, es[i]);
  }

  lemma LandingKeeps(s: State, t: State, id: TaskId, i: TaskId, e: Event)
    requires Recorded(s) && Lands(s, t, i, e) && Evolves(s, t) && id < |t.tasks|
    ensures Replay(EventsOf(t.log, id)) == Some(LifeOf(t.tasks[id])) && AllJustified(t.tasks[id], EventsOf(t.log, id))
  {
    var es := EventsOf(s.log, id);
    EventsOfPush(s.log, Entry(i, e), id);
    assert Grows(s.tasks[id], t.tasks[id]);
    if i == id {
      ReplayPush(es, e);
      JustifiedPush(s.tasks[id], t.tasks[id], es, e);
    } else {
      assert SameLife(s, t, id);
    }
  }

  lemma RecordedKept(s: State, t: State, id: TaskId)
    requires Recorded(s) && Simulates(s, t) && Evolves(s, t) && id < |t.tasks|
    ensures Replay(EventsOf(t.log, id)) == Some(LifeOf(t.tasks[id])) && AllJustified(t.tasks[id], EventsOf(t.log, id))
  {
    if Stutters(s, t) {
      if id < |s.tasks| {
        assert SameLife(s, t, id) && Grows(s.tasks[id], t.tasks[id]);
      } else {
        NoEventsYet(s.log, id);
      }
    } else {
      var i, e :| Lands(s, t, i, e);
      LandingKeeps(s, t, id, i, e);
    }
  }

  lemma RecordedStep(s: State, t: State)
    requires Recorded(s) && Simulates(s, t) && Evolves(s, t)
    ensures Recorded(t)
  {
    forall id | 0 <= id < |t.tasks|
      ensures Replay(EventsOf(t.log, id)) == Some(LifeOf(t.tasks[id])) && AllJustified(t.tasks[id], EventsOf(t.log, id))
    {
      RecordedKept(s, t, id);
    }
  }

  // The landed history of each row is a run of the per-task machine that ends
  // in the row's present state.
  lemma {:induction false} HistoryAlways(start: Time, acts: seq<Action>)
    ensures Core(Exec(Init(start), acts)) && Recorded(Exec(Init(start), acts))
  {
    CoreAlways(start, acts);
    if acts != [] {
      var front := acts[..|acts| - 1];
      HistoryAlways(start, front);
      CoreAlways(start, front);
      Refines(Exec(Init(start), front), acts[|acts| - 1]);
      StepEvolves(Exec(Init(start), front), acts[|acts| - 1]);
      RecordedStep(Exec(Init(start), front), Exec(Init(start), acts));
    }
  }

  // ---- the fence ----

  // A row locked by a worker that has not stopped: that worker is inside
  // processTask for this very row, at the row's present attempt.
  lemma LockMeansHolding(start: Time, acts: seq<Action>, id: TaskId)
    requires id < |Exec(Init(start), acts).tasks|
    ensures
      var s := Exec(Init(start), acts);
      s.tasks[id].lockedBy.Some? ==>
        var w := s.tasks[id].lockedBy.value;
        w < |s.procs| && (!s.procs[w].Gone? ==> Holds(s.procs[w], id, s.tasks[id].attempts))
  {
    CoreAlways(start, acts);
    var s := Exec(Init(start), acts);
    assert FenceOk(s.tasks[id], id, s.procs);
  }

  // Testing the owner alone is the same as testing the owner and its epoch: a
  // write lands if and only if the claim it was decided under is the current one.
  lemma FenceIsExact(start: Time, acts: seq<Action>, p: ProcId)
    requires WorkCan(Exec(Init(start), acts), p, Write)
    ensures
      var s := Exec(Init(start), acts);
      var pc := s.procs[p];
      && pc.id < |s.tasks|
      && (OwnedBy(s.tasks[pc.id], p) <==> LifeOf(s.tasks[pc.id]) == Held(p, pc.task.attempts))
      && (OwnedBy(s.tasks[pc.id], p) <==> |AfterWrite(s, p).log| > |s.log|)
  {
    CoreAlways(start, acts);
    var s := Exec(Init(start), acts);
    var pc := s.procs[p];
    assert ProcOk(pc, s.tasks);
    assert FenceOk(s.tasks[pc.id], pc.id, s.procs) && RowOk(s.tasks[pc.id], s.now);
  }

  // Status, owner and lock time agree in every reachable row; a lock is never
  // in the future, and FAILED is never reached.
  lemma LocksAreCoherent(start: Time, acts: seq<Action>, id: TaskId)
    requires id < |Exec(Init(start), acts).tasks|
    ensures
      var s := Exec(Init(start), acts);
      var r := s.tasks[id];
      && (r.status.InProgress? <==> r.lockedBy.Some?) && (r.lockedBy.Some? <==> r.lockedAt.Some?)
      && (r.lockedAt.Some? ==> r.createdAt <= r.lockedAt.value <= s.now)
      && !r.status.Failed?
  {
    CoreAlways(start, acts);
    assert RowOk(Exec(Init(start), acts).tasks[id], Exec(Init(start), acts).now);
  }

  // Within one claim the lock time only moves forward.
  lemma LockTimeMovesForward(s: State, a: Action, id: TaskId)
    requires Core(s) && id < |s.tasks| && s.tasks[id].lockedAt.Some?
    ensures
      var t := Step(s, a);
      && id < |t.tasks|
      && (t.tasks[id].lockedAt.Some? && t.tasks[id].attempts == s.tasks[id].attempts ==>
            t.tasks[id].lockedBy == s.tasks[id].lockedBy && s.tasks[id].lockedAt.value <= t.tasks[id].lockedAt.value)
  {
    StepWritesOneRow(s, a);
    assert RowOk(s.tasks[id], s.now);
  }
}
