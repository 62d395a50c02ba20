// What one process did in a run: its own steps, and what each of them brought
// about, read off the states before and after it.
module Deeds {
  import opened Wrappers
  import opened TaskTable
  import opened Protocol
  import opened Safety

  function Actor(a: Action): Option<ProcId> {
    match a
    case Work(p, _) => Some(p)
    case Requeue(p, _) => Some(p)
    case Schedule(p, _) => Some(p)
    case Create(p, _) => Some(p)
    case Crash(p, _) => Some(p)
    case _ => None
  }

  // gained: what the step added to the log of landed changes.
  // tried: the id it tried to push, whether or not the push succeeded.
  datatype Deed = Deed(action: Action, gained: seq<Entry>, tried: seq<TaskId>)

  function Quiet(a: Action): Deed {
    Deed(a, [], [])
  }

  function Gain(before: seq<Entry>, after: seq<Entry>): seq<Entry> {
    if before <= after then after[|before|..] else []
  }

  function Tries(s: State, a: Action): seq<TaskId>
    requires Enabled(s, a)
  {
    match a
    case Work(p, PushRetry) => [s.procs[p].id]
    case Requeue(p, Repush) => [s.procs[p].ids[s.procs[p].i]]
    case Requeue(p, RepushFail) => [s.procs[p].ids[s.procs[p].i]]
    case Schedule(p, PushDue) => [s.procs[p].found[s.procs[p].i].id]
    case Schedule(p, PushDueFail) => [s.procs[p].found[s.procs[p].i].id]
    case Create(p, Enqueue) => [s.procs[p].id]
    case Create(p, EnqueueFail) => [s.procs[p].id]
    case _ => []
  }

  predicate PushFails(a: Action) {
    || (a.Requeue? && a.r.RepushFail?)
    || (a.Schedule? && a.c.PushDueFail?)
    || (a.Create? && a.q.EnqueueFail?)
  }

  // The list grows by exactly the pushes tried that did not fail.
  lemma TriesArePushes(s: State, a: Action)
    requires Enabled(s, a)
    ensures Next(s, a).pushed == s.pushed + (if PushFails(a) then [] else Tries(s, a))
    ensures PushFails(a) ==> Next(s, a).queue == s.queue && Tries(s, a) != []
  {
  }

  function DeedOf(s: State, a: Action): Deed
    requires Enabled(s, a)
  {
    Deed(a, Gain(s.log, Next(s, a).log), Tries(s, a))
  }

  // The deeds of process p in a run, in order.
  function DeedsOf(s: State, acts: seq<Action>, p: ProcId): seq<Deed>
    requires Legal(s, acts)
  {
    if acts == [] then []
    else
      var front, a := acts[..|acts| - 1], acts[|acts| - 1];
      DeedsOf(s, front, p) + (if Actor(a) == Some(p) then [DeedOf(Exec(s, front), a)] else [])
  }

  lemma DeedsPush(s: State, acts: seq<Action>, a: Action, p: ProcId)
    requires Legal(s, acts) && Legal(s, acts + [a]) && Enabled(Exec(s, acts), a)
    ensures DeedsOf(s, acts + [a], p)
         == DeedsOf(s, acts, p) + (if Actor(a) == Some(p) then [DeedOf(Exec(s, acts), a)] else [])
  {
    assert (acts + [a])[..|acts|] == acts;
  }

  // A step of nobody or of another process leaves p where it is.
  lemma OthersLeaveAlone(s: State, a: Action, p: ProcId)
    requires Core(s) && p < |s.procs| && Actor(a) != Some(p)
    ensures p < |Step(s, a).procs| && Step(s, a).procs[p] == s.procs[p]
  {
    if Enabled(s, a) {
      match a
      case Work(q, w) => WorkMoves(s, q, w);
      case Requeue(q, r) => RequeueKeepsCore(s, q, r);
      case Create(q, c) => CreateKeepsCore(s, q, c);
      case _ =>
    }
  }

  lemma OnlyTicksTakeTime(s: State, a: Action)
    requires Enabled(s, a)
    ensures Next(s, a).now == s.now + if a.Tick? then a.d else 0
  {
  }

  // ---- what each step brings about ----

  lemma GainOne(log: seq<Entry>, x: Entry)
    ensures Gain(log, log + [x]) == [x] && Gain(log, log) == []
  {
    assert (log + [x])[|log|..] == [x];
    assert log <= log + [x] && log <= log && log[|log|..] == [];
  }

  lemma ClaimDeed(s: State, p: ProcId)
    requires WorkCan(s, p, Claim)
    ensures
      var id := s.procs[p].id;
      var lands := id < |s.tasks| && Claimable(s.tasks[id]);
      DeedOf(s, Work(p, Claim)) == Deed(Work(p, Claim), if lands then [Entry(id, Claimed(p))] else [], [])
  {
    GainOne(s.log, Entry(s.procs[p].id, Claimed(p)));
  }

  lemma WriteDeed(s: State, p: ProcId)
    requires WorkCan(s, p, Write)
    ensures
      var pc := s.procs[p];
      var lands := pc.id < |s.tasks| && OwnedBy(s.tasks[pc.id], p);
      var x := Entry(pc.id, WriteEvent(pc.verdict, p, pc.task.attempts));
      DeedOf(s, Work(p, Write)) == Deed(Work(p, Write), if lands then [x] else [], [])
  {
    var pc := s.procs[p];
    GainOne(s.log, Entry(pc.id, WriteEvent(pc.verdict, p, pc.task.attempts)));
  }

  lemma PlainWorkDeed(s: State, p: ProcId, w: WorkerStep)
    requires WorkCan(s, p, w) && !w.Claim? && !w.Write?
    ensures DeedOf(s, Work(p, w)) == Deed(Work(p, w), [], if w.PushRetry? then [s.procs[p].id] else [])
  {
    assert WorkNext(s, p, w).log == s.log;
  }

  lemma ResetDeed(s: State, p: ProcId, r: RequeuerStep)
    requires RequeueCan(s, p, r) && (r.Reset? || r.ResetError?)
    ensures
      var id := s.procs[p].ids[s.procs[p].i];
      var lands := id < |s.tasks| && Stale(s.tasks[id], s.now) && (r.Reset? || r.applied);
      DeedOf(s, Requeue(p, r)) == Deed(Requeue(p, r), if lands then [Entry(id, Reclaimed)] else [], [])
  {
    GainOne(s.log, Entry(s.procs[p].ids[s.procs[p].i], Reclaimed));
  }

  lemma PlainRequeueDeed(s: State, p: ProcId, r: RequeuerStep)
    requires RequeueCan(s, p, r) && !r.Reset? && !r.ResetError?
    ensures DeedOf(s, Requeue(p, r))
         == Deed(Requeue(p, r), [], if r.Repush? || r.RepushFail? then [s.procs[p].ids[s.procs[p].i]] else [])
  {
    assert RequeueNext(s, p, r).log == s.log;
  }

  lemma ScheduleDeed(s: State, p: ProcId, c: SchedulerStep)
    requires ScheduleCan(s, p, c)
    ensures DeedOf(s, Schedule(p, c))
         == Deed(Schedule(p, c), [],
                 if c.PushDue? || c.PushDueFail? then [s.procs[p].found[s.procs[p].i].id] else [])
  {
    assert ScheduleNext(s, p, c).log == s.log;
  }

  lemma CreateDeed(s: State, p: ProcId, q: CreateStep)
    requires CreateCan(s, p, q)
    ensures DeedOf(s, Create(p, q))
         == Deed(Create(p, q), [], if q.Enqueue? || q.EnqueueFail? then [s.procs[p].id] else [])
  {
    assert CreateNext(s, p, q).log == s.log;
  }

  // ---- reading a list of deeds ----

  function Tried(deeds: seq<Deed>): seq<TaskId> {
    if deeds == [] then [] else Tried(deeds[..|deeds| - 1]) + deeds[|deeds| - 1].tried
  }

  // A landed retry, and a landed reset that was answered without an error, owe
  // the row a push.
  function Owes(d: Deed): seq<TaskId> {
    if |d.gained| != 1 then []
    else match d.gained[0].event
         case Retried(_, _) => [d.gained[0].id]
         case Reclaimed => if d.action.Requeue? && d.action.r.Reset? then [d.gained[0].id] else []
         case _ => []
  }

  function PushesOwed(deeds: seq<Deed>): seq<TaskId> {
    if deeds == [] then [] else PushesOwed(deeds[..|deeds| - 1]) + Owes(deeds[|deeds| - 1])
  }

  // Pushes were tried for exactly the ids that were owed one, in that order.
  predicate PaysItsPushes(deeds: seq<Deed>) {
    Tried(deeds) == PushesOwed(deeds)
  }

  lemma {:induction false} TriedConcat(xs: seq<Deed>, ys: seq<Deed>)
    ensures Tried(xs + ys) == Tried(xs) + Tried(ys)
  {
    if ys == [] {
      assert xs + ys == xs;
    } else {
      var n := |ys| - 1;
      assert (xs + ys)[..|xs + ys| - 1] == xs + ys[..n];
      TriedConcat(xs, ys[..n]);
    }
  }

  lemma {:induction false} OwedConcat(xs: seq<Deed>, ys: seq<Deed>)
    ensures PushesOwed(xs + ys) == PushesOwed(xs) + PushesOwed(ys)
  {
    if ys == [] {
      assert xs + ys == xs;
    } else {
      var n := |ys| - 1;
      assert (xs + ys)[..|xs + ys| - 1] == xs + ys[..n];
      OwedConcat(xs, ys[..n]);
      OwesTail(xs, ys);
    }
  }

  lemma OwesTail(xs: seq<Deed>, ys: seq<Deed>)
    requires ys != []
    ensures Owes((xs + ys)[|xs + ys| - 1]) == Owes(ys[|ys| - 1])
  {
  }

  lemma ReadConcat(xs: seq<Deed>, ys: seq<Deed>)
    ensures Tried(xs + ys) == Tried(xs) + Tried(ys) && PushesOwed(xs + ys) == PushesOwed(xs) + PushesOwed(ys)
  {
    TriedConcat(xs, ys);
    OwedConcat(xs, ys);
  }

  lemma ReadOne(d: Deed)
    ensures Tried([d]) == d.tried && PushesOwed([d]) == Owes(d)
  {
    assert [d][..0] == [];
  }

  lemma ReadTwo(d: Deed, e: Deed)
    ensures Tried([d, e]) == d.tried + e.tried && PushesOwed([d, e]) == Owes(d) + Owes(e)
  {
    ReadOne(d);
    ReadOne(e);
    ReadConcat([d], [e]);
    assert [d, e] == [d] + [e];
  }
}
