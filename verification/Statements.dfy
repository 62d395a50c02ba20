// What each statement does, column by column, and what each decision means,
// said without the functions that compute them.
module Statements {
  import opened Wrappers
  import opened TaskTable
  import opened Protocol

  // ---- rows ----

  predicate Unlocked(r: Row) {
    r.lockedAt.None? && r.lockedBy.None?
  }

  // INSERT: the request's columns and the defaults.
  predicate FreshRow(r: Row, req: Request, now: Time) {
    && r.key == req.key && r.service == req.service && r.email == req.email && r.payload == req.payload
    && r.scheduledFor == req.scheduledFor
    && r.status.Pending? && r.attempts == 0 && r.maxAttempts == 3 && Unlocked(r)
    && r.createdAt == now && r.updatedAt == now
  }

  predicate ClaimedRow(r: Row, r': Row, w: ProcId, now: Time) {
    && SameIdentity(r, r') && r'.scheduledFor == r.scheduledFor
    && r'.status.InProgress? && r'.lockedBy == Some(w) && r'.lockedAt == Some(now)
    && r'.attempts == r.attempts + 1 && r'.updatedAt == now
  }

  predicate BeatenRow(r: Row, r': Row, now: Time) {
    && SameIdentity(r, r') && r'.scheduledFor == r.scheduledFor && r'.attempts == r.attempts
    && r'.status == r.status && r'.lockedBy == r.lockedBy && r'.lockedAt == Some(now) && r'.updatedAt == now
  }

  predicate ReleasedRow(r: Row, r': Row, now: Time) {
    SameIdentity(r, r') && r'.attempts == r.attempts && Unlocked(r') && r'.updatedAt == now
  }

  predicate ResetRow(r: Row, r': Row, now: Time) {
    ReleasedRow(r, r', now) && r'.status.Pending? && r'.scheduledFor == r.scheduledFor
  }

  // The four result writes.
  predicate ResultRow(r: Row, r': Row, v: Verdict, now: Time) {
    && ReleasedRow(r, r', now)
    && match v
       case ToSuccess => r'.status.Success? && r'.scheduledFor == r.scheduledFor
       case ToRetry => r'.status.Retry? && r'.scheduledFor == r.scheduledFor
       case ToDeadLetter => r'.status.DeadLetter? && r'.scheduledFor == r.scheduledFor
       case ToSchedule(when) => r'.status.Pending? && r'.scheduledFor == when
  }

  // The event that goes on record with it.
  predicate ResultEvent(e: Event, v: Verdict, w: ProcId, epoch: nat) {
    && (e.Completed? <==> v.ToSuccess?) && (e.Retried? <==> v.ToRetry?)
    && (e.Buried? <==> v.ToDeadLetter?) && (e.Rescheduled? <==> v.ToSchedule?)
    && !e.Claimed? && !e.Reclaimed? && e.who == w && e.epoch == epoch
  }

  // How the worker goes on after a landed write: a retry is pushed, and a trial
  // end without a date throws in the line that logs it.
  predicate GoesOnTo(pc: Proc, v: Verdict, id: TaskId) {
    match v
    case ToRetry => pc == Pushing(id)
    case ToSchedule(None) => pc == Gone
    case _ => pc == Idle
  }

  // Only row id differs.
  predicate OnlyRow(s: State, t: State, id: TaskId) {
    && id < |s.tasks| == |t.tasks|
    && forall i :: 0 <= i < |s.tasks| && i != id ==> t.tasks[i] == s.tasks[i]
  }

  // ---- each statement, where it lands and where it does not ----

  lemma ClaimStored(s: State, p: ProcId)
    requires WorkCan(s, p, Claim)
    ensures
      var t, id := AfterClaim(s, p), s.procs[p].id;
      if id < |s.tasks| && (s.tasks[id].status.Pending? || s.tasks[id].status.Retry?) then
        OnlyRow(s, t, id) && ClaimedRow(s.tasks[id], t.tasks[id], p, s.now) && t.log == s.log + [Entry(id, Claimed(p))]
      else
        t.tasks == s.tasks && t.log == s.log && t.procs[p] == Idle
  {
  }

  lemma ResultStored(s: State, p: ProcId)
    requires WorkCan(s, p, Write)
    ensures
      var t, pc := AfterWrite(s, p), s.procs[p];
      if pc.id < |s.tasks| && s.tasks[pc.id].lockedBy == Some(p) then
        && OnlyRow(s, t, pc.id) && ResultRow(s.tasks[pc.id], t.tasks[pc.id], pc.verdict, s.now)
        && |t.log| == |s.log| + 1 && t.log[..|s.log|] == s.log && t.log[|s.log|].id == pc.id
        && ResultEvent(t.log[|s.log|].event, pc.verdict, p, pc.task.attempts)
        && GoesOnTo(t.procs[p], pc.verdict, pc.id)
      else
        t.tasks == s.tasks && t.log == s.log && t.procs[p] == Idle
  {
  }

  lemma BeatStored(s: State, k: nat)
    requires k < |s.beats|
    ensures
      var t, b := AfterBeat(s, k), s.beats[k];
      if b.id < |s.tasks| && s.tasks[b.id].lockedBy == Some(b.who) && s.tasks[b.id].status.InProgress? then
        OnlyRow(s, t, b.id) && BeatenRow(s.tasks[b.id], t.tasks[b.id], s.now)
      else
        t.tasks == s.tasks
  {
  }

  lemma ResetStored(s: State, p: ProcId)
    requires RequeueCan(s, p, Reset)
    ensures
      var t, id := AfterReset(s, p), s.procs[p].ids[s.procs[p].i];
      if id < |s.tasks| && s.tasks[id].status.InProgress? && s.tasks[id].lockedAt.Some?
         && s.now - s.tasks[id].lockedAt.value > 30_000
      then OnlyRow(s, t, id) && ResetRow(s.tasks[id], t.tasks[id], s.now) && t.log == s.log + [Entry(id, Reclaimed)]
      else t.tasks == s.tasks && t.log == s.log
  {
  }

  lemma InsertStored(s: State, p: ProcId)
    requires CreateCan(s, p, Insert)
    ensures
      var t, req := AfterInsert(s, p), s.procs[p].req;
      if exists id :: 0 <= id < |s.tasks| && s.tasks[id].key == req.key then
        t.tasks == s.tasks && t.procs[p] == Conflicted(req)
      else
        && |t.tasks| == |s.tasks| + 1 && t.tasks[..|s.tasks|] == s.tasks && FreshRow(t.tasks[|s.tasks|], req, s.now)
        && t.procs[p] == Returned(req, |s.tasks|, t.tasks[|s.tasks|])
  {
  }

  // A statement that comes back with an error may have been applied: then it
  // did what it does without one, except that its program goes on otherwise.
  lemma FailedInsertStored(s: State, p: ProcId, applied: bool)
    requires CreateCan(s, p, InsertError(applied))
    ensures
      var t, req := AfterInsertError(s, p, applied), s.procs[p].req;
      && t.procs[p] == Gone
      && (if applied && !(exists id :: 0 <= id < |s.tasks| && s.tasks[id].key == req.key) then
            && |t.tasks| == |s.tasks| + 1 && t.tasks[..|s.tasks|] == s.tasks
            && FreshRow(t.tasks[|s.tasks|], req, s.now)
          else t.tasks == s.tasks)
  {
  }

  lemma FailedResetStored(s: State, p: ProcId, applied: bool)
    requires RequeueCan(s, p, ResetError(applied))
    ensures
      var t, pc := AfterResetError(s, p, applied), s.procs[p];
      var id := pc.ids[pc.i];
      && t.procs[p] == Resetting(pc.scanAt, pc.ids, pc.i + 1, false)
      && (if applied && id < |s.tasks| && s.tasks[id].status.InProgress? && s.tasks[id].lockedAt.Some?
             && s.now - s.tasks[id].lockedAt.value > 30_000
          then OnlyRow(s, t, id) && ResetRow(s.tasks[id], t.tasks[id], s.now) && t.log == s.log + [Entry(id, Reclaimed)]
          else t.tasks == s.tasks && t.log == s.log)
  {
  }

  // ---- decisions ----

  // A reported success is written as one, a reported date as a schedule for that
  // date, and a failure is retried while attempts are left.
  lemma VerdictExactly(s: State, p: ProcId, outcome: Outcome, calls: nat)
    requires WorkCan(s, p, Finish(outcome, calls))
    ensures
      var pc, pc' := s.procs[p], WorkNext(s, p, Finish(outcome, calls)).procs[p];
      && pc'.Writing? && pc'.id == pc.id && pc'.task == pc.task
      && (pc'.verdict.ToSuccess? <==> outcome.Succeeded?)
      && (forall when :: pc'.verdict == ToSchedule(when) <==> outcome == DetectedTrialEnd(when))
      && (pc'.verdict.ToRetry? <==> outcome.Failure? && pc.task.attempts < pc.task.maxAttempts)
      && (pc'.verdict.ToDeadLetter? <==> outcome.Failure? && pc.task.attempts >= pc.task.maxAttempts)
  {
  }

  // Two names are equal but for the case of ASCII letters.
  predicate SameLetter(c: char, d: char) {
    || c == d
    || ('A' <= c <= 'Z' && d as int == c as int + 32)
    || ('A' <= d <= 'Z' && c as int == d as int + 32)
  }

  predicate SameName(a: string, b: string) {
    |a| == |b| && forall i :: 0 <= i < |a| ==> SameLetter(a[i], b[i])
  }

  lemma LowerIsCaseBlind(a: string, b: string)
    ensures Lower(a) == Lower(b) <==> SameName(a, b)
  {
    if SameName(a, b) {
      forall i | 0 <= i < |a| ensures Lower(a)[i] == Lower(b)[i] {
        assert SameLetter(a[i], b[i]);
      }
    } else if |a| == |b| {
      var i :| 0 <= i < |a| && !SameLetter(a[i], b[i]);
      assert Lower(a)[i] != Lower(b)[i];
    } else {
      assert |Lower(a)| == |a| && |Lower(b)| == |b|;
    }
  }

  predicate Registered(service: string) {
    SameName(service, "test") || SameName(service, "universal")
  }

  predicate Inherited(service: string) {
    SameName(service, "constructor") || SameName(service, "__proto__")
  }

  lemma SmallNames()
    ensures Lower("test") == "test" && Lower("universal") == "universal"
    ensures Lower("constructor") == "constructor" && Lower("__proto__") == "__proto__"
  {
  }

  // The registry's names, in any case, and the two every object inherits.
  lemma KnownExactly(service: string)
    ensures Known(service) <==> Registered(service) || Inherited(service)
  {
    SmallNames();
    LowerIsCaseBlind(service, "test");
    LowerIsCaseBlind(service, "universal");
    LowerIsCaseBlind(service, "constructor");
    LowerIsCaseBlind(service, "__proto__");
  }

  // After a landed claim: a registered service is run, a name outside the
  // registry goes straight to the dead letters.
  lemma ClaimFindsAutomation(s: State, p: ProcId)
    requires WorkCan(s, p, Claim) && s.procs[p].id < |s.tasks| && Claimable(s.tasks[s.procs[p].id])
    ensures
      var t, id := AfterClaim(s, p), s.procs[p].id;
      && (Registered(s.tasks[id].service) ==> t.procs[p] == Running(id, t.tasks[id]))
      && (!Registered(s.tasks[id].service) && !Inherited(s.tasks[id].service) ==>
            t.procs[p] == Writing(id, t.tasks[id], ToDeadLetter))
  {
    KnownExactly(s.tasks[s.procs[p].id].service);
  }

  // The sweep fetches a scheduled row from the instant the Go claim would take it.
  lemma SweepMeetsTheGate(r: Row, now: Time)
    ensures SweepDue(r, now) <==> r.status.Pending? && r.scheduledFor.Some? && r.scheduledFor.value <= now
    ensures SweepDue(r, now) <==> GoClaimGate(r, now) && r.scheduledFor.Some?
    ensures GoClaimGate(r, now) <==> r.status.Pending? && (r.scheduledFor.None? || r.scheduledFor.value <= now)
  {
  }
}
