// The AI automation inside the protocol: whatever the model answers and the
// page does, one run of it is a step the protocol allows its worker.
module Automations {
  import opened Protocol
  import opened TaskTable
  import opened Scheduling
  import opened Universal

  lemma UniversalRunFits(
      s: State, p: ProcId, script: Script, pages: nat -> Page, at: nat, env: Setting)
    requires p < |s.procs| && s.procs[p].Running? && Lower(s.procs[p].task.service) == "universal"
    ensures
      var ran := Cancelled(script, pages, at, env);
      && WorkCan(s, p, Finish(ran.outcome, ran.calls))
      && Prompt(s, Work(p, Finish(ran.outcome, ran.calls)))
  {
    CancelBound(script, pages, at, env);
  }

  // What the worker then writes: SUCCESS only on the model's own word, and
  // never a schedule; else RETRY, or DEAD_LETTER on the last attempt.
  lemma UniversalVerdict(task: Row, script: Script, pages: nat -> Page, at: nat, env: Setting)
    ensures
      var ran := Cancelled(script, pages, at, env);
      var v := Verdicted(task, ran.outcome);
      && (v.ToSuccess? ==> ran.calls > 0 && script(at + ran.calls - 1) == Answer(Json(Done(true))))
      && (!v.ToSuccess? ==> v == if task.attempts >= task.maxAttempts then ToDeadLetter else ToRetry)
  {
    CancelBound(script, pages, at, env);
  }
}
