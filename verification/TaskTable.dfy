// The tasks table: its rows, and every SQL statement the Go API and the Node
// workers issue against it, each written as a guard on the row (the WHERE
// clause) and the row it leaves behind (the SET clause plus the trigger).
module TaskTable {
  import opened Wrappers

  // A task's UUID is modelled by its position in the table, a worker's UUID by
  // its position in the list of processes ever started: fresh and never reused.
  type TaskId = nat
  type ProcId = nat
  type Key = nat
  // Milliseconds.
  type Time = int

  const STALE_LOCK_THRESHOLD: Time := 30_000
  const DEFAULT_MAX_ATTEMPTS: nat := 3

  datatype Status = Pending | InProgress | Success | Failed | Retry | DeadLetter

  datatype Row = Row(
    key: Key,
    service: string,
    email: string,
    payload: Option<string>,
    status: Status,
    attempts: nat,
    maxAttempts: nat,
    createdAt: Time,
    updatedAt: Time,
    lockedAt: Option<Time>,
    lockedBy: Option<ProcId>,
    scheduledFor: Option<Time>)

  datatype Request = Request(
    key: Key, service: string, email: string, payload: Option<string>, scheduledFor: Option<Time>)

  // ---- INSERT ... ON CONFLICT (idempotency_key) DO NOTHING ----

  predicate KeyTaken(tasks: seq<Row>, key: Key) {
    exists id :: 0 <= id < |tasks| && tasks[id].key == key
  }

  function NewRow(req: Request, now: Time): Row {
    Row(req.key, req.service, req.email, req.payload, Pending, 0, DEFAULT_MAX_ATTEMPTS,
        now, now, None, None, req.scheduledFor)
  }

  // The columns no statement ever writes again.
  predicate SameIdentity(a: Row, b: Row) {
    && a.key == b.key && a.service == b.service && a.email == b.email && a.payload == b.payload
    && a.maxAttempts == b.maxAttempts && a.createdAt == b.createdAt
  }

  // ---- UPDATE statements; the BEFORE UPDATE trigger stamps updated_at ----

  function Stamped(r: Row, now: Time): Row {
    r.(updatedAt := now)
  }

  predicate Claimable(r: Row) {
    r.status.Pending? || r.status.Retry?
  }

  function ClaimRow(r: Row, w: ProcId, now: Time): Row {
    Stamped(r.(status := InProgress, lockedAt := Some(now), lockedBy := Some(w), attempts := r.attempts + 1), now)
  }

  predicate BeatLands(r: Row, w: ProcId) {
    r.lockedBy == Some(w) && r.status.InProgress?
  }

  function BeatRow(r: Row, now: Time): Row {
    Stamped(r.(lockedAt := Some(now)), now)
  }

  // The four result writes share this fence: the owner, and nothing else.
  predicate OwnedBy(r: Row, w: ProcId) {
    r.lockedBy == Some(w)
  }

  function Release(r: Row, status: Status, now: Time): Row {
    Stamped(r.(status := status, lockedAt := None, lockedBy := None), now)
  }

  function ScheduleRow(r: Row, when: Option<Time>, now: Time): Row {
    Release(r, Pending, now).(scheduledFor := when)
  }

  // Comparing a NULL locked_at is never true.
  predicate Stale(r: Row, now: Time) {
    r.status.InProgress? && r.lockedAt.Some? && r.lockedAt.value < now - STALE_LOCK_THRESHOLD
  }

  // ---- SELECT conditions ----

  predicate ScheduleReached(r: Row, now: Time) {
    r.scheduledFor.None? || r.scheduledFor.value <= now
  }

  predicate SweepDue(r: Row, now: Time) {
    r.status.Pending? && r.scheduledFor.Some? && r.scheduledFor.value <= now
  }

  // The WHERE clause of the Go ClaimTask, stricter than the worker's.
  predicate GoClaimGate(r: Row, now: Time) {
    r.status.Pending? && ScheduleReached(r, now)
  }

  // The handler's test for "this row is new".
  predicate IsNew(r: Row) {
    r.createdAt == r.updatedAt
  }
}
