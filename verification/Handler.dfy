// POST /tasks as the handler runs it: validate, insert or fetch, decide whether
// to enqueue, answer.
module Handler {
  import opened Wrappers
  import opened TaskTable
  import opened Protocol
  import opened Safety
  import opened Deeds
  import opened Statements
  import opened Cluster
  import opened Processes

  datatype RawRequest = RawRequest(
    idempotencyKey: string, serviceName: string, userEmail: string,
    payload: Option<string>, scheduledFor: Option<Time>)

  function RequestOf(raw: RawRequest, key: Key): Request {
    Request(key, raw.serviceName, raw.userEmail, raw.payload, raw.scheduledFor)
  }

  // Unicode white space, as strings.TrimSpace cuts it.
  predicate IsSpace(c: char) {
    || '\t' <= c <= '\r' || c == ' '
    || c as int in {0x85, 0xA0, 0x1680, 0x2028, 0x2029, 0x202F, 0x205F, 0x3000}
    || 0x2000 <= c as int <= 0x200A
  }

  predicate Blank(s: string) {
    forall i :: 0 <= i < |s| ==> IsSpace(s[i])
  }

  // strings.TrimSpace: cut white space off both ends.
  function TrimSpace(s: string): string
    decreases |s|
  {
    if s != [] && IsSpace(s[0]) then TrimSpace(s[1..])
    else if s != [] && IsSpace(s[|s| - 1]) then TrimSpace(s[..|s| - 1])
    else s
  }

  // Nothing is left of a string exactly when it is all white space.
  lemma {:induction false} TrimmedAway(s: string)
    ensures TrimSpace(s) == [] <==> Blank(s)
    decreases |s|
  {
    if s != [] && IsSpace(s[0]) {
      TrimmedAway(s[1..]);
      assert s == [s[0]] + s[1..];
    } else if s != [] && IsSpace(s[|s| - 1]) {
      TrimmedAway(s[..|s| - 1]);
    }
  }

  // s[i..j] is s without white space at its ends.
  predicate Middle(s: string, i: nat, j: nat) {
    && i <= j <= |s| && Blank(s[..i]) && Blank(s[j..])
    && (i < j ==> !IsSpace(s[i]) && !IsSpace(s[j - 1]))
  }

  lemma MiddleAfterFirst(s: string, i: nat, j: nat)
    requires s != [] && IsSpace(s[0]) && Middle(s[1..], i, j)
    ensures Middle(s, i + 1, j + 1) && s[i + 1..j + 1] == s[1..][i..j]
  {
    assert s[..i + 1] == [s[0]] + s[1..][..i];
    assert s[j + 1..] == s[1..][j..];
    forall k | 0 <= k < j - i ensures s[i + 1..j + 1][k] == s[1..][i..j][k] {
      assert s[1..][i + k] == s[i + 1 + k];
    }
  }

  lemma MiddleBeforeLast(s: string, i: nat, j: nat)
    requires s != [] && IsSpace(s[|s| - 1]) && Middle(s[..|s| - 1], i, j)
    ensures Middle(s, i, j) && s[i..j] == s[..|s| - 1][i..j]
  {
    assert s[..i] == s[..|s| - 1][..i];
    assert s[j..] == s[..|s| - 1][j..] + [s[|s| - 1]];
    assert s[i..j] == s[..|s| - 1][i..j];
  }

  // Trimming leaves such a piece.
  lemma {:induction false} TrimmedPiece(s: string) returns (i: nat, j: nat)
    ensures Middle(s, i, j) && TrimSpace(s) == s[i..j]
    decreases |s|
  {
    if s != [] && IsSpace(s[0]) {
      i, j := TrimmedPiece(s[1..]);
      MiddleAfterFirst(s, i, j);
      i, j := i + 1, j + 1;
    } else if s != [] && IsSpace(s[|s| - 1]) {
      i, j := TrimmedPiece(s[..|s| - 1]);
      MiddleBeforeLast(s, i, j);
    } else {
      i, j := 0, |s|;
    }
  }

  // The 25 code points that are white space.
  lemma SpacesAre(c: char)
    ensures IsSpace(c) <==>
            c as int in {9, 10, 11, 12, 13, 32, 133, 160, 5760, 8192, 8193, 8194, 8195, 8196, 8197, 8198, 8199,
                         8200, 8201, 8202, 8232, 8233, 8239, 8287, 12288}
  {
  }

  const KEY_REQUIRED: string := "idempotency_key is required"
  const SERVICE_REQUIRED: string := "service_name is required"
  const EMAIL_REQUIRED: string := "user_email is required"

  // One message for each blank field, in field order.
  method ValidateCreateTaskRequest(raw: RawRequest) returns (errs: seq<string>)
    ensures errs == [] <==> !Blank(raw.idempotencyKey) && !Blank(raw.serviceName) && !Blank(raw.userEmail)
    ensures KEY_REQUIRED in errs <==> Blank(raw.idempotencyKey)
    ensures SERVICE_REQUIRED in errs <==> Blank(raw.serviceName)
    ensures EMAIL_REQUIRED in errs <==> Blank(raw.userEmail)
    ensures errs == (if Blank(raw.idempotencyKey) then [KEY_REQUIRED] else [])
                    + (if Blank(raw.serviceName) then [SERVICE_REQUIRED] else [])
                    + (if Blank(raw.userEmail) then [EMAIL_REQUIRED] else [])
  {
    MessagesDiffer();
    errs := [];
    TrimmedAway(raw.idempotencyKey);
    if TrimSpace(raw.idempotencyKey) == "" {
      errs := errs + [KEY_REQUIRED];
    }
    TrimmedAway(raw.serviceName);
    if TrimSpace(raw.serviceName) == "" {
      errs := errs + [SERVICE_REQUIRED];
    }
    TrimmedAway(raw.userEmail);
    if TrimSpace(raw.userEmail) == "" {
      errs := errs + [EMAIL_REQUIRED];
    }
  }

  lemma MessagesDiffer()
    ensures KEY_REQUIRED != SERVICE_REQUIRED && KEY_REQUIRED != EMAIL_REQUIRED && SERVICE_REQUIRED != EMAIL_REQUIRED
  {
    assert KEY_REQUIRED[0] == 'i' && SERVICE_REQUIRED[0] == 's' && EMAIL_REQUIRED[0] == 'u';
  }

  // BadKey and ServerError are both a 500: the key does not parse, or the INSERT
  // fails, applied or not. A dropped request dies on the way or fails its lookup.
  // push: None when no enqueue was attempted, else whether it succeeded.
  datatype Response =
    | Unprocessable(errs: seq<string>)
    | BadKey
    | ServerError(p: ProcId, applied: bool)
    | Answer(p: ProcId, found: Option<TaskId>, id: TaskId, task: Row, code: nat, goNow: Time, push: Option<bool>)
    | Dropped(p: ProcId)

  // What a request does: insert, and after a conflict the lookup ...
  function StoreDeeds(p: ProcId, found: Option<TaskId>): seq<Deed> {
    [Quiet(Create(p, Insert))] + if found.Some? then [Quiet(Create(p, Lookup(found.value)))] else []
  }

  // ... then the decision, and the push of the row's id if there is one.
  function AnswerDeeds(p: ProcId, id: TaskId, goNow: Time, push: Option<bool>): seq<Deed> {
    [Quiet(Create(p, Settle(goNow)))] +
    if push.Some? then [Deed(Create(p, if push.value then Protocol.Enqueue else EnqueueFail), [], [id])] else []
  }

  datatype Stored = Kept(found: Option<TaskId>) | Refused(applied: bool) | Lost

  class TaskHandler {
    const world: World

    constructor (world: World)
      ensures this.world == world
    {
      this.world := world;
    }

    // The request enters with its parsed key.
    method Arrive(req: Request) returns (p: ProcId)
      requires world.Valid()
      modifies world
      ensures world.Valid() && p < |world.procs| && world.procs[p] == Arrived(req)
      ensures p == |old(world.procs)| && world.Done(p) == old(world.Done(p))
    {
      p := |world.procs|;
      world.Do(Spawn(Arrived(req)));
    }

    method Insert(p: ProcId) returns (inserted: bool)
      requires world.Valid() && CreateCan(world.View(), p, Protocol.Insert)
      modifies world
      ensures world.Valid() && p < |world.procs|
      ensures inserted <==> !KeyTaken(old(world.tasks), old(world.procs[p]).req.key)
      ensures if inserted then world.procs[p].Returned? else world.procs[p].Conflicted?
      ensures inserted ==> FreshRow(world.procs[p].task, world.procs[p].req, world.now)
      ensures world.procs[p].req == old(world.procs[p]).req
      ensures world.Done(p) == old(world.Done(p)) + [Quiet(Create(p, Protocol.Insert))]
    {
      CreateDeed(world.View(), p, Protocol.Insert);
      inserted := world.InsertTask(p);
    }

    method Fetch(p: ProcId) returns (id: TaskId)
      requires world.Valid() && p < |world.procs| && world.procs[p].Conflicted?
      modifies world
      ensures world.Valid() && p < |world.procs| && world.procs[p].Returned?
      ensures world.procs[p].req == old(world.procs[p]).req && world.procs[p].id == id
      ensures world.Done(p) == old(world.Done(p)) + [Quiet(Create(p, Lookup(id)))]
    {
      ghost var before := world.View();
      id := world.GetTaskByIdempotencyKey(p);
      CreateDeed(before, p, Lookup(id));
    }

    // INSERT, and after a conflict the follow-up SELECT.
    method InsertOrFetch(p: ProcId) returns (stored: Stored)
      requires world.Valid() && CreateCan(world.View(), p, Protocol.Insert)
      modifies world
      ensures world.Valid() && p < |world.procs|
      ensures !stored.Kept? ==> world.procs[p].Gone?
      ensures stored.Kept? ==> world.procs[p].Returned? && world.procs[p].req == old(world.procs[p]).req
      ensures stored == Kept(None) ==> FreshRow(world.procs[p].task, world.procs[p].req, world.now)
      ensures stored.Kept? ==> (stored.found.Some? <==> KeyTaken(old(world.tasks), old(world.procs[p]).req.key))
      ensures stored.Kept? ==> world.Done(p) == old(world.Done(p)) + StoreDeeds(p, stored.found)
      ensures stored.Refused? ==>
                world.Done(p) == old(world.Done(p)) + [Quiet(Create(p, InsertError(stored.applied)))]
    {
      var dbFails: bool := *;
      if dbFails {
        var applied: bool := *;
        CreateDeed(world.View(), p, InsertError(applied));
        world.Do(Create(p, InsertError(applied)));
        return Refused(applied);
      }
      var inserted := Insert(p);
      if inserted {
        return Kept(None);
      }
      var alive := Await(world, p, 0);
      if !alive {
        return Lost;
      }
      var id := Fetch(p);
      stored := Kept(Some(id));
    }

    // The decision: go on to enqueue, or answer.
    method Settle(p: ProcId, goNow: Time) returns (pushes: bool)
      requires world.Valid() && CreateCan(world.View(), p, Protocol.Settle(goNow))
      modifies world
      ensures world.Valid() && p < |world.procs|
      ensures var pc := old(world.procs[p]);
              && pushes == (IsNew(pc.task) && ScheduleReached(pc.task, goNow))
              && world.procs[p] == (if pushes then Enqueuing(pc.req, pc.id, pc.task)
                                    else Answered(pc.req, pc.id, pc.task, if IsNew(pc.task) then 201 else 200))
      ensures world.Done(p) == old(world.Done(p)) + [Quiet(Create(p, Protocol.Settle(goNow)))]
    {
      var task := world.procs[p].task;
      pushes := IsNew(task) && !ScheduledFuture(task, goNow);
      CreateDeed(world.View(), p, Protocol.Settle(goNow));
      world.Do(Create(p, Protocol.Settle(goNow)));
    }

    method Enqueue(p: ProcId) returns (pushed: bool)
      requires world.Valid() && CreateCan(world.View(), p, Protocol.Enqueue)
      modifies world
      ensures world.Valid() && p < |world.procs|
      ensures var pc := old(world.procs[p]);
              && world.procs[p] == Answered(pc.req, pc.id, pc.task, 201)
              && world.Done(p)
                 == old(world.Done(p))
                    + [Deed(Create(p, if pushed then Protocol.Enqueue else EnqueueFail), [], [pc.id])]
    {
      pushed := *;
      var push := if pushed then Protocol.Enqueue else EnqueueFail;
      CreateDeed(world.View(), p, push);
      world.Do(Create(p, push));
    }

    // The enqueue decision and, when it is positive, the push.
    method EnqueueIfNew(p: ProcId, goNow: Time) returns (alive: bool, push: Option<bool>)
      requires world.Valid() && CreateCan(world.View(), p, Protocol.Settle(goNow))
      modifies world
      ensures world.Valid() && p < |world.procs|
      ensures !alive ==> world.procs[p].Gone?
      ensures var pc := old(world.procs[p]);
              alive ==>
                && world.procs[p] == Answered(pc.req, pc.id, pc.task, if IsNew(pc.task) then 201 else 200)
                && (push.Some? <==> IsNew(pc.task) && ScheduleReached(pc.task, goNow))
                && world.Done(p) == old(world.Done(p)) + AnswerDeeds(p, pc.id, goNow, push)
    {
      push := None;
      alive := true;
      var pushes := Settle(p, goNow);
      if pushes {
        alive := Await(world, p, 0);
        if alive {
          var pushed := Enqueue(p);
          push := Some(pushed);
        }
      }
    }

    // key is what uuid.Parse makes of the idempotency key, None when it fails.
    method CreateTask(raw: RawRequest, key: Option<Key>) returns (response: Response)
      requires world.Valid()
      modifies world
      ensures world.Valid()
      ensures response.Unprocessable? <==>
                Blank(raw.idempotencyKey) || Blank(raw.serviceName) || Blank(raw.userEmail)
      ensures response.Unprocessable? || response.BadKey? ==> world.View() == old(world.View())
      ensures response.BadKey? <==> !response.Unprocessable? && key.None?
      ensures !response.Unprocessable? && !response.BadKey? ==>
                |old(world.procs)| <= response.p < |world.procs|
      ensures response.ServerError? ==>
                && world.procs[response.p].Gone?
                && world.Done(response.p)
                   == old(world.Done(response.p)) + [Quiet(Create(response.p, InsertError(response.applied)))]
      ensures response.Dropped? ==> world.procs[response.p].Gone?
      ensures response.Answer? ==>
                && AnswersWith(response.p, RequestOf(raw, key.value), response)
                && response.task.key == key.value
                && (response.found.None? ==>
                      && response.task.service == raw.serviceName && response.task.email == raw.userEmail
                      && response.task.payload == raw.payload && response.task.scheduledFor == raw.scheduledFor
                      && response.task.status.Pending? && response.task.attempts == 0
                      && response.task.maxAttempts == 3 && response.code == 201)
                && world.Done(response.p)
                   == old(world.Done(response.p)) + StoreDeeds(response.p, response.found)
                      + AnswerDeeds(response.p, response.id, response.goNow, response.push)
    {
      var errs := ValidateCreateTaskRequest(raw);
      if errs != [] {
        return Unprocessable(errs);
      }
      if key.None? {
        return BadKey;
      }
      var p := Arrive(RequestOf(raw, key.value));
      var alive := Await(world, p, 0);
      if !alive {
        return Dropped(p);
      }
      response := Stores(p);
    }

    // Step 3 on: the row, then the answer about it.
    method Stores(p: ProcId) returns (response: Response)
      requires world.Valid() && CreateCan(world.View(), p, Protocol.Insert)
      modifies world
      ensures world.Valid() && p < |world.procs|
      ensures (response.ServerError? || response.Dropped? || response.Answer?) && response.p == p
      ensures response.ServerError? ==>
                && world.procs[p].Gone?
                && world.Done(p) == old(world.Done(p)) + [Quiet(Create(p, InsertError(response.applied)))]
      ensures response.Dropped? ==> world.procs[p].Gone?
      ensures response.Answer? ==> AnswersWith(p, old(world.procs[p]).req, response)
      ensures response.Answer? ==>
                world.Done(p) == old(world.Done(p)) + StoreDeeds(p, response.found)
                                 + AnswerDeeds(p, response.id, response.goNow, response.push)
    {
      var stored := InsertOrFetch(p);
      if stored.Refused? {
        return ServerError(p, stored.applied);
      }
      if stored.Lost? {
        return Dropped(p);
      }
      var alive := Await(world, p, 0);
      if !alive {
        return Dropped(p);
      }
      var goNow: Time := *;
      var task, id := world.procs[p].task, world.procs[p].id;
      var push;
      alive, push := EnqueueIfNew(p, goNow);
      if !alive {
        return Dropped(p);
      }
      AnsweredWell(world, p);
      response := Answer(p, stored.found, id, task, world.procs[p].code, goNow, push);
    }

    // What an answer says is what the process read, and about the only row of
    // its key; a row it inserted itself is the request's own.
    ghost predicate AnswersWith(p: ProcId, req: Request, response: Response)
      requires p < |world.procs| && response.Answer?
      reads world
    {
      && world.procs[p] == Answered(req, response.id, response.task, response.code)
      && response.id < |world.tasks|
      && response.task.key == req.key && SameIdentity(response.task, world.tasks[response.id])
      && (response.found.None? ==> FreshRow(response.task, req, response.task.createdAt))
      && response.code == (if IsNew(response.task) then 201 else 200)
      && (response.push.Some? <==> IsNew(response.task) && ScheduleReached(response.task, response.goNow))
      && (forall i :: 0 <= i < |world.tasks| && world.tasks[i].key == req.key ==> i == response.id)
    }
  }

  lemma AnsweredWell(w: World, p: ProcId)
    requires w.Valid() && p < |w.procs| && w.procs[p].Answered?
    ensures
      var pc := w.procs[p];
      && pc.id < |w.tasks| && pc.task.key == pc.req.key && SameIdentity(pc.task, w.tasks[pc.id])
      && (forall i :: 0 <= i < |w.tasks| && w.tasks[i].key == pc.req.key ==> i == pc.id)
  {
    CoreAlways(w.start, w.trace);
    assert ProcOk(w.View().procs[p], w.View().tasks);
  }
}
