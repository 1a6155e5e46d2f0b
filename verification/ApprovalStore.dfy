/**
 The approval tables and the transactions over them. Each transaction is a function from the
 committed state to the next one; a failed transaction is rolled back and leaves no trace.
 */
module ApprovalStore {
  import opened Wrappers
  import opened ToolGate

  datatype Status = Pending | Approved | Rejected | Expired | Executed | Failed

  datatype RunStatus = Running | PausedApproval | Done | RunFailed | Cancelled {
    predicate Live() {
      Running? || PausedApproval?
    }
  }

  /** A run belongs to the user who owns its thread. */
  datatype Run = Run(owner: nat, status: RunStatus)

  /** One tool call part of an assistant message. */
  datatype Call = Call(id: string, tool: string, arguments: Json)

  datatype Message = Message(run: nat, calls: seq<Call>)

  datatype Action = Action(
    run: nat, message: nat, creator: nat, role: string,
    call: Call, edited: Json, status: Status, decidedBy: Option<nat>, expiresAt: int)
  {
    /** The decision's edits when it made any, the model's own arguments otherwise. */
    function EffectiveArguments(): Json {
      if edited.Absent? then call.arguments else edited
    }
  }

  datatype AuditEvent = Created | Became(status: Status)

  /** Every identifier in use is below `nextId`. */
  datatype Store = Store(
    runs: map<nat, Run>, messages: map<nat, Message>,
    actions: map<nat, Action>, audit: map<nat, seq<AuditEvent>>, nextId: nat)

  datatype Error = NothingRequested | RunNotRunning | PartMissing | Constraint | NotFound | AlreadyDecided

  /** The resume a transition claims: who it acts as, and the one message it must replay. */
  datatype Start = Start(user: nat, role: string, run: nat, message: nat)

  datatype Request = Request(call: Call, expiresAt: int)

  const Empty := Store(map[], map[], map[], map[], 0)

  // ---- pausing ---------------------------------------------------------------

  predicate HasPart(calls: seq<Call>, id: string) {
    exists k :: 0 <= k < |calls| && calls[k].id == id
  }

  predicate CallTaken(st: Store, run: nat, id: string) {
    exists a :: a in st.actions && st.actions[a].run == run && st.actions[a].call.id == id
  }

  /** One row of `pending_actions`, with its `created` audit row. */
  function InsertAction(st: Store, user: nat, role: string, run: nat, message: nat, request: Request): Result<Store, Error>
  {
    if message !in st.messages || !HasPart(st.messages[message].calls, request.call.id) then Failure(PartMissing)
    else if !request.call.arguments.Object? || CallTaken(st, run, request.call.id) then Failure(Constraint)
    else
      Success(st.(
        actions := st.actions[st.nextId := Action(run, message, user, role, request.call, Absent, Pending, None, request.expiresAt)],
        audit := st.audit[st.nextId := [Created]],
        nextId := st.nextId + 1))
  }

  function InsertActions(st: Store, user: nat, role: string, run: nat, message: nat, requests: seq<Request>): Result<Store, Error>
  {
    if requests == [] then Success(st)
    else
      match InsertActions(st, user, role, run, message, requests[..|requests| - 1])
      case Failure(e) => Failure(e)
      case Success(before) => InsertAction(before, user, role, run, message, requests[|requests| - 1])
  }

  /** The state the inserts start from: the message is written and the run is parked. */
  function ParkedRun(st: Store, run: nat, calls: seq<Call>): Store
    requires run in st.runs
  {
    st.(messages := st.messages[st.nextId := Message(run, calls)],
        runs := st.runs[run := st.runs[run].(status := PausedApproval)],
        nextId := st.nextId + 1)
  }

  function Pause(st: Store, user: nat, role: string, run: nat, calls: seq<Call>, requests: seq<Request>): Result<Store, Error>
  {
    if requests == [] then Failure(NothingRequested)
    else if run !in st.runs || !st.runs[run].status.Running? then Failure(RunNotRunning)
    else InsertActions(ParkedRun(st, run, calls), user, role, run, st.nextId, requests)
  }

  // ---- deciding --------------------------------------------------------------

  predicate AwaitsDecision(st: Store, run: nat) {
    exists a :: a in st.actions && st.actions[a].run == run && st.actions[a].status.Pending?
  }

  /** The row a decision or expiry writes; a decision that comes too late is an expiry. */
  function Decided(a: Action, user: nat, role: string, verdict: Status, edited: Json, human: bool, now: int): Action {
    if a.expiresAt <= now then a.(status := Expired, edited := Absent, decidedBy := None)
    else if human then a.(status := verdict, edited := edited, decidedBy := Some(user), role := role)
    else a.(status := verdict, edited := edited, decidedBy := None)
  }

  function WithAction(st: Store, id: nat, a: Action, event: AuditEvent): Store
    requires id in st.audit
  {
    st.(actions := st.actions[id := a], audit := st.audit[id := st.audit[id] + [event]])
  }

  /** The run is let go when nothing of it is pending any more, and its resume is claimed. */
  function LetGo(st: Store, a: Action): (Store, Option<Start>) {
    if AwaitsDecision(st, a.run) || a.run !in st.runs || !st.runs[a.run].status.PausedApproval? then (st, None)
    else
      (st.(runs := st.runs[a.run := st.runs[a.run].(status := Running)]),
       Some(Start(a.creator, a.role, a.run, a.message)))
  }

  function Transition(st: Store, user: nat, role: string, id: nat, verdict: Status, edited: Json, human: bool, now: int)
    : Result<(Store, Option<Start>), Error>
  {
    if id !in st.actions || id !in st.audit || st.actions[id].creator != user then Failure(NotFound)
    else if !st.actions[id].status.Pending? then Failure(AlreadyDecided)
    else
      var a := Decided(st.actions[id], user, role, verdict, edited, human, now);
      if a.edited.Other? then Failure(Constraint)
      else Success(LetGo(WithAction(st, id, a, Became(a.status)), a))
  }

  // ---- settling and cancelling -----------------------------------------------

  /** The audit row is written whether or not the guarded update hit an approved action. */
  function RecordOutcome(st: Store, id: nat, outcome: Status): Store
    requires id in st.actions && id in st.audit
  {
    var a := st.actions[id];
    WithAction(st, id, if a.status.Approved? then a.(status := outcome) else a, Became(outcome))
  }

  predicate Revocable(st: Store, user: nat, run: nat, a: nat) {
    a in st.actions && st.actions[a].run == run && st.actions[a].creator == user &&
    (st.actions[a].status.Pending? || st.actions[a].status.Approved?)
  }

  function Revoke(st: Store, user: nat, run: nat): Store
    requires st.actions.Keys == st.audit.Keys
  {
    st.(actions := map a | a in st.actions ::
                     if Revocable(st, user, run, a) then st.actions[a].(status := Rejected, decidedBy := Some(user)) else st.actions[a],
        audit := map a | a in st.audit ::
                   if Revocable(st, user, run, a) then st.audit[a] + [Became(Rejected)] else st.audit[a])
  }

  /** First writer wins: a run that is no longer live keeps its outcome. */
  function Finish(st: Store, run: nat, status: RunStatus): Store {
    if run in st.runs && st.runs[run].status.Live() then st.(runs := st.runs[run := st.runs[run].(status := status)]) else st
  }

  function Cancel(st: Store, user: nat, run: nat): Result<Store, Error>
    requires st.actions.Keys == st.audit.Keys
  {
    if run !in st.runs || !st.runs[run].status.PausedApproval? || st.runs[run].owner != user then Failure(NotFound)
    else Success(Finish(Revoke(st, user, run), run, Cancelled))
  }

  /** Start-up repair: a run still running belongs to a process that is gone. */
  function Recover(st: Store): Store {
    st.(runs := map r | r in st.runs ::
                  if st.runs[r].status.Running? then st.runs[r].(status := RunFailed) else st.runs[r])
  }

  function InsertRun(st: Store, owner: nat): Store {
    st.(runs := st.runs[st.nextId := Run(owner, Running)], nextId := st.nextId + 1)
  }

  // ---- what a resume reads ---------------------------------------------------

  /** An action row as it was when it was read. */
  datatype Linked = Linked(id: nat, row: Action)

  datatype BatchCall = BatchCall(call: Call, action: Option<Linked>)

  predicate Pairs(st: Store, run: nat, message: nat, id: string, a: nat) {
    a in st.actions && st.actions[a].run == run && st.actions[a].message == message && st.actions[a].call.id == id
  }

  lemma {:induction false} LeastExists(s: set<nat>) returns (m: nat)
    requires s != {}
    ensures m in s && forall x :: x in s ==> m <= x
  {
    var first :| first in s;
    var rest := s - {first};
    m := first;
    if rest != {} {
      var least := LeastExists(rest);
      if least < first { m := least; }
    }
    forall x | x in s ensures m <= x {
      if x != first { assert x in rest; }
    }
  }

  lemma SomeLeast(s: set<nat>)
    requires s != {}
    ensures exists m :: m in s && forall x :: x in s ==> m <= x
  {
    var m := LeastExists(s);
  }

  function Least(s: set<nat>): (m: nat)
    requires s != {}
    ensures m in s && forall x :: x in s ==> m <= x
  {
    SomeLeast(s);
    var m :| m in s && forall x :: x in s ==> m <= x;
    m
  }

  /** The action of one call; a run never has two for one call id. */
  function Link(st: Store, run: nat, message: nat, id: string): (l: Option<Linked>)
    ensures l.Some? ==> Pairs(st, run, message, id, l.value.id) && l.value.row == st.actions[l.value.id]
    ensures l.None? ==> forall a :: !Pairs(st, run, message, id, a)
  {
    var matches := set a | a in st.actions && Pairs(st, run, message, id, a);
    if matches == {} then
      assert forall a :: Pairs(st, run, message, id, a) ==> a in matches;
      None
    else Some(Linked(Least(matches), st.actions[Least(matches)]))
  }

  /** The calls of one parked message, each with its action when it has one. */
  function LoadBatch(st: Store, run: nat, message: nat): Result<seq<BatchCall>, Error> {
    if message !in st.messages || !exists a :: a in st.actions && st.actions[a].run == run && st.actions[a].message == message
    then Failure(NotFound)
    else
      var calls := st.messages[message].calls;
      Success(seq(|calls|, k requires 0 <= k < |calls| => BatchCall(calls[k], Link(st, run, message, calls[k].id))))
  }

  // ---- replaying the audit trail ---------------------------------------------

  datatype Replayed = Unborn | At(status: Status) | Broken

  /** The lawful history of an action: created, decided, and settled or revoked after an approval. */
  function Lawful(from: Replayed, event: AuditEvent): Replayed {
    match (from, event)
    case (Unborn, Created) => At(Pending)
    case (At(Pending), Became(s)) => if s.Approved? || s.Rejected? || s.Expired? then At(s) else Broken
    case (At(Approved), Became(s)) => if s.Executed? || s.Failed? || s.Expired? || s.Rejected? then At(s) else Broken
    case _ => Broken
  }

  function Replay(rows: seq<AuditEvent>): Replayed {
    if rows == [] then Unborn else Lawful(Replay(rows[..|rows| - 1]), rows[|rows| - 1])
  }

  lemma ReplayStep(rows: seq<AuditEvent>, event: AuditEvent)
    ensures Replay(rows + [event]) == Lawful(Replay(rows), event)
  {
    assert (rows + [event])[..|rows|] == rows;
  }
}
