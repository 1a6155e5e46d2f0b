/**
 The approval protocol as a state machine: every transaction is one atomic step, every run
 goroutine is a program counter, and a history records what each step did. A schedule is a
 sequence of steps chosen by an adversary; a step that is not enabled does nothing.
 */
module ApprovalProtocol {
  import opened Wrappers
  import opened ToolGate
  import opened ApprovalStore

  const MaxSteps := 50

  /** Twenty-four hours, in seconds. */
  const ApprovalWindow: int := 86400

  /** Where one run goroutine is. */
  datatype Pc =
    | Claimed(message: nat)                                        // a resume claimed, its batch not loaded yet
    | Looping(turn: nat)                                           // between two provider turns
    | Dispatching(turn: nat, message: nat, calls: seq<Call>, i: nat) // running a message no call of which is parked
    | Resuming(message: nat, batch: seq<BatchCall>, i: nat)        // replaying a parked message
    | Cleared(message: nat, batch: seq<BatchCall>, i: nat, checkedAt: int)  // deadline checked, tool not run yet
    | Settling(message: nat, batch: seq<BatchCall>, i: nat, outcome: Status) // outcome known, row not written yet
    | Finishing(status: RunStatus)

  datatype Proc = Proc(run: nat, user: nat, role: string, pc: Pc)

  datatype Event =
    | ParkedEvent(run: nat, message: nat)
    | DecidedEvent(id: nat, verdict: Status, decider: Option<nat>, tool: string, args: Json, expiresAt: int, at: int)
    | ClaimedEvent(run: nat, message: nat)
    | DispatchedEvent(run: nat, user: nat, message: nat, call: string, tool: string, args: Json, consent: Option<nat>, checkedAt: int, at: int)

  datatype Sys = Sys(st: Store, now: int, procs: map<nat, Proc>, nextProc: nat, history: seq<Event>)

  /** What became of a tool the registry ran. */
  datatype Outcome = Ran | ReportedError | Crashed

  datatype Step =
    | Begin(user: nat, role: string)
    | Tick(seconds: nat)
    | Turn(p: nat, calls: seq<Call>, cutOff: bool)
    | Dispatch(p: nat, ok: bool)
    | Load(p: nat)
    | ResumeCall(p: nat, ok: bool)
    | RunApproved(p: nat, outcome: Outcome)
    | Settle(p: nat, ok: bool)
    | CompleteBatch(p: nat, ok: bool)
    | Abort(p: nat, cancelled: bool)
    | EndRun(p: nat)
    | Vanish(p: nat)
    | Decide(user: nat, role: string, id: nat, approve: bool, edited: Json)
    | Sweep(id: nat)
    | CancelRun(user: nat, run: nat)
    | Restart

  const Init := Sys(Empty, 0, map[], 0, [])

  // ---- building blocks -------------------------------------------------------

  function Goto(s: Sys, p: nat, pc: Pc): Sys
    requires p in s.procs
  {
    s.(procs := s.procs[p := s.procs[p].(pc := pc)])
  }

  function Drop(s: Sys, p: nat): Sys {
    s.(procs := s.procs - {p})
  }

  function Log(s: Sys, e: Event): Sys {
    s.(history := s.history + [e])
  }

  predicate DistinctIds(calls: seq<Call>) {
    forall j, k :: 0 <= j < k < |calls| ==> calls[j].id != calls[k].id
  }

  /** `approvalRequests`: the calls this actor's definitions mark as needing approval. */
  function Requests(reg: Registry, role: string, calls: seq<Call>, now: int): seq<Request> {
    if calls == [] then []
    else
      var last := calls[|calls| - 1];
      Requests(reg, role, calls[..|calls| - 1], now) +
      (if Parked(reg, role, last.tool) then [Request(last, now + ApprovalWindow)] else [])
  }

  // ---- the run loop ----------------------------------------------------------

  /** One provider turn: finish, fail, park the message, or start running its calls. */
  function DoTurn(reg: Registry, s: Sys, p: nat, turn: nat, calls: seq<Call>, cutOff: bool): Sys
    requires p in s.procs
  {
    var q := s.procs[p];
    if turn >= MaxSteps then Goto(s, p, Finishing(RunFailed))
    else if calls == [] then Goto(s, p, Finishing(Done))
    else if cutOff then Goto(s, p, Finishing(RunFailed))
    else
      var requests := Requests(reg, q.role, calls, s.now);
      if requests == [] then
        Goto(s, p, Dispatching(turn, s.st.nextId, calls, 0)).(st := s.st.(nextId := s.st.nextId + 1))
      else
        match Pause(s.st, q.user, q.role, q.run, calls, requests)
        case Failure(_) => Goto(s, p, Finishing(RunFailed))
        case Success(st) => Log(Drop(s, p).(st := st), ParkedEvent(q.run, s.st.nextId))
  }

  /** One call taken down the ordinary path; `after` is where the goroutine goes if it may go on. */
  function DoOrdinary(reg: Registry, s: Sys, p: nat, message: nat, call: Call, ok: bool, after: Pc): Sys
    requires p in s.procs
  {
    var q := s.procs[p];
    match OrdinaryRoute(reg, q.role, call.tool, call.arguments)
    case Fault => Goto(s, p, Finishing(RunFailed))
    case Refused => Goto(s, p, after)
    case Reach =>
      Log(Goto(s, p, if ok then after else Finishing(RunFailed)),
          DispatchedEvent(q.run, q.user, message, call.id, call.tool, call.arguments, None, s.now, s.now))
  }

  function DoLoad(s: Sys, p: nat, message: nat): Sys
    requires p in s.procs
  {
    match LoadBatch(s.st, s.procs[p].run, message)
    case Failure(_) => Goto(s, p, Finishing(RunFailed))
    case Success(batch) => Goto(s, p, Resuming(message, batch, 0))
  }

  /** The body of the resume loop up to the point where a tool runs or an outcome is known. */
  function DoResumeCall(reg: Registry, s: Sys, p: nat, message: nat, batch: seq<BatchCall>, i: nat, ok: bool): Sys
    requires p in s.procs && i < |batch|
  {
    match batch[i].action
    case None => DoOrdinary(reg, s, p, message, batch[i].call, ok, Resuming(message, batch, i + 1))
    case Some(linked) =>
      match linked.row.status
      case Executed => Goto(s, p, Resuming(message, batch, i + 1))
      case Failed => Goto(s, p, Resuming(message, batch, i + 1))
      case Approved =>
        if linked.row.expiresAt <= s.now then Goto(s, p, Settling(message, batch, i, Expired))
        else Goto(s, p, Cleared(message, batch, i, s.now))
      case Rejected => Goto(s, p, Resuming(message, batch, i + 1))
      case Expired => Goto(s, p, Resuming(message, batch, i + 1))
      case Pending => Goto(s, p, Finishing(RunFailed))
  }

  function DoRunApproved(reg: Registry, s: Sys, p: nat, message: nat, batch: seq<BatchCall>, i: nat, checkedAt: int, outcome: Outcome): Sys
    requires p in s.procs && i < |batch| && batch[i].action.Some?
  {
    var q, call, linked := s.procs[p], batch[i].call, batch[i].action.value;
    var args := linked.row.EffectiveArguments();
    match ApprovedRoute(reg, q.role, call.tool, args)
    case Fault => Goto(s, p, Finishing(RunFailed))
    case Refused => Goto(s, p, Settling(message, batch, i, Failed))
    case Reach =>
      var pc := match outcome
        case Ran => Settling(message, batch, i, Executed)
        case ReportedError => Settling(message, batch, i, Failed)
        case Crashed => Finishing(RunFailed);
      Log(Goto(s, p, pc), DispatchedEvent(q.run, q.user, message, call.id, call.tool, args, Some(linked.id), checkedAt, s.now))
  }

  function DoSettle(s: Sys, p: nat, message: nat, batch: seq<BatchCall>, i: nat, outcome: Status, ok: bool): Sys
    requires p in s.procs && i < |batch| && batch[i].action.Some?
  {
    var id := batch[i].action.value.id;
    if !ok || id !in s.st.actions || id !in s.st.audit then Goto(s, p, Finishing(RunFailed))
    else Goto(s, p, Resuming(message, batch, i + 1)).(st := RecordOutcome(s.st, id, outcome))
  }

  // ---- decisions -------------------------------------------------------------

  /** A committed transition: the decision is recorded, and a resume it claims becomes a goroutine, which may vanish before it does anything. */
  function DoTransition(s: Sys, user: nat, role: string, id: nat, verdict: Status, edited: Json, human: bool): Sys {
    match Transition(s.st, user, role, id, verdict, edited, human, s.now)
    case Failure(_) => s
    case Success((st, start)) =>
      if id !in st.actions then s
      else
        var a := st.actions[id];
        var s1 := Log(s.(st := st), DecidedEvent(id, a.status, a.decidedBy, a.call.tool, a.EffectiveArguments(), a.expiresAt, s.now));
        match start
        case None => s1
        case Some(h) =>
          Log(s1, ClaimedEvent(h.run, h.message)).(
            procs := s1.procs[s1.nextProc := Proc(h.run, h.user, h.role, Claimed(h.message))], nextProc := s1.nextProc + 1)
  }

  /** `Service.DecidePendingAction`: an approval is validated before it is stored. */
  function DoDecide(reg: Registry, s: Sys, user: nat, role: string, id: nat, approve: bool, edited: Json): Sys {
    if id !in s.st.actions || s.st.actions[id].creator != user || edited.Other? then s
    else
      var call := s.st.actions[id].call;
      if approve && !Valid(reg, role, call.tool, if edited.Absent? then call.arguments else edited) then s
      else DoTransition(s, user, role, id, if approve then Approved else Rejected, edited, true)
  }

  function DoSweep(s: Sys, id: nat): Sys {
    if id in s.st.actions && s.st.actions[id].status.Pending? && s.st.actions[id].expiresAt <= s.now
    then DoTransition(s, s.st.actions[id].creator, "", id, Expired, Absent, false)
    else s
  }

  function DoCancel(s: Sys, user: nat, run: nat): Sys {
    if s.st.actions.Keys != s.st.audit.Keys then s
    else
      match Cancel(s.st, user, run)
      case Failure(_) => s
      case Success(st) => s.(st := st)
  }

  function DoBegin(s: Sys, user: nat, role: string): Sys {
    s.(st := InsertRun(s.st, user),
       procs := s.procs[s.nextProc := Proc(s.st.nextId, user, role, Looping(0))], nextProc := s.nextProc + 1)
  }

  // ---- schedules -------------------------------------------------------------

  function ProcStep(reg: Registry, s: Sys, p: nat, step: Step): Sys
    requires p in s.procs
  {
    match (step, s.procs[p].pc)
    case (Turn(_, calls, cutOff), Looping(turn)) => if DistinctIds(calls) then DoTurn(reg, s, p, turn, calls, cutOff) else s
    case (Dispatch(_, ok), Dispatching(turn, m, calls, i)) =>
      if i < |calls| then DoOrdinary(reg, s, p, m, calls[i], ok, Dispatching(turn, m, calls, i + 1))
      else Goto(s, p, if ok then Looping(turn + 1) else Finishing(RunFailed))
    case (Load(_), Claimed(m)) => DoLoad(s, p, m)
    case (ResumeCall(_, ok), Resuming(m, batch, i)) => if i < |batch| then DoResumeCall(reg, s, p, m, batch, i, ok) else s
    case (RunApproved(_, outcome), Cleared(m, batch, i, t)) =>
      if i < |batch| && batch[i].action.Some? then DoRunApproved(reg, s, p, m, batch, i, t, outcome) else s
    case (Settle(_, ok), Settling(m, batch, i, outcome)) =>
      if i < |batch| && batch[i].action.Some? then DoSettle(s, p, m, batch, i, outcome, ok) else s
    case (CompleteBatch(_, ok), Resuming(m, batch, i)) =>
      if i == |batch| then Goto(s, p, if ok then Looping(0) else Finishing(RunFailed)) else s
    case (Abort(_, cancelled), pc) =>
      if pc.Finishing? then s else Goto(s, p, Finishing(if cancelled then Cancelled else RunFailed))
    case (EndRun(_), Finishing(status)) => Drop(s, p).(st := Finish(s.st, s.procs[p].run, status))
    case (Vanish(_), _) => Drop(s, p)
    case _ => s
  }

  function Apply(reg: Registry, s: Sys, step: Step): Sys {
    match step
    case Begin(user, role) => DoBegin(s, user, role)
    case Tick(seconds) => s.(now := s.now + seconds)
    case Decide(user, role, id, approve, edited) => DoDecide(reg, s, user, role, id, approve, edited)
    case Sweep(id) => DoSweep(s, id)
    case CancelRun(user, run) => DoCancel(s, user, run)
    case Restart => s.(st := Recover(s.st), procs := map[])
    case _ => if step.p in s.procs then ProcStep(reg, s, step.p, step) else s
  }

  /** The state a schedule reaches. */
  function Exec(reg: Registry, schedule: seq<Step>): Sys {
    if schedule == [] then Init else Apply(reg, Exec(reg, schedule[..|schedule| - 1]), schedule[|schedule| - 1])
  }
}
