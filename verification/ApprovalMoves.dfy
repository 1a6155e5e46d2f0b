/**
 Where each step leaves a goroutine and which call it runs, written down from the request that was
 made, the world's answer and the rows as they stood.
 */
module ApprovalMoves {
  import opened Wrappers
  import opened ToolGate
  import opened ApprovalStore
  import opened StoreInvariants
  import opened ApprovalProtocol
  import opened ApprovalSafety
  import opened ApprovalRows

  datatype Fate = Gone | On(pc: Pc)

  const Failing := On(Finishing(RunFailed))

  /** The ordinary path: a gated call is skipped with a refusal, and so is one whose arguments are no object. */
  predicate Reaches(reg: Registry, role: string, c: Call) {
    Visible(reg, role, c.tool) && !reg[c.tool].risk.NeedsApproval() && !c.arguments.Other?
  }

  /** A call nobody answers: its tool is unknown, or it needs no approval but is hidden from the actor. */
  predicate Unknown(reg: Registry, role: string, c: Call) {
    c.tool !in reg || (!reg[c.tool].risk.NeedsApproval() && !Visible(reg, role, c.tool))
  }

  /** After a call on the ordinary path: on to `next`, unless the call is unknown or its tool broke down. */
  function AfterCall(reg: Registry, role: string, c: Call, ok: bool, next: Pc): Fate {
    if Unknown(reg, role, c) || (Reaches(reg, role, c) && !ok) then Failing else On(next)
  }

  /** What the model said decides: an answer ends the run, gated calls park it, others are run. */
  ghost function AfterTurn(reg: Registry, s: Sys, step: Step, turn: nat): Fate
    requires step.Turn? && step.p in s.procs
  {
    if Repeats(step.calls) then On(s.procs[step.p].pc)
    else if turn >= 50 then Failing
    else if step.calls == [] then On(Finishing(Done))
    else if step.cutOff then Failing
    else if Parks(reg, s, step) then Gone
    else if exists k :: 0 <= k < |step.calls| && Gated(reg, s.procs[step.p].role, step.calls[k]) then Failing
    else On(Dispatching(turn, s.st.nextId, step.calls, 0))
  }

  /** Approved calls are checked against their deadline; calls decided otherwise are skipped. */
  function AfterCheck(m: nat, batch: seq<BatchCall>, i: nat, row: Action, now: int): Fate {
    if row.status.Pending? then Failing
    else if row.status.Approved? then On(if now < row.expiresAt then Cleared(m, batch, i, now) else Settling(m, batch, i, Expired))
    else On(Resuming(m, batch, i + 1))
  }

  /** The arguments an action runs with: what its decision put in, or what the model asked for. */
  function Arguments(x: Action): Json {
    match x.edited
    case Absent => x.call.arguments
    case given => given
  }

  /** The approved call can be run by this actor. */
  predicate Runnable(reg: Registry, role: string, c: Call, x: Action) {
    Visible(reg, role, c.tool) && Arguments(x).Object?
  }

  /** What the tool answered is the outcome to settle; a breakdown fails the run. */
  function AfterRun(reg: Registry, role: string, m: nat, batch: seq<BatchCall>, i: nat, outcome: Outcome): Fate
    requires i < |batch| && batch[i].action.Some?
  {
    if !Runnable(reg, role, batch[i].call, batch[i].action.value.row) then Failing
    else
      match outcome
      case Ran => On(Settling(m, batch, i, Executed))
      case ReportedError => On(Settling(m, batch, i, Failed))
      case Crashed => Failing
  }

  /** Every call of the message in order, with its action if it has one. */
  ghost predicate BatchFor(st: Store, run: nat, m: nat, batch: seq<BatchCall>) {
    && m in st.messages && |batch| == |st.messages[m].calls|
    && forall j {:trigger batch[j]} :: 0 <= j < |batch| ==> batch[j].call == st.messages[m].calls[j] && LinkFor(st, run, m, batch[j])
  }

  ghost predicate LinkFor(st: Store, run: nat, m: nat, b: BatchCall) {
    match b.action
    case Some(l) => Pairs(st, run, m, b.call.id, l.id) && l.row == st.actions[l.id]
    case None => forall a :: !Pairs(st, run, m, b.call.id, a)
  }

  predicate ByGoroutine(step: Step) {
    !step.Begin? && !step.Tick? && !step.Decide? && !step.Sweep? && !step.CancelRun? && !step.Restart?
  }

  /** Where p's own step takes it; loading finds the whole batch of the message. */
  ghost predicate OwnFate(reg: Registry, s: Sys, step: Step, p: nat, fate: Fate)
    requires p in s.procs && ByGoroutine(step) && step.p == p
  {
    var q := s.procs[p];
    match (step, q.pc)
    case (Turn(_, _, _), Looping(turn)) => fate == AfterTurn(reg, s, step, turn)
    case (Dispatch(_, ok), Dispatching(turn, m, calls, i)) =>
      fate == if i < |calls| then AfterCall(reg, q.role, calls[i], ok, Dispatching(turn, m, calls, i + 1))
              else if ok then On(Looping(turn + 1)) else Failing
    case (Load(_), Claimed(m)) => fate.On? && fate.pc.Resuming? && fate.pc.message == m && fate.pc.i == 0 && BatchFor(s.st, q.run, m, fate.pc.batch)
    case (ResumeCall(_, ok), Resuming(m, batch, i)) =>
      fate == if i >= |batch| then On(q.pc)
              else if batch[i].action.None? then AfterCall(reg, q.role, batch[i].call, ok, Resuming(m, batch, i + 1))
              else AfterCheck(m, batch, i, batch[i].action.value.row, s.now)
    case (RunApproved(_, outcome), Cleared(m, batch, i, _)) =>
      i < |batch| && batch[i].action.Some? && fate == AfterRun(reg, q.role, m, batch, i, outcome)
    case (Settle(_, ok), Settling(m, batch, i, _)) => fate == if ok then On(Resuming(m, batch, i + 1)) else Failing
    case (CompleteBatch(_, ok), Resuming(_, batch, i)) =>
      fate == if i < |batch| then On(q.pc) else if ok then On(Looping(0)) else Failing
    case (Abort(_, cancelled), pc) => fate == if pc.Finishing? then On(pc) else if cancelled then On(Finishing(Cancelled)) else Failing
    case (EndRun(_), Finishing(_)) => fate == Gone
    case (Vanish(_), _) => fate == Gone
    case (_, pc) => fate == On(pc)
  }

  function FateIn(s: Sys, p: nat): Fate {
    if p in s.procs then On(s.procs[p].pc) else Gone
  }

  // ---- the calls that are run -------------------------------------------------

  /** The one call this step runs, if it runs one. */
  function Runs(reg: Registry, s: Sys, step: Step): Option<Event> {
    if !ByGoroutine(step) || step.p !in s.procs then None
    else
      var q := s.procs[step.p];
      match (step, q.pc)
      case (Dispatch(_, _), Dispatching(_, m, calls, i)) =>
        if i < |calls| && Reaches(reg, q.role, calls[i]) then Some(OrdinaryRun(q, m, calls[i], s.now)) else None
      case (ResumeCall(_, _), Resuming(m, batch, i)) =>
        if i < |batch| && batch[i].action.None? && Reaches(reg, q.role, batch[i].call) then Some(OrdinaryRun(q, m, batch[i].call, s.now)) else None
      case (RunApproved(_, _), Cleared(m, batch, i, checkedAt)) =>
        if i < |batch| && batch[i].action.Some? && Runnable(reg, q.role, batch[i].call, batch[i].action.value.row)
        then Some(ApprovedRun(q, m, batch[i].call, batch[i].action.value, checkedAt, s.now)) else None
      case _ => None
  }

  function OrdinaryRun(q: Proc, m: nat, c: Call, now: int): Event {
    DispatchedEvent(q.run, q.user, m, c.id, c.tool, c.arguments, None, now, now)
  }

  function ApprovedRun(q: Proc, m: nat, c: Call, l: Linked, checkedAt: int, now: int): Event {
    DispatchedEvent(q.run, q.user, m, c.id, c.tool, Arguments(l.row), Some(l.id), checkedAt, now)
  }

  /** The log grew, and the dispatches among what it grew by are this one. */
  ghost predicate Logs(h: seq<Event>, h': seq<Event>, e: Option<Event>) {
    && |h| <= |h'| && h'[..|h|] == h
    && (e.Some? ==> h' == h + [e.value])
    && (e.None? ==> forall k :: |h| <= k < |h'| ==> !h'[k].DispatchedEvent?)
  }

  // ---- the steps follow it ---------------------------------------------------

  /** The two names of a gated call, and what the ordinary path does with any other. */
  lemma OrdinaryDoor(reg: Registry, role: string, c: Call)
    ensures var route := OrdinaryRoute(reg, role, c.tool, c.arguments);
            && (route.Fault? <==> Unknown(reg, role, c)) && (route.Reach? <==> Reaches(reg, role, c))
  {
  }

  lemma ApprovedDoor(reg: Registry, role: string, c: Call, x: Action)
    ensures var route := ApprovedRoute(reg, role, c.tool, x.EffectiveArguments());
            && x.EffectiveArguments() == Arguments(x)
            && (route.Reach? <==> Runnable(reg, role, c, x)) && (route.Fault? <==> !Runnable(reg, role, c, x))
  {
  }

  lemma OrdinaryMoves(reg: Registry, s: Sys, p: nat, m: nat, c: Call, ok: bool, next: Pc)
    requires p in s.procs
    ensures var q, s' := s.procs[p], DoOrdinary(reg, s, p, m, c, ok, next);
            && FateIn(s', p) == AfterCall(reg, q.role, c, ok, next)
            && Logs(s.history, s'.history, if Reaches(reg, q.role, c) then Some(OrdinaryRun(q, m, c, s.now)) else None)
  {
    OrdinaryDoor(reg, s.procs[p].role, c);
  }

  lemma TurnMoves(reg: Registry, s: Sys, step: Step)
    requires SysInv(reg, s) && step.Turn? && step.p in s.procs && s.procs[step.p].pc.Looping?
    ensures FateIn(Apply(reg, s, step), step.p) == AfterTurn(reg, s, step, s.procs[step.p].pc.turn)
    ensures Logs(s.history, Apply(reg, s, step).history, None)
  {
    var q := s.procs[step.p];
    if DistinctIds(step.calls) && q.pc.turn < 50 && step.calls != [] && !step.cutOff {
      PauseIsParking(reg, s, step);
      RequestsAreGated(reg, q.role, step.calls, s.now);
      var requests := Requests(reg, q.role, step.calls, s.now);
      if requests != [] { assert requests[0] in requests; }
    }
  }

  lemma LoadMoves(reg: Registry, s: Sys, p: nat)
    requires SysInv(reg, s) && p in s.procs && s.procs[p].pc.Claimed?
    ensures OwnFate(reg, s, Load(p), p, FateIn(Apply(reg, s, Load(p)), p))
    ensures Apply(reg, s, Load(p)).history == s.history
  {
    var run, m := s.procs[p].run, s.procs[p].pc.message;
    LoadKeeps(reg, s, p);
    var batch := LoadBatch(s.st, run, m).value;
    forall j | 0 <= j < |batch| ensures batch[j].call == s.st.messages[m].calls[j] && LinkFor(s.st, run, m, batch[j]) { }
  }

  lemma ResumeCallMoves(reg: Registry, s: Sys, p: nat, ok: bool)
    requires p in s.procs && s.procs[p].pc.Resuming?
    ensures OwnFate(reg, s, ResumeCall(p, ok), p, FateIn(Apply(reg, s, ResumeCall(p, ok)), p))
    ensures Logs(s.history, Apply(reg, s, ResumeCall(p, ok)).history, Runs(reg, s, ResumeCall(p, ok)))
  {
    var q, pc := s.procs[p], s.procs[p].pc;
    if pc.i < |pc.batch| && pc.batch[pc.i].action.None? {
      OrdinaryMoves(reg, s, p, pc.message, pc.batch[pc.i].call, ok, Resuming(pc.message, pc.batch, pc.i + 1));
    }
  }

  lemma RunApprovedMoves(reg: Registry, s: Sys, p: nat, outcome: Outcome)
    requires SysInv(reg, s) && p in s.procs && s.procs[p].pc.Cleared?
    ensures OwnFate(reg, s, RunApproved(p, outcome), p, FateIn(Apply(reg, s, RunApproved(p, outcome)), p))
    ensures Logs(s.history, Apply(reg, s, RunApproved(p, outcome)).history, Runs(reg, s, RunApproved(p, outcome)))
  {
    assert ProcOk(s, p);
    var q, pc := s.procs[p], s.procs[p].pc;
    ApprovedDoor(reg, q.role, pc.batch[pc.i].call, pc.batch[pc.i].action.value.row);
  }

  lemma SettleMoves(reg: Registry, s: Sys, p: nat, ok: bool)
    requires SysInv(reg, s) && p in s.procs && s.procs[p].pc.Settling?
    ensures OwnFate(reg, s, Settle(p, ok), p, FateIn(Apply(reg, s, Settle(p, ok)), p))
    ensures Apply(reg, s, Settle(p, ok)).history == s.history
  {
    SettlingIsApproved(reg, s, p);
    assert RowOk(s.st, s.procs[p].pc.batch[s.procs[p].pc.i].action.value.id);
  }

  lemma DispatchMoves(reg: Registry, s: Sys, p: nat, ok: bool)
    requires p in s.procs && s.procs[p].pc.Dispatching?
    ensures OwnFate(reg, s, Dispatch(p, ok), p, FateIn(Apply(reg, s, Dispatch(p, ok)), p))
    ensures Logs(s.history, Apply(reg, s, Dispatch(p, ok)).history, Runs(reg, s, Dispatch(p, ok)))
  {
    var pc := s.procs[p].pc;
    if pc.i < |pc.calls| { OrdinaryMoves(reg, s, p, pc.message, pc.calls[pc.i], ok, Dispatching(pc.turn, pc.message, pc.calls, pc.i + 1)); }
  }

  /** A step that does not meet its goroutine where it applies, or needs no rows to be understood. */
  lemma PlainMoves(reg: Registry, s: Sys, step: Step, p: nat)
    requires p in s.procs && ByGoroutine(step) && step.p == p
    requires !(step.Turn? && s.procs[p].pc.Looping?) && !(step.Dispatch? && s.procs[p].pc.Dispatching?) && !(step.Load? && s.procs[p].pc.Claimed?)
    requires !(step.ResumeCall? && s.procs[p].pc.Resuming?) && !(step.RunApproved? && s.procs[p].pc.Cleared?) && !(step.Settle? && s.procs[p].pc.Settling?)
    requires s.procs[p].pc.Resuming? ==> s.procs[p].pc.i <= |s.procs[p].pc.batch|
    ensures OwnFate(reg, s, step, p, FateIn(Apply(reg, s, step), p))
    ensures Apply(reg, s, step).history == s.history && Runs(reg, s, step).None?
  {
  }

  lemma LoopMoves(reg: Registry, s: Sys, step: Step)
    requires SysInv(reg, s) && ByGoroutine(step) && step.p in s.procs
    requires (step.Turn? && s.procs[step.p].pc.Looping?) || (step.Dispatch? && s.procs[step.p].pc.Dispatching?)
    ensures OwnFate(reg, s, step, step.p, FateIn(Apply(reg, s, step), step.p))
    ensures Logs(s.history, Apply(reg, s, step).history, Runs(reg, s, step))
  {
    if step.Turn? { TurnMoves(reg, s, step); } else { DispatchMoves(reg, s, step.p, step.ok); }
  }

  predicate OfResume(step: Step, pc: Pc) {
    || (step.Load? && pc.Claimed?) || (step.ResumeCall? && pc.Resuming?)
    || (step.RunApproved? && pc.Cleared?) || (step.Settle? && pc.Settling?)
  }

  lemma ResumeMoves(reg: Registry, s: Sys, step: Step)
    requires SysInv(reg, s) && ByGoroutine(step) && step.p in s.procs && OfResume(step, s.procs[step.p].pc)
    ensures OwnFate(reg, s, step, step.p, FateIn(Apply(reg, s, step), step.p))
    ensures Logs(s.history, Apply(reg, s, step).history, Runs(reg, s, step))
  {
    if step.Load? { LoadMoves(reg, s, step.p); }
    else if step.ResumeCall? { ResumeCallMoves(reg, s, step.p, step.ok); }
    else if step.RunApproved? { RunApprovedMoves(reg, s, step.p, step.outcome); }
    else { SettleMoves(reg, s, step.p, step.ok); }
  }

  /** Every step of a goroutine takes it where the reference says. */
  lemma FateFollows(reg: Registry, s: Sys, step: Step)
    requires SysInv(reg, s) && ByGoroutine(step) && step.p in s.procs
    ensures OwnFate(reg, s, step, step.p, FateIn(Apply(reg, s, step), step.p))
    ensures Logs(s.history, Apply(reg, s, step).history, Runs(reg, s, step))
  {
    var pc := s.procs[step.p].pc;
    if (step.Turn? && pc.Looping?) || (step.Dispatch? && pc.Dispatching?) {
      LoopMoves(reg, s, step);
    } else if OfResume(step, pc) {
      ResumeMoves(reg, s, step);
    } else {
      assert ProcOk(s, step.p);
      PlainMoves(reg, s, step, step.p);
    }
  }

  // ---- who else moves ---------------------------------------------------------

  ghost predicate Unmoved(s: Sys, s': Sys, p: nat) {
    p in s.procs ==> p in s'.procs && s'.procs[p] == s.procs[p]
  }

  lemma TransitionUnmoved(s: Sys, user: nat, role: string, id: nat, verdict: Status, edited: Json, human: bool, p: nat)
    requires p < s.nextProc
    ensures Unmoved(s, DoTransition(s, user, role, id, verdict, edited, human), p)
  {
  }

  lemma ProcStepUnmoved(reg: Registry, s: Sys, q: nat, step: Step, p: nat)
    requires q in s.procs && q != p
    ensures Unmoved(s, ProcStep(reg, s, q, step), p)
  {
  }

  /** A goroutine is moved by its own steps only, and by the end of its process. */
  lemma OthersUnmoved(reg: Registry, s: Sys, step: Step, p: nat)
    requires SysInv(reg, s) && p in s.procs && !step.Restart? && (ByGoroutine(step) ==> step.p != p)
    ensures Unmoved(s, Apply(reg, s, step), p)
  {
    assert ProcOk(s, p);
    if step.Decide? {
      TransitionUnmoved(s, step.user, step.role, step.id, if step.approve then Approved else Rejected, step.edited, true, p);
    } else if step.Sweep? {
      if step.id in s.st.actions { TransitionUnmoved(s, s.st.actions[step.id].creator, "", step.id, Expired, Absent, false, p); }
    } else if ByGoroutine(step) && step.p in s.procs {
      ProcStepUnmoved(reg, s, step.p, step, p);
    }
  }

  /** A goroutine's own step changes neither the run it works for nor whom it acts as. */
  lemma OwnIdentity(reg: Registry, s: Sys, step: Step)
    requires ByGoroutine(step) && step.p in s.procs
    ensures var s' := Apply(reg, s, step);
            && s'.procs.Keys <= s.procs.Keys && s'.nextProc == s.nextProc
            && (step.p in s'.procs ==> s'.procs[step.p] == s.procs[step.p].(pc := s'.procs[step.p].pc))
  {
  }

  lemma TransitionRunsNothing(s: Sys, user: nat, role: string, id: nat, verdict: Status, edited: Json, human: bool)
    ensures Logs(s.history, DoTransition(s, user, role, id, verdict, edited, human).history, None)
  {
  }

  /** Nothing but a goroutine's step runs a call. */
  lemma OthersRunNothing(reg: Registry, s: Sys, step: Step)
    requires !ByGoroutine(step) || step.p !in s.procs
    ensures Runs(reg, s, step).None? && Logs(s.history, Apply(reg, s, step).history, None)
  {
    match step
    case Decide(user, role, id, approve, edited) => TransitionRunsNothing(s, user, role, id, if approve then Approved else Rejected, edited, true);
    case Sweep(id) => if id in s.st.actions { TransitionRunsNothing(s, s.st.actions[id].creator, "", id, Expired, Absent, false); }
    case _ =>
  }

  /** The calls a step runs are those the reference says. */
  lemma LogFollows(reg: Registry, s: Sys, step: Step)
    requires SysInv(reg, s)
    ensures Logs(s.history, Apply(reg, s, step).history, Runs(reg, s, step))
  {
    if ByGoroutine(step) && step.p in s.procs { FateFollows(reg, s, step); } else { OthersRunNothing(reg, s, step); }
  }

  // ---- which goroutines appear ------------------------------------------------

  /** Deciding or expiring a settles the last pending action of its run. */
  ghost predicate Releases(reg: Registry, s: Sys, step: Step, a: nat) {
    && (Overtakes(reg, s, step, a) || Decides(reg, s, step, a))
    && forall b :: b in s.st.actions && s.st.actions[b].run == s.st.actions[a].run && s.st.actions[b].status.Pending? ==> b == a
  }

  /** The goroutine that takes up a released run: it acts as the action's creator, in the role the row has by then. */
  ghost function Resumer(reg: Registry, s: Sys, step: Step, a: nat): Proc
    requires a in s.st.actions
  {
    var x := s.st.actions[a];
    Proc(x.run, x.creator, NextRow(reg, s, step, a).role, Claimed(x.message))
  }

  lemma ReleaseIs(st: Store, id: nat, x': Action)
    requires id in st.actions && id in st.audit && st.actions[id].status.Pending? && !x'.status.Pending? && x'.run == st.actions[id].run
    ensures AwaitsDecision(WithAction(st, id, x', Became(x'.status)), x'.run) <==>
            exists b :: b in st.actions && st.actions[b].run == x'.run && st.actions[b].status.Pending? && b != id
  {
    var st' := WithAction(st, id, x', Became(x'.status));
    if AwaitsDecision(st', x'.run) {
      var b :| b in st'.actions && st'.actions[b].run == x'.run && st'.actions[b].status.Pending?;
      assert b in st.actions && b != id;
    }
    forall b | b in st.actions && st.actions[b].run == x'.run && st.actions[b].status.Pending? && b != id ensures AwaitsDecision(st', x'.run) {
      assert b in st'.actions && st'.actions[b] == st.actions[b];
    }
  }

  /** A transition that goes through, as goroutines see it: it starts one if it lets the run go. */
  lemma TransitionStarts(s: Sys, user: nat, role: string, id: nat, verdict: Status, edited: Json, human: bool)
    requires id in s.st.actions && id in s.st.audit && s.st.actions[id].status.Pending? && s.st.actions[id].creator == user && !edited.Other?
    ensures var s', x' := DoTransition(s, user, role, id, verdict, edited, human), Decided(s.st.actions[id], user, role, verdict, edited, human, s.now);
            var go := LetGo(WithAction(s.st, id, x', Became(x'.status)), x').1.Some?;
            && s'.procs == (if go then s.procs[s.nextProc := Proc(x'.run, x'.creator, x'.role, Claimed(x'.message))] else s.procs)
            && s'.nextProc == (if go then s.nextProc + 1 else s.nextProc)
            && s'.st.runs == LetGo(WithAction(s.st, id, x', Became(x'.status)), x').0.runs
  {
  }

  lemma DecidedKeeps(x: Action, user: nat, role: string, verdict: Status, edited: Json, human: bool, now: int)
    requires Decision(verdict)
    ensures var x' := Decided(x, user, role, verdict, edited, human, now);
            x'.run == x.run && x'.creator == x.creator && x'.message == x.message && !x'.status.Pending?
  {
  }

  /** A transition that goes through releases the run exactly when nothing else of it is pending. */
  lemma TransitionReleases(reg: Registry, s: Sys, user: nat, role: string, id: nat, verdict: Status, edited: Json, human: bool)
    requires SysInv(reg, s) && id in s.st.actions && s.st.actions[id].status.Pending? && s.st.actions[id].creator == user && !edited.Other?
    requires Decision(verdict)
    ensures var s', x := DoTransition(s, user, role, id, verdict, edited, human), s.st.actions[id];
            var alone := forall b :: b in s.st.actions && s.st.actions[b].run == x.run && s.st.actions[b].status.Pending? ==> b == id;
            && x.run in s.st.runs
            && s'.procs == (if alone then s.procs[s.nextProc := Proc(x.run, x.creator, Decided(x, user, role, verdict, edited, human, s.now).role, Claimed(x.message))] else s.procs)
            && s'.nextProc == (if alone then s.nextProc + 1 else s.nextProc)
            && s'.st.runs == if alone then s.st.runs[x.run := Run(s.st.runs[x.run].owner, Running)] else s.st.runs
  {
    var x := s.st.actions[id];
    var x' := Decided(x, user, role, verdict, edited, human, s.now);
    assert RowOk(s.st, id);
    PendingIsPaused(s.st, id);
    DecidedKeeps(x, user, role, verdict, edited, human, s.now);
    TransitionStarts(s, user, role, id, verdict, edited, human);
    ReleaseIs(s.st, id, x');
  }

  /** Goroutines and runs after a decision or a sweep. */
  ghost predicate ReleasedAs(reg: Registry, s: Sys, step: Step, s': Sys)
    requires step.Decide? || step.Sweep?
  {
    if Releases(reg, s, step, step.id) then
      var x := s.st.actions[step.id];
      && x.run in s.st.runs && s'.st.runs == s.st.runs[x.run := Run(s.st.runs[x.run].owner, Running)]
      && s'.procs == s.procs[s.nextProc := Resumer(reg, s, step, step.id)] && s'.nextProc == s.nextProc + 1
    else s'.procs == s.procs && s'.nextProc == s.nextProc && s'.st.runs == s.st.runs
  }

  lemma DecideReleases(reg: Registry, s: Sys, step: Step)
    requires SysInv(reg, s) && step.Decide?
    ensures ReleasedAs(reg, s, step, Apply(reg, s, step))
  {
    if step.id in s.st.actions { assert RowOk(s.st, step.id); }
    DecideHeard(reg, s, step);
    if Decides(reg, s, step, step.id) {
      TransitionReleases(reg, s, step.user, step.role, step.id, if step.approve then Approved else Rejected, step.edited, true);
    }
  }

  lemma SweepReleases(reg: Registry, s: Sys, step: Step)
    requires SysInv(reg, s) && step.Sweep?
    ensures ReleasedAs(reg, s, step, Apply(reg, s, step))
  {
    if Overtakes(reg, s, step, step.id) {
      TransitionReleases(reg, s, s.st.actions[step.id].creator, "", step.id, Expired, Absent, false);
    }
  }

  // ---- what becomes of a run --------------------------------------------------

  /** The owner cancels the run while it is paused. */
  predicate Cancels(s: Sys, step: Step, r: nat) {
    step.CancelRun? && step.run == r && r in s.st.runs && s.st.runs[r] == Run(step.user, PausedApproval)
  }

  /** Its goroutine reports its end. */
  predicate Ends(s: Sys, step: Step, r: nat) {
    step.EndRun? && step.p in s.procs && s.procs[step.p].run == r && s.procs[step.p].pc.Finishing?
  }

  ghost function NextStatus(reg: Registry, s: Sys, step: Step, r: nat): RunStatus
    requires r in s.st.runs
  {
    if Parks(reg, s, step) && s.procs[step.p].run == r then PausedApproval
    else if (step.Decide? || step.Sweep?) && Releases(reg, s, step, step.id) && s.st.actions[step.id].run == r then Running
    else if Cancels(s, step, r) then Cancelled
    else if Ends(s, step, r) then s.procs[step.p].pc.status
    else if step.Restart? && s.st.runs[r].status.Running? then RunFailed
    else s.st.runs[r].status
  }

  ghost predicate StatusFollows(reg: Registry, s: Sys, step: Step, r: nat)
    requires r in s.st.runs
  {
    r in Apply(reg, s, step).st.runs && Apply(reg, s, step).st.runs[r] == Run(s.st.runs[r].owner, NextStatus(reg, s, step, r))
  }

  lemma CancelStatus(reg: Registry, s: Sys, step: Step, r: nat)
    requires SysInv(reg, s) && r in s.st.runs && step.CancelRun?
    ensures StatusFollows(reg, s, step, r)
  {
  }

  lemma EndStatus(reg: Registry, s: Sys, step: Step, r: nat)
    requires SysInv(reg, s) && r in s.st.runs && step.EndRun?
    ensures StatusFollows(reg, s, step, r)
  {
    if step.p in s.procs { assert ProcOk(s, step.p); }
  }

  lemma TurnStatus(reg: Registry, s: Sys, step: Step, r: nat)
    requires SysInv(reg, s) && r in s.st.runs && step.Turn?
    ensures StatusFollows(reg, s, step, r)
  {
    if Parks(reg, s, step) {
      ParkingTurn(reg, s, step);
    } else if step.p in s.procs && s.procs[step.p].pc.Looping? && DistinctIds(step.calls) && !step.cutOff && s.procs[step.p].pc.turn < 50 {
      PauseIsParking(reg, s, step);
    }
  }

  /** No other step touches the run table. */
  lemma OtherStatus(reg: Registry, s: Sys, step: Step)
    requires !step.Turn? && !step.EndRun? && !step.CancelRun? && !step.Decide? && !step.Sweep? && !step.Restart? && !step.Begin?
    ensures Apply(reg, s, step).st.runs == s.st.runs
  {
  }

  /** A restart fails what was running, and a beginning adds a run. */
  lemma FreshStatus(reg: Registry, s: Sys, step: Step, r: nat)
    requires SysInv(reg, s) && r in s.st.runs && (step.Restart? || step.Begin?)
    ensures StatusFollows(reg, s, step, r)
  {
    assert RunOk(s.st, r);
  }

  lemma ReleaseStatus(reg: Registry, s: Sys, step: Step, r: nat)
    requires SysInv(reg, s) && r in s.st.runs && (step.Decide? || step.Sweep?)
    ensures StatusFollows(reg, s, step, r)
  {
    assert RunOk(s.st, r);
    if step.Decide? { DecideReleases(reg, s, step); } else { SweepReleases(reg, s, step); }
  }

  lemma QuietStatus(reg: Registry, s: Sys, step: Step, r: nat)
    requires r in s.st.runs
    requires !step.Turn? && !step.EndRun? && !step.CancelRun? && !step.Decide? && !step.Sweep? && !step.Restart? && !step.Begin?
    ensures StatusFollows(reg, s, step, r)
  {
    OtherStatus(reg, s, step);
  }

  /** Every step leaves every run as the reference says. */
  lemma RunFollows(reg: Registry, s: Sys, step: Step, r: nat)
    requires SysInv(reg, s) && r in s.st.runs
    ensures StatusFollows(reg, s, step, r)
  {
    match step
    case Turn(_, _, _) => TurnStatus(reg, s, step, r);
    case EndRun(_) => EndStatus(reg, s, step, r);
    case CancelRun(_, _) => CancelStatus(reg, s, step, r);
    case Decide(_, _, _, _, _) => ReleaseStatus(reg, s, step, r);
    case Sweep(_) => ReleaseStatus(reg, s, step, r);
    case Restart => FreshStatus(reg, s, step, r);
    case Begin(_, _) => FreshStatus(reg, s, step, r);
    case _ => QuietStatus(reg, s, step, r);
  }

  /** A run that is over stays as it ended. */
  lemma OverIsOver(reg: Registry, s: Sys, step: Step, r: nat)
    requires SysInv(reg, s) && r in s.st.runs && !s.st.runs[r].status.Live()
    ensures r in Apply(reg, s, step).st.runs && Apply(reg, s, step).st.runs[r] == s.st.runs[r]
  {
    RunFollows(reg, s, step, r);
    if step.Turn? || step.EndRun? {
      if step.p in s.procs { assert ProcOk(s, step.p); }
    } else if step.Decide? || step.Sweep? {
      if step.id in s.st.actions { PendingIsPaused(s.st, step.id); }
    }
  }
}
