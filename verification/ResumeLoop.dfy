/**
 The resume loop of the runtime as it runs, against the real tables, one call at a time, with any
 steps of other goroutines between its own. Every execution of it is a run of the approval
 protocol, so the protocol's promises hold of it.
 */
module ResumeLoop {
  import opened Wrappers
  import opened ToolGate
  import opened ApprovalStore
  import opened StoreInvariants
  import opened ApprovalTables
  import opened ApprovalProtocol
  import opened ApprovalSafety
  import opened ApprovalTheorems
  import opened ApprovalRuns
  import opened ApprovalMoves
  import opened ApprovalLedger
  import opened ApprovalProgress

  /** What the world does to one call: the tool answers, and the store write goes through or not. */
  datatype World = World(outcome: Outcome, settles: bool)

  /** The goroutine that runs the loop. */
  datatype Worker = Worker(run: nat, user: nat, role: string, message: nat)

  /** The tables are those of the system, and goroutine p of this worker is at pc. */
  ghost predicate Tracks(reg: Registry, store: PgStore, s: Sys, p: nat, w: Worker, pc: Pc)
    reads store
  {
    Reachable(reg, s) && store.State() == s.st && At(s, p, w, pc)
  }

  ghost predicate At(s: Sys, p: nat, w: Worker, pc: Pc) {
    p in s.procs && s.procs[p] == Proc(w.run, w.user, w.role, pc)
  }

  // ---- what the loop itself ran ----------------------------------------------

  /** The dispatches of one run. */
  ghost function Ours(h: seq<Event>, run: nat): seq<Event> {
    if h == [] then []
    else
      var e := h[|h| - 1];
      Ours(h[..|h| - 1], run) + (if e.DispatchedEvent? && e.run == run then [e] else [])
  }

  lemma OursAppend(h: seq<Event>, e: Event, run: nat)
    ensures Ours(h + [e], run) == Ours(h, run) + if e.DispatchedEvent? && e.run == run then [e] else []
  {
    assert (h + [e])[..|h|] == h;
  }

  /** Events that are no dispatch of the run. */
  ghost predicate Silent(h: seq<Event>, h': seq<Event>, run: nat) {
    && |h| <= |h'| && h'[..|h|] == h
    && forall k :: |h| <= k < |h'| ==> !h'[k].DispatchedEvent? || h'[k].run != run
  }

  lemma {:induction false} OursSilent(h: seq<Event>, h': seq<Event>, run: nat)
    requires Silent(h, h', run)
    ensures Ours(h', run) == Ours(h, run)
    decreases |h'|
  {
    if |h'| > |h| {
      var front := h'[..|h'| - 1];
      assert front[..|h|] == h;
      OursSilent(h, front, run);
    } else {
      assert h' == h;
    }
  }

  lemma StepSilent(reg: Registry, s: Sys, step: Step, p: nat)
    requires SysInv(reg, s) && p in s.procs && Spares(step, {p})
    ensures Silent(s.history, Apply(reg, s, step).history, s.procs[p].run)
  {
    LogFollows(reg, s, step);
    if Runs(reg, s, step).Some? { assert Apart(s, p, step.p); }
  }

  /** Others run no call of the run that p holds. */
  lemma {:induction false} StepsSilent(reg: Registry, s: Sys, steps: seq<Step>, p: nat)
    requires Reachable(reg, s) && p in s.procs && Foreign(steps, {p})
    ensures Ours(From(reg, s, steps).history, s.procs[p].run) == Ours(s.history, s.procs[p].run)
  {
    if steps != [] {
      var front := steps[..|steps| - 1];
      StepsSilent(reg, s, front, p);
      ReachedInv(reg, s);
      SparedSteps(reg, s, front, {p});
      assert p in {p};
      StepSilent(reg, From(reg, s, front), steps[|steps| - 1], p);
      OursSilent(From(reg, s, front).history, From(reg, s, steps).history, s.procs[p].run);
    }
  }

  // ---- what becomes of the rows ------------------------------------------------

  /** Others touch no row of the run that p holds. */
  lemma {:induction false} StepsKeepRows(reg: Registry, s: Sys, steps: seq<Step>, p: nat)
    requires Reachable(reg, s) && p in s.procs && Foreign(steps, {p})
    ensures SameActions(s.st, From(reg, s, steps).st, s.procs[p].run)
  {
    if steps != [] {
      var front := steps[..|steps| - 1];
      StepsKeepRows(reg, s, front, p);
      ReachedInv(reg, s);
      SparedSteps(reg, s, front, {p});
      assert p in {p};
      RunningRowsStay(reg, From(reg, s, front), steps[|steps| - 1], p);
      SameTwice(s.st, From(reg, s, front).st, From(reg, s, steps).st, s.procs[p].run);
    }
  }

  lemma SameTwice(st: Store, st1: Store, st2: Store, run: nat)
    requires SameActions(st, st1, run) && SameActions(st1, st2, run)
    ensures SameActions(st, st2, run)
  {
    forall a | a in st.actions && st.actions[a].run == run ensures a in st2.actions && st2.actions[a] == st.actions[a] {
      assert a in st1.actions;
    }
  }

  /** All rows of the run but this one are as they were. */
  ghost predicate RowsBut(st: Store, st': Store, run: nat, id: nat) {
    forall a {:trigger st'.actions[a]} {:trigger a in st.actions} :: a in st.actions && st.actions[a].run == run && a != id ==> a in st'.actions && st'.actions[a] == st.actions[a]
  }

  /**
   What the loop makes of an action's row: one that was approved ends executed if its tool ran
   without error, failed if it reported one, and expired only if its deadline has come; any other
   is left alone.
   */
  ghost predicate RowAfter(x: Action, y: Action, now: int, outcome: Outcome) {
    if !x.status.Approved? then y == x
    else
      && y == x.(status := y.status)
      && match y.status
         case Executed => outcome == Ran
         case Failed => outcome == ReportedError
         case Expired => x.expiresAt <= now
         case _ => false
  }

  /** The actions of the first n calls are dealt with, the others as they were loaded. */
  ghost predicate Dealt(st: Store, now: int, batch: seq<BatchCall>, world: nat -> World, n: nat) {
    forall j {:trigger batch[j]} :: 0 <= j < |batch| && batch[j].action.Some? ==>
      var l := batch[j].action.value;
      l.id in st.actions && if j < n then RowAfter(l.row, st.actions[l.id], now, world(j).outcome) else st.actions[l.id] == l.row
  }

  /** The call ran: it may run without an approval, or its action says that its tool answered. */
  ghost predicate HasRun(reg: Registry, role: string, st: Store, b: BatchCall) {
    match b.action
    case None => Reaches(reg, role, b.call)
    case Some(l) => l.id in st.actions && (st.actions[l.id].status.Executed? || st.actions[l.id].status.Failed?)
  }

  /** The ids of those of the first n calls that ran, in order. */
  ghost function RanIds(reg: Registry, role: string, st: Store, batch: seq<BatchCall>, n: nat): seq<string>
    requires n <= |batch|
  {
    if n == 0 then []
    else RanIds(reg, role, st, batch, n - 1) + if HasRun(reg, role, st, batch[n - 1]) then [batch[n - 1].call.id] else []
  }

  ghost function Ids(log: seq<Event>): seq<string>
    requires forall e :: e in log ==> e.DispatchedEvent?
  {
    seq(|log|, k requires 0 <= k < |log| => log[k].call)
  }

  ghost predicate AllDispatches(log: seq<Event>) {
    forall e :: e in log ==> e.DispatchedEvent?
  }

  lemma {:induction false} RanSame(reg: Registry, role: string, st: Store, st': Store, batch: seq<BatchCall>, n: nat)
    requires n <= |batch|
    requires forall j {:trigger batch[j]} :: 0 <= j < n && batch[j].action.Some? ==>
               var id := batch[j].action.value.id; id in st.actions && id in st'.actions && st'.actions[id] == st.actions[id]
    ensures RanIds(reg, role, st', batch, n) == RanIds(reg, role, st, batch, n)
  {
    if n > 0 { RanSame(reg, role, st, st', batch, n - 1); }
  }

  /** Something goes wrong with the call: its tool is hidden from the actor or breaks down, or its outcome cannot be written. */
  predicate Trouble(reg: Registry, role: string, b: BatchCall, world: World) {
    !Visible(reg, role, b.call.tool) || world.outcome.Crashed? || !world.settles
  }

  // ---- the loop's own steps --------------------------------------------------

  /** p moved to pc and logged these events; the tables are these. */
  ghost predicate Stepped(s: Sys, s': Sys, p: nat, w: Worker, pc: Pc, st: Store, log: seq<Event>) {
    s'.st == st && s'.now == s.now && s'.history == s.history + log && At(s', p, w, pc)
  }

  lemma LoadSteps(reg: Registry, s: Sys, p: nat, w: Worker)
    requires At(s, p, w, Claimed(w.message))
    ensures var r := LoadBatch(s.st, w.run, w.message);
            Stepped(s, Apply(reg, s, Load(p)), p, w, if r.Failure? then Finishing(RunFailed) else Resuming(w.message, r.value, 0), s.st, [])
  {
  }

  /** What a call without an action logs on the ordinary path. */
  function OrdinaryLog(route: Route, w: Worker, call: Call, now: int): seq<Event> {
    if route.Reach? then [DispatchedEvent(w.run, w.user, w.message, call.id, call.tool, call.arguments, None, now, now)] else []
  }

  lemma OrdinarySteps(reg: Registry, s: Sys, p: nat, w: Worker, batch: seq<BatchCall>, i: nat, ok: bool)
    requires i < |batch| && batch[i].action.None? && At(s, p, w, Resuming(w.message, batch, i))
    ensures var call := batch[i].call;
            var route := OrdinaryRoute(reg, w.role, call.tool, call.arguments);
            Stepped(s, Apply(reg, s, ResumeCall(p, ok)), p, w,
                    if route.Fault? || (route.Reach? && !ok) then Finishing(RunFailed) else Resuming(w.message, batch, i + 1),
                    s.st, OrdinaryLog(route, w, call, s.now))
  {
  }

  /** A call with an action goes where the action's status sends it. */
  function AfterStatus(w: Worker, batch: seq<BatchCall>, i: nat, row: Action, now: int): Pc {
    match row.status
    case Pending => Finishing(RunFailed)
    case Approved => if row.expiresAt <= now then Settling(w.message, batch, i, Expired) else Cleared(w.message, batch, i, now)
    case _ => Resuming(w.message, batch, i + 1)
  }

  lemma StatusSteps(reg: Registry, s: Sys, p: nat, w: Worker, batch: seq<BatchCall>, i: nat, ok: bool)
    requires i < |batch| && batch[i].action.Some? && At(s, p, w, Resuming(w.message, batch, i))
    ensures Stepped(s, Apply(reg, s, ResumeCall(p, ok)), p, w, AfterStatus(w, batch, i, batch[i].action.value.row, s.now), s.st, [])
  {
  }

  /** What running a cleared call comes to: an outcome to settle, or a failed run. */
  function Answer(reg: Registry, w: Worker, call: Call, args: Json, outcome: Outcome): Option<Status> {
    match ApprovedRoute(reg, w.role, call.tool, args)
    case Fault => None
    case Refused => Some(Failed)
    case Reach => match outcome case Ran => Some(Executed) case ReportedError => Some(Failed) case Crashed => None
  }

  function ApprovedLog(reg: Registry, w: Worker, call: Call, linked: Linked, checkedAt: int, now: int): seq<Event> {
    var args := linked.row.EffectiveArguments();
    if ApprovedRoute(reg, w.role, call.tool, args).Reach?
    then [DispatchedEvent(w.run, w.user, w.message, call.id, call.tool, args, Some(linked.id), checkedAt, now)] else []
  }

  lemma RunSteps(reg: Registry, s: Sys, p: nat, w: Worker, batch: seq<BatchCall>, i: nat, checkedAt: int, outcome: Outcome)
    requires i < |batch| && batch[i].action.Some? && At(s, p, w, Cleared(w.message, batch, i, checkedAt))
    ensures var call, linked := batch[i].call, batch[i].action.value;
            var answer := Answer(reg, w, call, linked.row.EffectiveArguments(), outcome);
            Stepped(s, Apply(reg, s, RunApproved(p, outcome)), p, w,
                    if answer.None? then Finishing(RunFailed) else Settling(w.message, batch, i, answer.value),
                    s.st, ApprovedLog(reg, w, call, linked, checkedAt, s.now))
  {
  }

  lemma SettleSteps(reg: Registry, s: Sys, p: nat, w: Worker, batch: seq<BatchCall>, i: nat, outcome: Status, ok: bool)
    requires i < |batch| && batch[i].action.Some? && At(s, p, w, Settling(w.message, batch, i, outcome))
    ensures var id := batch[i].action.value.id;
            var hit := ok && id in s.st.actions && id in s.st.audit;
            Stepped(s, Apply(reg, s, Settle(p, ok)), p, w, if hit then Resuming(w.message, batch, i + 1) else Finishing(RunFailed),
                    if hit then RecordOutcome(s.st, id, outcome) else s.st, [])
  {
  }

  lemma CompleteSteps(reg: Registry, s: Sys, p: nat, w: Worker, batch: seq<BatchCall>, ok: bool)
    requires At(s, p, w, Resuming(w.message, batch, |batch|))
    ensures Stepped(s, Apply(reg, s, CompleteBatch(p, ok)), p, w, if ok then Looping(0) else Finishing(RunFailed), s.st, [])
  {
  }

  // ---- the loop --------------------------------------------------------------

  /** From s0 the loop has come to s by a schedule in which it ran exactly the calls it logged. */
  ghost predicate Came(reg: Registry, s0: Sys, schedule: seq<Step>, s: Sys, run: nat, log: seq<Event>) {
    Led(reg, s0, schedule, s) && Ours(s.history, run) == Ours(s0.history, run) + log
  }

  lemma CameOn(reg: Registry, s0: Sys, schedule: seq<Step>, s: Sys, steps: seq<Step>, p: nat, log: seq<Event>)
    requires Reachable(reg, s) && p in s.procs && Foreign(steps, {p}) && Came(reg, s0, schedule, s, s.procs[p].run, log)
    ensures Came(reg, s0, schedule + steps, From(reg, s, steps), s.procs[p].run, log)
  {
    LedOn(reg, s0, schedule, s, steps);
    StepsSilent(reg, s, steps, p);
  }

  /** One dispatch of the run, or nothing. */
  ghost predicate OneOfRun(more: seq<Event>, run: nat) {
    more == [] || (|more| == 1 && more[0].DispatchedEvent? && more[0].run == run)
  }

  lemma OursGrows(h: seq<Event>, more: seq<Event>, run: nat)
    requires OneOfRun(more, run)
    ensures Ours(h + more, run) == Ours(h, run) + more
  {
    if more == [] {
      assert h + more == h && Ours(h, run) + more == Ours(h, run);
    } else {
      assert more == [more[0]];
      OursAppend(h, more[0], run);
    }
  }

  lemma CameBy(reg: Registry, s0: Sys, schedule: seq<Step>, s: Sys, step: Step, run: nat, log: seq<Event>, more: seq<Event>)
    requires Came(reg, s0, schedule, s, run, log) && Apply(reg, s, step).history == s.history + more && OneOfRun(more, run)
    ensures Came(reg, s0, schedule + [step], Apply(reg, s, step), run, log + more)
  {
    LedBy(reg, s0, schedule, s, step);
    OursGrows(s.history, more, run);
    Regroup(Ours(s0.history, run), log, more);
  }

  lemma Regroup(a: seq<Event>, b: seq<Event>, c: seq<Event>)
    ensures a + (b + c) == (a + b) + c
  {
  }

  /** The others leave the rows of the run as they were, and do not turn the clock back. */
  ghost predicate Waited(s: Sys, s': Sys, run: nat) {
    SameActions(s.st, s'.st, run) && s.now <= s'.now
  }

  /** While p waits, the others take these steps. */
  method Meanwhile(reg: Registry, store: PgStore, s: Sys, p: nat, ghost w: Worker, ghost pc: Pc, steps: seq<Step>) returns (s': Sys)
    requires Tracks(reg, store, s, p, w, pc) && Foreign(steps, {p})
    modifies store
    ensures s' == From(reg, s, steps) && Tracks(reg, store, s', p, w, pc) && Waited(s, s', w.run)
  {
    ReachedInv(reg, s);
    SparedSteps(reg, s, steps, {p});
    StepsKeepRows(reg, s, steps, p);
    assert p in {p};
    StaysReachable(reg, s, steps);
    s' := From(reg, s, steps);
    store.Commit(s'.st);
  }

  /** The log gained this call, or nothing. */
  ghost predicate Gained(log: seq<Event>, log': seq<Event>, id: string, ran: bool) {
    && AllDispatches(log')
    && (AllDispatches(log) ==> Ids(log') == Ids(log) + if ran then [id] else [])
  }

  lemma GainsOne(log: seq<Event>, e: Event)
    requires AllDispatches(log) && e.DispatchedEvent?
    ensures Gained(log, log + [e], e.call, true)
  {
  }

  lemma GainsNone(log: seq<Event>, id: string)
    requires AllDispatches(log)
    ensures Gained(log, log + [], id, false)
  {
    assert log + [] == log && Ids(log) + [] == Ids(log);
  }

  /** The action of the call p is at is in the table as it was loaded. */
  lemma LinkedRow(reg: Registry, s: Sys, p: nat)
    requires Reachable(reg, s) && p in s.procs
    requires var pc := s.procs[p].pc; (pc.Resuming? || pc.Cleared? || pc.Settling?) && pc.i < |pc.batch| && pc.batch[pc.i].action.Some?
    ensures var pc := s.procs[p].pc; var l := pc.batch[pc.i].action.value;
            && l.id in s.st.actions && s.st.actions[l.id] == l.row && l.row.run == s.procs[p].run && l.row.call == pc.batch[pc.i].call
            && Decision(l.row.status) && l.row.call.arguments.Object? && !l.row.edited.Other?
            && (!pc.Resuming? ==> l.row.status.Approved?)
  {
    ReachedInv(reg, s);
    var pc := s.procs[p].pc;
    assert ProcOk(s, p) && LinkOk(s.st, s.procs[p].run, pc.message, pc.batch[pc.i]);
    assert RowOk(s.st, pc.batch[pc.i].action.value.id);
  }

  /** The tool's answer, told the way the source tells it. */
  lemma AnswerMeans(reg: Registry, w: Worker, call: Call, x: Action, outcome: Outcome)
    requires x.call == call && call.arguments.Object? && !x.edited.Other?
    ensures var answer := Answer(reg, w, call, x.EffectiveArguments(), outcome);
            && (answer.None? ==> !Visible(reg, w.role, call.tool) || outcome.Crashed?)
            && (answer.Some? ==> ApprovedRoute(reg, w.role, call.tool, x.EffectiveArguments()).Reach?)
            && (answer == Some(Executed) ==> outcome == Ran) && (answer == Some(Failed) ==> outcome == ReportedError)
            && (answer.Some? ==> answer.value.Executed? || answer.value.Failed?)
  {
  }

  /** Run a cleared call and learn its outcome; `None` fails the run. */
  method RunCleared(reg: Registry, store: PgStore, s: Sys, p: nat, w: Worker, batch: seq<BatchCall>, i: nat, checkedAt: int, answer: Outcome, steps: seq<Step>,
                    log: seq<Event>, ghost s0: Sys, ghost schedule: seq<Step>)
    returns (outcome: Option<Status>, s': Sys, log': seq<Event>, ghost schedule': seq<Step>)
    requires i < |batch| && batch[i].action.Some?
    requires Tracks(reg, store, s, p, w, Cleared(w.message, batch, i, checkedAt)) && Foreign(steps, {p})
    requires Came(reg, s0, schedule, s, w.run, log) && AllDispatches(log)
    modifies store
    ensures Tracks(reg, store, s', p, w, if outcome.None? then Finishing(RunFailed) else Settling(w.message, batch, i, outcome.value))
    ensures Came(reg, s0, schedule', s', w.run, log') && AllDispatches(log')
    ensures Waited(s, s', w.run)
    ensures outcome.None? ==> !Visible(reg, w.role, batch[i].call.tool) || answer.Crashed?
    ensures outcome.Some? ==> Gained(log, log', batch[i].call.id, true)
    ensures outcome.Some? ==> if outcome.value.Executed? then answer == Ran else outcome.value.Failed? && answer == ReportedError
  {
    var call, linked := batch[i].call, batch[i].action.value;
    LinkedRow(reg, s, p);
    CameOn(reg, s0, schedule, s, steps, p, log);
    s' := Meanwhile(reg, store, s, p, w, Cleared(w.message, batch, i, checkedAt), steps);
    var more := ApprovedLog(reg, w, call, linked, checkedAt, s'.now);
    outcome := Answer(reg, w, call, linked.row.EffectiveArguments(), answer);
    AnswerMeans(reg, w, call, linked.row, answer);
    RunSteps(reg, s', p, w, batch, i, checkedAt, answer);
    CameBy(reg, s0, schedule + steps, s', RunApproved(p, answer), w.run, log, more);
    StepReachable(reg, s', RunApproved(p, answer));
    if more == [] { GainsNone(log, call.id); } else { GainsOne(log, more[0]); }
    s', log', schedule' := Apply(reg, s', RunApproved(p, answer)), log + more, schedule + steps + [RunApproved(p, answer)];
  }

  /** The row that was settled says so, and no other row of the run changed. */
  lemma SettledRow(reg: Registry, s: Sys, p: nat, w: Worker, batch: seq<BatchCall>, i: nat, outcome: Status)
    requires Reachable(reg, s) && At(s, p, w, Settling(w.message, batch, i, outcome)) && i < |batch| && batch[i].action.Some?
    ensures batch[i].action.value.id in s.st.actions && batch[i].action.value.id in s.st.audit
    ensures var id := batch[i].action.value.id;
            var st' := RecordOutcome(s.st, id, outcome);
            && id in st'.actions && st'.actions[id] == s.st.actions[id].(status := outcome) && RowsBut(s.st, st', w.run, id)
  {
    LinkedRow(reg, s, p);
    ReachedInv(reg, s);
    assert RowOk(s.st, batch[i].action.value.id);
  }

  /** Settle an outcome before the next call is touched. */
  method SettleOne(reg: Registry, store: PgStore, s: Sys, p: nat, w: Worker, batch: seq<BatchCall>, i: nat, outcome: Status, settles: bool, steps: seq<Step>,
                   ghost log: seq<Event>, ghost s0: Sys, ghost schedule: seq<Step>)
    returns (failed: bool, s': Sys, ghost schedule': seq<Step>)
    requires i < |batch| && batch[i].action.Some?
    requires Tracks(reg, store, s, p, w, Settling(w.message, batch, i, outcome)) && Foreign(steps, {p})
    requires Came(reg, s0, schedule, s, w.run, log)
    modifies store
    ensures Tracks(reg, store, s', p, w, if failed then Finishing(RunFailed) else Resuming(w.message, batch, i + 1))
    ensures Came(reg, s0, schedule', s', w.run, log)
    ensures s.now <= s'.now && failed == !settles
    ensures var id := batch[i].action.value.id;
            !failed ==> id in s.st.actions && id in s'.st.actions && s'.st.actions[id] == s.st.actions[id].(status := outcome)
                        && RowsBut(s.st, s'.st, w.run, id)
  {
    LinkedRow(reg, s, p);
    CameOn(reg, s0, schedule, s, steps, p, log);
    s' := Meanwhile(reg, store, s, p, w, Settling(w.message, batch, i, outcome), steps);
    SettledRow(reg, s', p, w, batch, i, outcome);
    SettleSteps(reg, s', p, w, batch, i, outcome, settles);
    CameBy(reg, s0, schedule + steps, s', Settle(p, settles), w.run, log, []);
    StepReachable(reg, s', Settle(p, settles));
    assert log + [] == log;
    var hit := false;
    if settles { hit := store.RecordApprovalOutcome(batch[i].action.value.id, outcome); }
    failed, s', schedule' := !hit, Apply(reg, s', Settle(p, settles)), schedule + steps + [Settle(p, settles)];
  }

  /** A call without an action takes the ordinary path. */
  method RunOrdinary(reg: Registry, store: PgStore, s: Sys, p: nat, w: Worker, batch: seq<BatchCall>, i: nat, ok: bool, log: seq<Event>, ghost s0: Sys, ghost schedule: seq<Step>)
    returns (failed: bool, s': Sys, log': seq<Event>, ghost schedule': seq<Step>)
    requires i < |batch| && batch[i].action.None? && Tracks(reg, store, s, p, w, Resuming(w.message, batch, i))
    requires Came(reg, s0, schedule, s, w.run, log) && AllDispatches(log)
    ensures Tracks(reg, store, s', p, w, if failed then Finishing(RunFailed) else Resuming(w.message, batch, i + 1))
    ensures Came(reg, s0, schedule', s', w.run, log') && AllDispatches(log')
    ensures s'.st == s.st && s'.now == s.now
    ensures failed ==> !Visible(reg, w.role, batch[i].call.tool) || !ok
    ensures Gained(log, log', batch[i].call.id, Reaches(reg, w.role, batch[i].call))
  {
    var call := batch[i].call;
    var route := OrdinaryRoute(reg, w.role, call.tool, call.arguments);
    var more := OrdinaryLog(route, w, call, s.now);
    OrdinaryDoor(reg, w.role, call);
    OrdinarySteps(reg, s, p, w, batch, i, ok);
    CameBy(reg, s0, schedule, s, ResumeCall(p, ok), w.run, log, more);
    StepReachable(reg, s, ResumeCall(p, ok));
    if more == [] { GainsNone(log, call.id); } else { GainsOne(log, more[0]); }
    failed := route.Fault? || (route.Reach? && !ok);
    s', log', schedule' := Apply(reg, s, ResumeCall(p, ok)), log + more, schedule + [ResumeCall(p, ok)];
  }

  /** One call is dealt with: its action's row, if it has one, and the log; no other row of the run changed. */
  ghost predicate OneDealt(reg: Registry, s: Sys, s': Sys, w: Worker, b: BatchCall, world: World, log: seq<Event>, log': seq<Event>) {
    && Gained(log, log', b.call.id, HasRun(reg, w.role, s'.st, b))
    && match b.action
       case None => SameActions(s.st, s'.st, w.run)
       case Some(l) => l.id in s'.st.actions && RowAfter(l.row, s'.st.actions[l.id], s'.now, world.outcome) && RowsBut(s.st, s'.st, w.run, l.id)
  }

  /** A call with an action: skip it, refuse it, or run it and settle its action. */
  method RunDecided(reg: Registry, store: PgStore, s: Sys, p: nat, w: Worker, batch: seq<BatchCall>, i: nat, world: World, others: nat -> seq<Step>,
                    log: seq<Event>, ghost s0: Sys, ghost schedule: seq<Step>)
    returns (failed: bool, s': Sys, log': seq<Event>, ghost schedule': seq<Step>)
    requires i < |batch| && batch[i].action.Some? && Tracks(reg, store, s, p, w, Resuming(w.message, batch, i))
    requires (forall k :: Foreign(others(k), {p})) && Came(reg, s0, schedule, s, w.run, log) && AllDispatches(log)
    modifies store
    ensures Tracks(reg, store, s', p, w, if failed then Finishing(RunFailed) else Resuming(w.message, batch, i + 1))
    ensures Came(reg, s0, schedule', s', w.run, log') && AllDispatches(log') && s.now <= s'.now
    ensures failed ==> Trouble(reg, w.role, batch[i], world)
    ensures !failed ==> OneDealt(reg, s, s', w, batch[i], world, log, log')
  {
    var row, ok := batch[i].action.value.row, !world.outcome.Crashed?;
    LinkedRow(reg, s, p);
    StatusSteps(reg, s, p, w, batch, i, ok);
    CameBy(reg, s0, schedule, s, ResumeCall(p, ok), w.run, log, []);
    StepReachable(reg, s, ResumeCall(p, ok));
    assert log + [] == log;
    GainsNone(log, batch[i].call.id);
    s', log', schedule' := Apply(reg, s, ResumeCall(p, ok)), log, schedule + [ResumeCall(p, ok)];
    if !row.status.Approved? { return row.status.Pending?, s', log', schedule'; }
    var outcome := Some(Expired);
    if s.now < row.expiresAt {
      outcome, s', log', schedule' := RunCleared(reg, store, s', p, w, batch, i, s.now, world.outcome, others(1), log, s0, schedule');
    }
    if outcome.None? { return true, s', log', schedule'; }
    ghost var mid := s';
    failed, s', schedule' := SettleOne(reg, store, s', p, w, batch, i, outcome.value, world.settles, others(2), log', s0, schedule');
    if !failed { RowsAcross(s.st, mid.st, s'.st, w.run, batch[i].action.value.id); }
  }

  lemma RowsAcross(st: Store, mid: Store, st': Store, run: nat, id: nat)
    requires SameActions(st, mid, run) && RowsBut(mid, st', run, id)
    ensures RowsBut(st, st', run, id)
  {
    forall a | a in st.actions && st.actions[a].run == run && a != id ensures a in st'.actions && st'.actions[a] == st.actions[a] {
      assert a in mid.actions && mid.actions[a] == st.actions[a];
    }
  }

  /** One call of the batch, after what others do before it. */
  method ResumeOne(reg: Registry, store: PgStore, s: Sys, p: nat, w: Worker, batch: seq<BatchCall>, i: nat, world: World, others: nat -> seq<Step>,
                   log: seq<Event>, ghost s0: Sys, ghost schedule: seq<Step>)
    returns (failed: bool, s': Sys, log': seq<Event>, ghost schedule': seq<Step>)
    requires i < |batch| && Tracks(reg, store, s, p, w, Resuming(w.message, batch, i))
    requires (forall k :: Foreign(others(k), {p})) && Came(reg, s0, schedule, s, w.run, log) && AllDispatches(log)
    modifies store
    ensures Tracks(reg, store, s', p, w, if failed then Finishing(RunFailed) else Resuming(w.message, batch, i + 1))
    ensures Came(reg, s0, schedule', s', w.run, log') && AllDispatches(log') && s.now <= s'.now
    ensures failed ==> Trouble(reg, w.role, batch[i], world)
    ensures !failed ==> OneDealt(reg, s, s', w, batch[i], world, log, log')
  {
    CameOn(reg, s0, schedule, s, others(0), p, log);
    s' := Meanwhile(reg, store, s, p, w, Resuming(w.message, batch, i), others(0));
    schedule' := schedule + others(0);
    ghost var mid := s';
    if batch[i].action.None? {
      failed, s', log', schedule' := RunOrdinary(reg, store, s', p, w, batch, i, !world.outcome.Crashed?, log, s0, schedule');
    } else {
      failed, s', log', schedule' := RunDecided(reg, store, s', p, w, batch, i, world, others, log, s0, schedule');
      if !failed { RowsAcross(s.st, mid.st, s'.st, w.run, batch[i].action.value.id); }
    }
  }

  lemma CallIdsDiffer(reg: Registry, s: Sys)
    requires Reachable(reg, s)
    ensures forall a, b :: a in s.st.actions && b in s.st.actions && a != b && s.st.actions[a].run == s.st.actions[b].run ==>
              s.st.actions[a].call.id != s.st.actions[b].call.id
  {
    ReachedInv(reg, s);
    forall a, b | a in s.st.actions && b in s.st.actions && a != b && s.st.actions[a].run == s.st.actions[b].run
      ensures s.st.actions[a].call.id != s.st.actions[b].call.id
    {
      assert PairOk(s.st, a, b);
    }
  }

  lemma LinkSame(st: Store, st1: Store, run: nat, m: nat, b: BatchCall)
    requires SameActions(st, st1, run) && LinkFor(st1, run, m, b)
    ensures LinkFor(st, run, m, b)
  {
    match b.action
    case Some(l) => assert l.id in st1.actions;
    case None =>
      forall a ensures !Pairs(st, run, m, b.call.id, a) {
        if Pairs(st, run, m, b.call.id, a) { assert Pairs(st1, run, m, b.call.id, a); }
      }
  }

  /** The rows are as they were loaded. */
  ghost predicate AsLoaded(st: Store, run: nat, batch: seq<BatchCall>) {
    forall j {:trigger batch[j]} :: 0 <= j < |batch| && batch[j].action.Some? ==>
      var l := batch[j].action.value; l.id in st.actions && st.actions[l.id] == l.row && l.row.run == run
  }

  ghost predicate DistinctLinks(batch: seq<BatchCall>) {
    forall j, k :: 0 <= j < k < |batch| && batch[j].action.Some? && batch[k].action.Some? ==> batch[j].action.value.id != batch[k].action.value.id
  }

  lemma BatchIsLoaded(st: Store, run: nat, m: nat, batch: seq<BatchCall>)
    requires BatchFor(st, run, m, batch) && DistinctIds(st.messages[m].calls)
    ensures AsLoaded(st, run, batch) && DistinctLinks(batch)
  {
    forall j | 0 <= j < |batch| && batch[j].action.Some?
      ensures var l := batch[j].action.value; l.id in st.actions && st.actions[l.id] == l.row && l.row.run == run && l.row.call.id == batch[j].call.id
    {
      assert LinkFor(st, run, m, batch[j]);
    }
  }

  /** The batch as it is loaded is that of the message as the resume was claimed. */
  lemma LoadedBatch(reg: Registry, s: Sys, s1: Sys, p: nat, w: Worker)
    requires Reachable(reg, s1) && At(s1, p, w, Claimed(w.message)) && SameActions(s.st, s1.st, w.run)
    requires w.message in s.st.messages && w.message in s1.st.messages && s1.st.messages[w.message] == s.st.messages[w.message]
    ensures var r := LoadBatch(s1.st, w.run, w.message);
            && r.Success? && BatchFor(s.st, w.run, w.message, r.value)
            && AsLoaded(s1.st, w.run, r.value) && DistinctLinks(r.value)
  {
    ReachedInv(reg, s1);
    LoadKeeps(reg, s1, p);
    LoadMoves(reg, s1, p);
    assert CallsOk(s1, w.message);
    var batch := LoadBatch(s1.st, w.run, w.message).value;
    assert BatchFor(s1.st, w.run, w.message, batch);
    BatchIsLoaded(s1.st, w.run, w.message, batch);
    forall j | 0 <= j < |batch| ensures batch[j].call == s.st.messages[w.message].calls[j] && LinkFor(s.st, w.run, w.message, batch[j]) {
      LinkSame(s.st, s1.st, w.run, w.message, batch[j]);
    }
  }

  /** One more call dealt with. */
  lemma DealtNext(reg: Registry, s: Sys, s': Sys, w: Worker, batch: seq<BatchCall>, i: nat, world: nat -> World, log: seq<Event>, log': seq<Event>)
    requires i < |batch| && Dealt(s.st, s.now, batch, world, i) && s.now <= s'.now && DistinctLinks(batch)
    requires forall j {:trigger batch[j]} :: 0 <= j < |batch| && batch[j].action.Some? ==> batch[j].action.value.row.run == w.run
    requires OneDealt(reg, s, s', w, batch[i], world(i), log, log') && AllDispatches(log) && Ids(log) == RanIds(reg, w.role, s.st, batch, i)
    ensures Dealt(s'.st, s'.now, batch, world, i + 1)
    ensures AllDispatches(log') && Ids(log') == RanIds(reg, w.role, s'.st, batch, i + 1)
  {
    forall j {:trigger batch[j]} | 0 <= j < |batch| && batch[j].action.Some? && j != i
      ensures var id := batch[j].action.value.id; id in s.st.actions && id in s'.st.actions && s'.st.actions[id] == s.st.actions[id]
    {
      assert s.st.actions[batch[j].action.value.id].run == w.run;
      assert batch[i].action.Some? ==> batch[j].action.value.id != batch[i].action.value.id;
    }
    RanSame(reg, w.role, s.st, s'.st, batch, i);
  }

  /** Others' waiting changes nothing of what was dealt with. */
  lemma DealtStays(reg: Registry, s: Sys, s': Sys, w: Worker, batch: seq<BatchCall>, n: nat, world: nat -> World)
    requires n <= |batch| && Dealt(s.st, s.now, batch, world, n) && Waited(s, s', w.run)
    requires forall j {:trigger batch[j]} :: 0 <= j < |batch| && batch[j].action.Some? ==> batch[j].action.value.row.run == w.run
    ensures Dealt(s'.st, s'.now, batch, world, n) && RanIds(reg, w.role, s'.st, batch, n) == RanIds(reg, w.role, s.st, batch, n)
  {
    forall j {:trigger batch[j]} | 0 <= j < |batch| && batch[j].action.Some?
      ensures var id := batch[j].action.value.id; id in s.st.actions && id in s'.st.actions && s'.st.actions[id] == s.st.actions[id]
    {
      assert s.st.actions[batch[j].action.value.id].run == w.run;
    }
    RanSame(reg, w.role, s.st, s'.st, batch, n);
  }

  lemma {:induction false} StepsKeepMessage(reg: Registry, s: Sys, steps: seq<Step>, m: nat)
    requires Reachable(reg, s) && m in s.st.messages
    ensures m in From(reg, s, steps).st.messages && From(reg, s, steps).st.messages[m] == s.st.messages[m]
  {
    if steps != [] {
      var front := steps[..|steps| - 1];
      StepsKeepMessage(reg, s, front, m);
      StaysReachable(reg, s, front);
      ReachedInv(reg, From(reg, s, front));
      MessagesStay(reg, From(reg, s, front), steps[|steps| - 1], m);
    }
  }

  /** The message a resume was claimed for is there. */
  lemma ClaimedMessage(reg: Registry, s: Sys, p: nat)
    requires Reachable(reg, s) && p in s.procs && s.procs[p].pc.Claimed?
    ensures s.procs[p].pc.message in s.st.messages
  {
    ReachedInv(reg, s);
    assert ProcOk(s, p);
  }

  /** The batch of a claimed resume, after what others do before it is loaded; it is always found. */
  method LoadOne(reg: Registry, store: PgStore, s: Sys, p: nat, w: Worker, steps: seq<Step>)
    returns (batch: seq<BatchCall>, s': Sys, ghost schedule: seq<Step>)
    requires Tracks(reg, store, s, p, w, Claimed(w.message)) && Foreign(steps, {p})
    modifies store
    ensures Tracks(reg, store, s', p, w, Resuming(w.message, batch, 0))
    ensures Came(reg, s, schedule, s', w.run, [])
    ensures BatchFor(s.st, w.run, w.message, batch) && AsLoaded(s'.st, w.run, batch) && DistinctLinks(batch)
  {
    assert Came(reg, s, [], s, w.run, []) by { assert Ours(s.history, w.run) + [] == Ours(s.history, w.run); }
    CameOn(reg, s, [], s, steps, p, []);
    ClaimedMessage(reg, s, p);
    StepsKeepMessage(reg, s, steps, w.message);
    s' := Meanwhile(reg, store, s, p, w, Claimed(w.message), steps);
    CallIdsDiffer(reg, s');
    LoadedBatch(reg, s, s', p, w);
    var r := store.LoadApprovalBatch(w.run, w.message);
    batch := r.value;
    LoadSteps(reg, s', p, w);
    CameBy(reg, s, [] + steps, s', Load(p), w.run, [], []);
    StepReachable(reg, s', Load(p));
    s', schedule := Apply(reg, s', Load(p)), [] + steps + [Load(p)];
  }

  /** The batch is closed, after what others do before that. */
  method CompleteOne(reg: Registry, store: PgStore, s: Sys, p: nat, w: Worker, batch: seq<BatchCall>, completes: bool, steps: seq<Step>,
                     ghost log: seq<Event>, ghost s0: Sys, ghost schedule: seq<Step>)
    returns (failed: bool, s': Sys, ghost schedule': seq<Step>)
    requires Tracks(reg, store, s, p, w, Resuming(w.message, batch, |batch|)) && Foreign(steps, {p})
    requires Came(reg, s0, schedule, s, w.run, log)
    modifies store
    ensures Tracks(reg, store, s', p, w, if failed then Finishing(RunFailed) else Looping(0))
    ensures Came(reg, s0, schedule', s', w.run, log) && Waited(s, s', w.run) && failed == !completes
  {
    CameOn(reg, s0, schedule, s, steps, p, log);
    s' := Meanwhile(reg, store, s, p, w, Resuming(w.message, batch, |batch|), steps);
    CompleteSteps(reg, s', p, w, batch, completes);
    CameBy(reg, s0, schedule + steps, s', CompleteBatch(p, completes), w.run, log, []);
    StepReachable(reg, s', CompleteBatch(p, completes));
    assert log + [] == log;
    failed, s', schedule' := !completes, Apply(reg, s', CompleteBatch(p, completes)), schedule + steps + [CompleteBatch(p, completes)];
  }

  /**
   `Runtime.Resume` up to the point where the ordinary loop takes over again. `others(i)` says what
   other goroutines do around call i and `before` what they do before the batch is loaded. Whatever
   they and the world do, it is a run of the protocol, and the calls of its run dispatched
   meanwhile are exactly those it logged. It fails only when something went wrong with a call; when
   it does not, every action's row says what the world answered, and the calls logged are, in
   order, those that may run without an approval and those whose action says that its tool answered.
   */
  method Resume(reg: Registry, store: PgStore, s: Sys, p: nat, w: Worker, before: seq<Step>, others: nat -> nat -> seq<Step>, world: nat -> World, completes: bool)
    returns (failed: bool, s': Sys, log: seq<Event>, ghost schedule: seq<Step>, ghost batch: seq<BatchCall>)
    requires Tracks(reg, store, s, p, w, Claimed(w.message))
    requires Foreign(before, {p}) && forall i, k :: Foreign(others(i)(k), {p})
    modifies store
    ensures Tracks(reg, store, s', p, w, if failed then Finishing(RunFailed) else Looping(0))
    ensures Came(reg, s, schedule, s', w.run, log) && AllDispatches(log)
    ensures BatchFor(s.st, w.run, w.message, batch)
    ensures failed ==> !completes || exists j :: 0 <= j < |batch| && Trouble(reg, w.role, batch[j], world(j))
    ensures !failed ==> Dealt(s'.st, s'.now, batch, world, |batch|) && Ids(log) == RanIds(reg, w.role, s'.st, batch, |batch|)
  {
    var loaded;
    log := [];
    loaded, s', schedule := LoadOne(reg, store, s, p, w, before);
    batch := loaded;
    for i := 0 to |loaded|
      invariant Tracks(reg, store, s', p, w, Resuming(w.message, loaded, i))
      invariant Came(reg, s, schedule, s', w.run, log) && AllDispatches(log)
      invariant Dealt(s'.st, s'.now, loaded, world, i) && Ids(log) == RanIds(reg, w.role, s'.st, loaded, i)
    {
      ghost var was, told := s', log;
      failed, s', log, schedule := ResumeOne(reg, store, s', p, w, loaded, i, world(i), others(i), log, s, schedule);
      if failed { return; }
      DealtNext(reg, was, s', w, loaded, i, world, told, log);
    }
    ghost var was := s';
    failed, s', schedule := CompleteOne(reg, store, s', p, w, loaded, completes, others(|loaded|)(0), log, s, schedule);
    DealtStays(reg, was, s', w, loaded, |loaded|, world);
  }
}
