/**
 Deadlines. The resume loop compares an action's deadline with the clock and then runs the tool;
 between the two the clock goes on. Which schedules dispatch every gated call in time?
 */
module ApprovalTiming {
  import opened Wrappers
  import opened ToolGate
  import opened ApprovalStore
  import opened StoreInvariants
  import opened ApprovalProtocol
  import opened ApprovalSafety
  import opened ApprovalTheorems

  // ---- the clock -------------------------------------------------------------

  function Seconds(step: Step): nat {
    if step.Tick? then step.seconds else 0
  }

  /** How far the clock is moved on by the steps from the i-th up to the k-th. */
  function Ticks(schedule: seq<Step>, i: nat, k: nat): nat
    requires i <= k <= |schedule|
  {
    if i == k then 0 else Ticks(schedule, i, k - 1) + Seconds(schedule[k - 1])
  }

  lemma ClockStep(reg: Registry, s: Sys, step: Step)
    ensures Apply(reg, s, step).now == s.now + Seconds(step)
  {
  }

  lemma {:induction false} ClockRuns(reg: Registry, schedule: seq<Step>, i: nat, k: nat)
    requires i <= k <= |schedule|
    ensures Exec(reg, schedule[..k]).now == Exec(reg, schedule[..i]).now + Ticks(schedule, i, k)
  {
    if i < k {
      ClockRuns(reg, schedule, i, k - 1);
      ClockNext(reg, schedule, k - 1);
    }
  }

  lemma ClockNext(reg: Registry, schedule: seq<Step>, k: nat)
    requires k < |schedule|
    ensures Exec(reg, schedule[..k + 1]).now == Exec(reg, schedule[..k]).now + Seconds(schedule[k])
  {
    NextState(reg, schedule, k);
    ClockStep(reg, Exec(reg, schedule[..k]), schedule[k]);
  }

  // ---- the check -------------------------------------------------------------

  /** The step compares p's next deadline with the clock and clears it. */
  ghost predicate Clears(s: Sys, step: Step, s': Sys, p: nat) {
    && step.ResumeCall? && step.p == p && p in s.procs && s.procs[p].pc.Resuming?
    && p in s'.procs && s'.procs[p].pc.Cleared? && s'.procs[p].pc.checkedAt == s.now
  }

  /** A cleared goroutine was cleared by this step or before it. */
  lemma ClearedComes(reg: Registry, s: Sys, step: Step, p: nat)
    requires var s' := Apply(reg, s, step); p in s'.procs && s'.procs[p].pc.Cleared?
    ensures var s' := Apply(reg, s, step); (p in s.procs && s.procs[p] == s'.procs[p]) || Clears(s, step, s', p)
  {
  }

  /** Step i checked the deadline for which p is still cleared before step k. */
  ghost predicate Checked(reg: Registry, schedule: seq<Step>, p: nat, i: nat, k: nat) {
    && i < k <= |schedule|
    && Clears(Exec(reg, schedule[..i]), schedule[i], Exec(reg, schedule[..i + 1]), p)
    && p in Exec(reg, schedule[..k]).procs && Exec(reg, schedule[..k]).procs[p] == Exec(reg, schedule[..i + 1]).procs[p]
  }

  lemma {:induction false} ClearedWasChecked(reg: Registry, schedule: seq<Step>, p: nat, k: nat) returns (i: nat)
    requires k <= |schedule| && p in Exec(reg, schedule[..k]).procs && Exec(reg, schedule[..k]).procs[p].pc.Cleared?
    ensures Checked(reg, schedule, p, i, k)
  {
    NextState(reg, schedule, k - 1);
    var before := Exec(reg, schedule[..k - 1]);
    ClearedComes(reg, before, schedule[k - 1], p);
    if Clears(before, schedule[k - 1], Exec(reg, schedule[..k]), p) {
      i := k - 1;
    } else {
      i := ClearedWasChecked(reg, schedule, p, k - 1);
    }
  }

  // ---- rows keep their deadlines ---------------------------------------------

  ghost predicate Stays(st: Store, st': Store, a: nat) {
    a in st.actions ==> a in st'.actions && st'.actions[a].expiresAt == st.actions[a].expiresAt
  }

  lemma {:induction false} InsertsStay(st: Store, user: nat, role: string, run: nat, message: nat, requests: seq<Request>, a: nat)
    requires InsertActions(st, user, role, run, message, requests).Success? && a < st.nextId
    ensures var st' := InsertActions(st, user, role, run, message, requests).value; st.nextId <= st'.nextId && Stays(st, st', a)
  {
    if requests != [] { InsertsStay(st, user, role, run, message, requests[..|requests| - 1], a); }
  }

  lemma TurnStays(reg: Registry, s: Sys, p: nat, turn: nat, calls: seq<Call>, cutOff: bool, a: nat)
    requires SysInv(reg, s) && p in s.procs
    ensures Stays(s.st, DoTurn(reg, s, p, turn, calls, cutOff).st, a)
  {
    assert ProcOk(s, p) && RowOk(s.st, a);
    var q := s.procs[p];
    var requests := Requests(reg, q.role, calls, s.now);
    if a in s.st.actions && Pause(s.st, q.user, q.role, q.run, calls, requests).Success? {
      InsertsStay(ParkedRun(s.st, q.run, calls), q.user, q.role, q.run, s.st.nextId, requests, a);
    }
  }

  lemma ProcStays(reg: Registry, s: Sys, p: nat, step: Step, a: nat)
    requires SysInv(reg, s) && p in s.procs
    ensures Stays(s.st, ProcStep(reg, s, p, step).st, a)
  {
    if step.Turn? && s.procs[p].pc.Looping? && DistinctIds(step.calls) {
      TurnStays(reg, s, p, s.procs[p].pc.turn, step.calls, step.cutOff, a);
    }
  }

  lemma TransitionStays(s: Sys, user: nat, role: string, id: nat, verdict: Status, edited: Json, human: bool, a: nat)
    ensures Stays(s.st, DoTransition(s, user, role, id, verdict, edited, human).st, a)
  {
  }

  /** No step drops a row or moves its deadline. */
  lemma RowStaysPut(reg: Registry, s: Sys, step: Step, a: nat)
    requires SysInv(reg, s)
    ensures Stays(s.st, Apply(reg, s, step).st, a)
  {
    match step
    case Begin(_, _) =>
    case Tick(_) =>
    case Decide(user, role, id, approve, edited) => TransitionStays(s, user, role, id, if approve then Approved else Rejected, edited, true, a);
    case Sweep(id) => if id in s.st.actions { TransitionStays(s, s.st.actions[id].creator, "", id, Expired, Absent, false, a); }
    case CancelRun(_, _) =>
    case Restart =>
    case _ => if step.p in s.procs { ProcStays(reg, s, step.p, step, a); }
  }

  // ---- dispatches in time ----------------------------------------------------

  /** A dispatch under an approval, while that approval's action was not past its deadline. */
  ghost predicate InTime(s: Sys, e: Event) {
    e.DispatchedEvent? && e.consent.Some? ==>
      e.consent.value in s.st.actions && e.at < s.st.actions[e.consent.value].expiresAt
  }

  ghost predicate AllInTime(s: Sys) {
    forall k :: 0 <= k < |s.history| ==> InTime(s, s.history[k])
  }

  /** Every approval a tool ran under has its row. */
  ghost predicate AllKnown(s: Sys) {
    forall k :: 0 <= k < |s.history| && s.history[k].DispatchedEvent? && s.history[k].consent.Some? ==> s.history[k].consent.value in s.st.actions
  }

  /** The step runs an approved tool. */
  ghost predicate Runs(reg: Registry, s: Sys, step: Step) {
    && step.RunApproved? && step.p in s.procs && s.procs[step.p].pc.Cleared?
    && var q := s.procs[step.p];
       && q.pc.i < |q.pc.batch| && q.pc.batch[q.pc.i].action.Some?
       && ApprovedRoute(reg, q.role, q.pc.batch[q.pc.i].call.tool, q.pc.batch[q.pc.i].action.value.row.EffectiveArguments()).Reach?
  }

  /** The deadline of the action it runs under. */
  ghost function Deadline(reg: Registry, s: Sys, step: Step): int
    requires Runs(reg, s, step)
  {
    s.procs[step.p].pc.batch[s.procs[step.p].pc.i].action.value.row.expiresAt
  }

  /** Only running an approved tool logs a dispatch under an approval, and then the last event is that dispatch. */
  ghost predicate LogsGated(reg: Registry, s: Sys, step: Step, h': seq<Event>) {
    && |s.history| <= |h'| && h'[..|s.history|] == s.history
    && (forall k :: |s.history| <= k < |h'| && h'[k].DispatchedEvent? && h'[k].consent.Some? ==> Runs(reg, s, step) && k == |s.history|)
    && (Runs(reg, s, step) ==>
          && |h'| == |s.history| + 1 && h'[|s.history|].DispatchedEvent? && h'[|s.history|].at == s.now
          && h'[|s.history|].consent == Some(s.procs[step.p].pc.batch[s.procs[step.p].pc.i].action.value.id))
  }

  lemma ProcLogs(reg: Registry, s: Sys, p: nat, step: Step)
    requires p in s.procs && !step.Begin? && !step.Tick? && !step.Decide? && !step.Sweep? && !step.CancelRun? && !step.Restart? && step.p == p
    ensures LogsGated(reg, s, step, ProcStep(reg, s, p, step).history)
  {
  }

  lemma TransitionLogs(s: Sys, user: nat, role: string, id: nat, verdict: Status, edited: Json, human: bool)
    ensures var h' := DoTransition(s, user, role, id, verdict, edited, human).history;
            && |s.history| <= |h'| && h'[..|s.history|] == s.history
            && forall k :: |s.history| <= k < |h'| ==> !h'[k].DispatchedEvent?
  {
  }

  /** The log only grew, and by no dispatch. */
  ghost predicate GrewQuietly(s: Sys, h': seq<Event>) {
    && |s.history| <= |h'| && h'[..|s.history|] == s.history
    && forall k :: |s.history| <= k < |h'| ==> !h'[k].DispatchedEvent?
  }

  lemma QuietLogs(reg: Registry, s: Sys, step: Step, h': seq<Event>)
    requires GrewQuietly(s, h') && !Runs(reg, s, step)
    ensures LogsGated(reg, s, step, h')
  {
  }

  lemma OthersLog(reg: Registry, s: Sys, step: Step)
    requires step.Begin? || step.Tick? || step.Decide? || step.Sweep? || step.CancelRun? || step.Restart?
    ensures GrewQuietly(s, Apply(reg, s, step).history)
  {
    match step
    case Decide(user, role, id, approve, edited) => TransitionLogs(s, user, role, id, if approve then Approved else Rejected, edited, true);
    case Sweep(id) => if id in s.st.actions { TransitionLogs(s, s.st.actions[id].creator, "", id, Expired, Absent, false); }
    case _ =>
  }

  lemma StepLogs(reg: Registry, s: Sys, step: Step)
    ensures LogsGated(reg, s, step, Apply(reg, s, step).history)
  {
    if step.Begin? || step.Tick? || step.Decide? || step.Sweep? || step.CancelRun? || step.Restart? {
      OthersLog(reg, s, step);
      QuietLogs(reg, s, step, Apply(reg, s, step).history);
    } else if step.p in s.procs {
      ProcLogs(reg, s, step.p, step);
    } else {
      QuietLogs(reg, s, step, s.history);
    }
  }

  /** The action a cleared goroutine runs under is in the table as it was read. */
  lemma RunsOnItsRow(reg: Registry, s: Sys, step: Step)
    requires SysInv(reg, s) && Runs(reg, s, step)
    ensures var l := s.procs[step.p].pc.batch[s.procs[step.p].pc.i].action.value; l.id in s.st.actions && s.st.actions[l.id] == l.row
  {
    var q := s.procs[step.p];
    assert ProcOk(s, step.p) && LinkOk(s.st, q.run, q.pc.message, q.pc.batch[q.pc.i]);
  }

  /** One step: everything is still in time exactly when it was, and a tool that ran did so before its deadline. */
  lemma StepInTime(reg: Registry, s: Sys, step: Step)
    requires SysInv(reg, s) && AllKnown(s)
    ensures AllKnown(Apply(reg, s, step))
    ensures AllInTime(Apply(reg, s, step)) <==> AllInTime(s) && (Runs(reg, s, step) ==> s.now < Deadline(reg, s, step))
  {
    var s' := Apply(reg, s, step);
    var n := |s.history|;
    StepLogs(reg, s, step);
    if Runs(reg, s, step) { RunsOnItsRow(reg, s, step); }
    forall a ensures Stays(s.st, s'.st, a) { RowStaysPut(reg, s, step, a); }
    forall k | 0 <= k < n ensures s'.history[k] == s.history[k] { assert s'.history[..n][k] == s'.history[k]; }
    OldEvents(s, s');
    if AllInTime(s') {
      forall k | 0 <= k < n ensures InTime(s, s.history[k]) { assert InTime(s', s'.history[k]); }
      if Runs(reg, s, step) { assert InTime(s', s'.history[n]); }
    }
  }

  /** Rows that stay keep every verdict on the events there were. */
  lemma OldEvents(s: Sys, s': Sys)
    requires AllKnown(s) && |s.history| <= |s'.history|
    requires forall k :: 0 <= k < |s.history| ==> s'.history[k] == s.history[k]
    requires forall a {:trigger Stays(s.st, s'.st, a)} :: Stays(s.st, s'.st, a)
    ensures forall k :: 0 <= k < |s.history| ==> (InTime(s', s'.history[k]) <==> InTime(s, s.history[k]))
    ensures forall k :: 0 <= k < |s.history| && s.history[k].DispatchedEvent? && s.history[k].consent.Some? ==> s.history[k].consent.value in s'.st.actions
  {
    forall k | 0 <= k < |s.history|
      ensures InTime(s', s'.history[k]) <==> InTime(s, s.history[k])
      ensures s.history[k].DispatchedEvent? && s.history[k].consent.Some? ==> s.history[k].consent.value in s'.st.actions
    {
      if s.history[k].DispatchedEvent? && s.history[k].consent.Some? { assert Stays(s.st, s'.st, s.history[k].consent.value); }
    }
  }

  ghost predicate RunsInTime(reg: Registry, schedule: seq<Step>, k: nat)
    requires k < |schedule|
  {
    var s := Exec(reg, schedule[..k]);
    Runs(reg, s, schedule[k]) ==> s.now < Deadline(reg, s, schedule[k])
  }

  ghost predicate EveryRunInTime(reg: Registry, schedule: seq<Step>, n: nat)
    requires n <= |schedule|
  {
    forall k {:trigger RunsInTime(reg, schedule, k)} :: 0 <= k < n ==> RunsInTime(reg, schedule, k)
  }

  lemma AllInTimeNext(reg: Registry, schedule: seq<Step>, n: nat)
    requires n < |schedule| && AllKnown(Exec(reg, schedule[..n]))
    ensures AllKnown(Exec(reg, schedule[..n + 1]))
    ensures AllInTime(Exec(reg, schedule[..n + 1])) <==> AllInTime(Exec(reg, schedule[..n])) && RunsInTime(reg, schedule, n)
  {
    Invariant(reg, schedule[..n]);
    NextState(reg, schedule, n);
    StepInTime(reg, Exec(reg, schedule[..n]), schedule[n]);
  }

  /** The first n steps leave everything in time exactly when each of them that ran a tool did so in time. */
  ghost predicate TimedTo(reg: Registry, schedule: seq<Step>, n: nat)
    requires n <= |schedule|
  {
    && AllKnown(Exec(reg, schedule[..n]))
    && (AllInTime(Exec(reg, schedule[..n])) <==> EveryRunInTime(reg, schedule, n))
  }

  lemma NothingLate(reg: Registry, schedule: seq<Step>)
    ensures TimedTo(reg, schedule, 0)
  {
    assert schedule[..0] == [];
  }

  lemma OneRunMore(reg: Registry, schedule: seq<Step>, n: nat)
    requires n < |schedule|
    ensures EveryRunInTime(reg, schedule, n + 1) <==> EveryRunInTime(reg, schedule, n) && RunsInTime(reg, schedule, n)
  {
  }

  lemma OneMoreTimed(reg: Registry, schedule: seq<Step>, n: nat)
    requires n < |schedule| && TimedTo(reg, schedule, n)
    ensures TimedTo(reg, schedule, n + 1)
  {
    AllInTimeNext(reg, schedule, n);
    OneRunMore(reg, schedule, n);
  }

  lemma {:induction false} AllInTimeByStep(reg: Registry, schedule: seq<Step>, n: nat)
    requires n <= |schedule|
    ensures TimedTo(reg, schedule, n)
  {
    if n == 0 {
      NothingLate(reg, schedule);
    } else {
      AllInTimeByStep(reg, schedule, n - 1);
      OneMoreTimed(reg, schedule, n - 1);
    }
  }

  /** The seconds between check i and dispatch k, all of them ticks in the schedule, are fewer than the check found left. */
  ghost predicate LeavesTime(reg: Registry, schedule: seq<Step>, i: nat, k: nat)
    requires i < k < |schedule|
  {
    var s := Exec(reg, schedule[..k]);
    Runs(reg, s, schedule[k]) && Checked(reg, schedule, schedule[k].p, i, k) ==>
      Ticks(schedule, i, k) < Deadline(reg, s, schedule[k]) - Exec(reg, schedule[..i]).now
  }

  /** So do all checks for the dispatch at step k. */
  ghost predicate ChecksLeaveTime(reg: Registry, schedule: seq<Step>, k: nat)
    requires k < |schedule|
  {
    forall i :: 0 <= i < k ==> LeavesTime(reg, schedule, i, k)
  }

  lemma GapInTime(reg: Registry, schedule: seq<Step>, i: nat, k: nat)
    requires i < k < |schedule|
    ensures RunsInTime(reg, schedule, k) ==> LeavesTime(reg, schedule, i, k)
    ensures schedule[k].RunApproved? && Checked(reg, schedule, schedule[k].p, i, k) && LeavesTime(reg, schedule, i, k) ==> RunsInTime(reg, schedule, k)
  {
    ClockRuns(reg, schedule, i, k);
  }

  lemma DispatchInTime(reg: Registry, schedule: seq<Step>, k: nat)
    requires k < |schedule|
    ensures RunsInTime(reg, schedule, k) <==> ChecksLeaveTime(reg, schedule, k)
  {
    forall i | 0 <= i < k ensures RunsInTime(reg, schedule, k) ==> LeavesTime(reg, schedule, i, k) {
      GapInTime(reg, schedule, i, k);
    }
    if Runs(reg, Exec(reg, schedule[..k]), schedule[k]) {
      var i := ClearedWasChecked(reg, schedule, schedule[k].p, k);
      GapInTime(reg, schedule, i, k);
    }
  }

  /** The schedule on which the clock passes the deadline between the check and the dispatch is not in time. */
  lemma LateIsNotInTime(reg: Registry)
    requires reg == map["pause" := Tool("pause", Consequential, "")]
    ensures !AllInTime(Exec(reg, LateSchedule))
  {
    LateHistory(reg);
    TooLate(Exec(reg, LateSchedule));
  }

  lemma TooLate(s: Sys)
    requires |s.history| == 4 && s.history[3].DispatchedEvent? && s.history[3].consent == Some(2)
    requires 2 in s.st.actions && s.st.actions[2].expiresAt <= s.history[3].at
    ensures !AllInTime(s)
  {
    assert !InTime(s, s.history[3]);
  }

  /**
   Every gated call of a run is dispatched before its action's deadline if and only if, for each
   such dispatch, the clock ticks between its deadline check and the dispatch itself for less
   than the check found left.
   */
  lemma OnTimeExactly(reg: Registry, schedule: seq<Step>)
    ensures AllInTime(Exec(reg, schedule)) <==> forall k :: 0 <= k < |schedule| ==> ChecksLeaveTime(reg, schedule, k)
  {
    AllInTimeByStep(reg, schedule, |schedule|);
    assert schedule[..|schedule|] == schedule;
    forall k | 0 <= k < |schedule| ensures RunsInTime(reg, schedule, k) <==> ChecksLeaveTime(reg, schedule, k) {
      DispatchInTime(reg, schedule, k);
    }
  }
}
