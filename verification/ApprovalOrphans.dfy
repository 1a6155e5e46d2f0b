/** When a running run has no goroutine, and the failing sweep as a run of the protocol. */
module ApprovalOrphans {
  import opened Wrappers
  import opened ToolGate
  import opened ApprovalStore
  import opened StoreInvariants
  import opened ApprovalTables
  import opened ApprovalSweep
  import opened ApprovalProtocol
  import opened ApprovalSafety
  import opened ApprovalTheorems
  import opened ApprovalRuns

  ghost predicate Tended(s: Sys, r: nat) {
    exists p :: p in s.procs && s.procs[p].run == r
  }

  /** The table says the run is running, and no goroutine runs it. */
  ghost predicate Orphaned(s: Sys, r: nat) {
    r in s.st.runs && s.st.runs[r].status.Running? && !Tended(s, r)
  }

  /** The step loses the goroutine that held the run: a crash of that goroutine, or a claim nobody acts on. */
  ghost predicate Loses(s: Sys, step: Step, r: nat) {
    step.Vanish? && step.p in s.procs && s.procs[step.p].run == r
  }

  lemma TendedBy(s: Sys, p: nat)
    requires p in s.procs
    ensures Tended(s, s.procs[p].run)
  {
  }

  /** Goroutines that stay keep tending their runs. */
  lemma TendedStays(s: Sys, s': Sys, r: nat)
    requires Tended(s, r)
    requires forall p :: p in s.procs && s.procs[p].run == r ==> p in s'.procs && s'.procs[p].run == r
    ensures Tended(s', r)
  {
    var p :| p in s.procs && s.procs[p].run == r;
    TendedBy(s', p);
  }

  /** A goroutine moved, and nothing else did. */
  ghost predicate Moves(s: Sys, s': Sys) {
    s'.st.runs == s.st.runs && s'.procs.Keys == s.procs.Keys && forall q :: q in s.procs ==> s'.procs[q].run == s.procs[q].run
  }

  /** A goroutine left after it parked or finished its run. */
  ghost predicate Leaves(s: Sys, s': Sys, p: nat) {
    && p in s.procs && s'.procs == s.procs - {p}
    && s.procs[p].run in s'.st.runs && !s'.st.runs[s.procs[p].run].status.Running?
    && forall r :: r != s.procs[p].run ==> (r in s'.st.runs <==> r in s.st.runs) && (r in s.st.runs ==> s'.st.runs[r] == s.st.runs[r])
  }

  lemma {:induction false} InsertsKeepRuns(st: Store, user: nat, role: string, run: nat, message: nat, requests: seq<Request>)
    requires InsertActions(st, user, role, run, message, requests).Success?
    ensures InsertActions(st, user, role, run, message, requests).value.runs == st.runs
  {
    if requests != [] { InsertsKeepRuns(st, user, role, run, message, requests[..|requests| - 1]); }
  }

  lemma TurnShape(reg: Registry, s: Sys, p: nat, turn: nat, calls: seq<Call>, cutOff: bool)
    requires SysInv(reg, s) && p in s.procs
    ensures var s' := DoTurn(reg, s, p, turn, calls, cutOff); Moves(s, s') || Leaves(s, s', p)
  {
    assert ProcOk(s, p);
    var q := s.procs[p];
    var requests := Requests(reg, q.role, calls, s.now);
    if Pause(s.st, q.user, q.role, q.run, calls, requests).Success? {
      InsertsKeepRuns(ParkedRun(s.st, q.run, calls), q.user, q.role, q.run, s.st.nextId, requests);
    }
  }

  lemma OrdinaryShape(reg: Registry, s: Sys, p: nat, message: nat, call: Call, ok: bool, after: Pc)
    requires p in s.procs
    ensures Moves(s, DoOrdinary(reg, s, p, message, call, ok, after))
  {
  }

  lemma ResumeShape(reg: Registry, s: Sys, p: nat, step: Step)
    requires p in s.procs && (step.Load? || step.ResumeCall? || step.RunApproved? || step.Settle?)
    ensures Moves(s, ProcStep(reg, s, p, step))
  {
    match (step, s.procs[p].pc)
    case (ResumeCall(_, ok), Resuming(m, batch, i)) =>
      if i < |batch| && batch[i].action.None? { OrdinaryShape(reg, s, p, m, batch[i].call, ok, Resuming(m, batch, i + 1)); }
    case _ =>
  }

  lemma ProcStepShape(reg: Registry, s: Sys, p: nat, step: Step)
    requires SysInv(reg, s) && p in s.procs && !step.Vanish?
    ensures var s' := ProcStep(reg, s, p, step); Moves(s, s') || Leaves(s, s', p)
  {
    assert ProcOk(s, p);
    match step
    case Turn(_, calls, cutOff) =>
      if s.procs[p].pc.Looping? && DistinctIds(calls) { TurnShape(reg, s, p, s.procs[p].pc.turn, calls, cutOff); }
    case Dispatch(_, ok) =>
      if s.procs[p].pc.Dispatching? && s.procs[p].pc.i < |s.procs[p].pc.calls| {
        var pc := s.procs[p].pc;
        OrdinaryShape(reg, s, p, pc.message, pc.calls[pc.i], ok, Dispatching(pc.turn, pc.message, pc.calls, pc.i + 1));
      }
    case Load(_) => ResumeShape(reg, s, p, step);
    case ResumeCall(_, _) => ResumeShape(reg, s, p, step);
    case RunApproved(_, _) => ResumeShape(reg, s, p, step);
    case Settle(_, _) => ResumeShape(reg, s, p, step);
    case _ =>
  }

  lemma MovesKeep(s: Sys, s': Sys, r: nat)
    requires Moves(s, s')
    ensures Orphaned(s', r) <==> Orphaned(s, r)
  {
    if Tended(s, r) { TendedStays(s, s', r); }
    if Tended(s', r) { TendedStays(s', s, r); }
  }

  lemma LeavesKeep(reg: Registry, s: Sys, s': Sys, p: nat, r: nat)
    requires SysInv(reg, s) && Leaves(s, s', p)
    ensures Orphaned(s', r) ==> Orphaned(s, r)
  {
    if r != s.procs[p].run && Tended(s, r) { TendedStays(s, s', r); }
  }

  lemma VanishOrphans(reg: Registry, s: Sys, p: nat, r: nat)
    requires SysInv(reg, s) && p in s.procs && !Orphaned(s, r)
    ensures Orphaned(Drop(s, p), r) <==> s.procs[p].run == r
  {
    assert ProcOk(s, p);
    var s' := Drop(s, p);
    if r == s.procs[p].run {
      forall q | q in s'.procs ensures s'.procs[q].run != r { assert Apart(s, p, q); }
    } else if Tended(s, r) {
      TendedStays(s, s', r);
    }
  }

  lemma ProcStepOrphans(reg: Registry, s: Sys, p: nat, step: Step, r: nat)
    requires SysInv(reg, s) && p in s.procs && !Orphaned(s, r)
    ensures Orphaned(ProcStep(reg, s, p, step), r) <==> step.Vanish? && s.procs[p].run == r
  {
    if step.Vanish? {
      VanishOrphans(reg, s, p, r);
    } else {
      ProcStepShape(reg, s, p, step);
      var s' := ProcStep(reg, s, p, step);
      if Moves(s, s') { MovesKeep(s, s', r); } else { LeavesKeep(reg, s, s', p, r); }
    }
  }

  /** A new goroutine for a run that was not running before. */
  ghost predicate Gains(s: Sys, s': Sys, run: nat) {
    && (forall q :: q in s.procs ==> q in s'.procs && s'.procs[q] == s.procs[q])
    && (forall r :: r in s'.st.runs && r != run ==> r in s.st.runs && (s'.st.runs[r].status.Running? ==> s.st.runs[r].status.Running?))
    && Tended(s', run)
  }

  lemma GainsKeep(s: Sys, s': Sys, run: nat, r: nat)
    requires Gains(s, s', run)
    ensures Orphaned(s', r) ==> Orphaned(s, r)
  {
    if Tended(s, r) { TendedStays(s, s', r); }
  }

  lemma FreshProc(reg: Registry, s: Sys)
    requires SysInv(reg, s)
    ensures s.nextProc !in s.procs
  {
    assert ProcOk(s, s.nextProc);
  }

  lemma TransitionOrphans(reg: Registry, s: Sys, user: nat, role: string, id: nat, verdict: Status, edited: Json, human: bool, r: nat)
    requires SysInv(reg, s) && !Orphaned(s, r)
    ensures !Orphaned(DoTransition(s, user, role, id, verdict, edited, human), r)
  {
    FreshProc(reg, s);
    var s' := DoTransition(s, user, role, id, verdict, edited, human);
    var t := Transition(s.st, user, role, id, verdict, edited, human, s.now);
    if t.Success? && id in t.value.0.actions {
      match t.value.1
      case None => MovesKeep(s, s', r);
      case Some(h) =>
        TendedBy(s', s.nextProc);
        GainsKeep(s, s', h.run, r);
    }
  }

  lemma BeginOrphans(reg: Registry, s: Sys, user: nat, role: string, r: nat)
    requires SysInv(reg, s) && !Orphaned(s, r)
    ensures !Orphaned(DoBegin(s, user, role), r)
  {
    FreshProc(reg, s);
    var s' := DoBegin(s, user, role);
    TendedBy(s', s.nextProc);
    GainsKeep(s, s', s.st.nextId, r);
  }

  lemma CancelOrphans(reg: Registry, s: Sys, user: nat, run: nat, r: nat)
    requires SysInv(reg, s) && !Orphaned(s, r)
    ensures !Orphaned(DoCancel(s, user, run), r)
  {
    var s' := DoCancel(s, user, run);
    if Tended(s, r) { TendedStays(s, s', r); }
  }

  /** Step by step: a run that is not orphaned becomes so exactly when the goroutine that holds it is lost. */
  lemma OrphansExactly(reg: Registry, s: Sys, step: Step, r: nat)
    requires Reachable(reg, s) && !Orphaned(s, r)
    ensures Orphaned(Apply(reg, s, step), r) <==> Loses(s, step, r)
  {
    ReachedInv(reg, s);
    match step
    case Begin(user, role) => BeginOrphans(reg, s, user, role, r);
    case Tick(_) => MovesKeep(s, Apply(reg, s, step), r);
    case Decide(user, role, id, approve, edited) =>
      TransitionOrphans(reg, s, user, role, id, if approve then Approved else Rejected, edited, true, r);
    case Sweep(id) =>
      if id in s.st.actions { TransitionOrphans(reg, s, s.st.actions[id].creator, "", id, Expired, Absent, false, r); }
    case CancelRun(user, run) => CancelOrphans(reg, s, user, run, r);
    case Restart =>
    case _ => if step.p in s.procs { ProcStepOrphans(reg, s, step.p, step, r); }
  }

  // ---- the failing sweep -----------------------------------------------------

  function SweepSteps(ids: seq<nat>): seq<Step> {
    if ids == [] then [] else SweepSteps(ids[..|ids| - 1]) + [Step.Sweep(ids[|ids| - 1])]
  }

  /** The goroutines there were, and those of resumes claimed since. */
  ghost predicate ClaimsOnly(s: Sys, t: Sys) {
    && s.nextProc <= t.nextProc && t.now == s.now
    && (forall p :: p in s.procs ==> p in t.procs && t.procs[p] == s.procs[p])
    && (forall p :: p in t.procs && p !in s.procs ==> s.nextProc <= p < t.nextProc && t.procs[p].pc.Claimed?)
  }

  /** One candidate of a sweep as one step of the protocol. */
  lemma SweepStep(reg: Registry, s: Sys, mid: Sys, ids: seq<nat>, id: nat)
    requires SysInv(reg, s) && Swept(s.st, mid.st, ids) && id !in ids && Overdue(s.st, s.now, id) && ClaimsOnly(s, mid)
    ensures id in mid.st.actions
    ensures var t := Transition(mid.st, mid.st.actions[id].creator, "", id, Expired, Absent, false, s.now);
            t.Success? && DoSweep(mid, id).st == t.value.0
    ensures (forall p :: p in s.procs ==> p < s.nextProc) ==> ClaimsOnly(s, DoSweep(mid, id))
  {
    SweptOneMore(s.st, mid.st, ids, id, s.now);
    assert RowSwept(s.st, mid.st, ids, id) && RowOk(mid.st, id);
  }

  lemma SweepNext(st: Store, mid: Store, ids: seq<nat>, faults: set<nat>, now: int)
    requires ids != [] && NoFault(faults, |ids|) && ids[|ids| - 1] in mid.actions
    requires mid == ApprovalTables.Sweep(st, ids[..|ids| - 1], faults, now).0 && ApprovalTables.Sweep(st, ids[..|ids| - 1], faults, now).1.Some?
    requires Transition(mid, mid.actions[ids[|ids| - 1]].creator, "", ids[|ids| - 1], Expired, Absent, false, now).Success?
    ensures ApprovalTables.Sweep(st, ids, faults, now).0 ==
            Transition(mid, mid.actions[ids[|ids| - 1]].creator, "", ids[|ids| - 1], Expired, Absent, false, now).value.0
  {
  }

  /** Sweep and protocol agree before the last candidate, so they agree after it. */
  lemma SweepAgrees(reg: Registry, s: Sys, mid: Sys, ids: seq<nat>, faults: set<nat>)
    requires SysInv(reg, s) && Candidates(s.st, s.now, ids) && NoFault(faults, |ids|) && ids != []
    requires mid.st == ApprovalTables.Sweep(s.st, ids[..|ids| - 1], faults, s.now).0 && ClaimsOnly(s, mid)
    ensures var t := DoSweep(mid, ids[|ids| - 1]);
            t.st == ApprovalTables.Sweep(s.st, ids, faults, s.now).0 && ClaimsOnly(s, t)
  {
    var front, id := ids[..|ids| - 1], ids[|ids| - 1];
    CleanSweep(s.st, front, faults, s.now);
    forall p | p in s.procs ensures p < s.nextProc { assert ProcOk(s, p); }
    SweepStep(reg, s, mid, front, id);
    SweepNext(s.st, mid.st, ids, faults, s.now);
  }

  lemma FromSweep(reg: Registry, s: Sys, ids: seq<nat>)
    requires ids != []
    ensures From(reg, s, SweepSteps(ids)) == DoSweep(From(reg, s, SweepSteps(ids[..|ids| - 1])), ids[|ids| - 1])
  {
    FromStep(reg, s, SweepSteps(ids[..|ids| - 1]), Step.Sweep(ids[|ids| - 1]));
  }

  ghost predicate RunsAsSweep(reg: Registry, s: Sys, ids: seq<nat>, faults: set<nat>) {
    var t := From(reg, s, SweepSteps(ids));
    t.st == ApprovalTables.Sweep(s.st, ids, faults, s.now).0 && ClaimsOnly(s, t)
  }

  lemma {:induction false} CleanSweepIsARun(reg: Registry, s: Sys, ids: seq<nat>, faults: set<nat>)
    requires SysInv(reg, s) && Candidates(s.st, s.now, ids) && NoFault(faults, |ids|)
    ensures RunsAsSweep(reg, s, ids, faults)
  {
    if ids != [] {
      CleanSweepIsARun(reg, s, ids[..|ids| - 1], faults);
      FromSweep(reg, s, ids);
      SweepAgrees(reg, s, From(reg, s, SweepSteps(ids[..|ids| - 1])), ids, faults);
    }
  }

  function LoseSteps(lo: nat, n: nat): seq<Step> {
    if n == 0 then [] else LoseSteps(lo, n - 1) + [Vanish(lo + n - 1)]
  }

  /** The goroutines numbered lo up to lo + n are gone, and nothing else changed. */
  ghost predicate Lost(s: Sys, t: Sys, lo: nat, n: nat) {
    && t.st == s.st && t.now == s.now
    && (forall p :: p in t.procs <==> p in s.procs && !(lo <= p < lo + n))
    && (forall p :: p in t.procs ==> t.procs[p] == s.procs[p])
  }

  lemma LostOneMore(reg: Registry, s: Sys, t: Sys, lo: nat, n: nat)
    requires Lost(s, t, lo, n)
    ensures Lost(s, Apply(reg, t, Vanish(lo + n)), lo, n + 1)
  {
  }

  lemma {:induction false} LosingClaims(reg: Registry, s: Sys, lo: nat, n: nat)
    ensures Lost(s, From(reg, s, LoseSteps(lo, n)), lo, n)
  {
    if n > 0 {
      LosingClaims(reg, s, lo, n - 1);
      LostOneMore(reg, s, From(reg, s, LoseSteps(lo, n - 1)), lo, n - 1);
      FromStep(reg, s, LoseSteps(lo, n - 1), Vanish(lo + n - 1));
    }
  }

  /** The protocol's run of a sweep that fails at its n-th candidate: settle those before it, then lose every claim. */
  ghost function FailedSweep(reg: Registry, s: Sys, ids: seq<nat>, n: nat): seq<Step>
    requires n <= |ids|
  {
    var t := From(reg, s, SweepSteps(ids[..n]));
    SweepSteps(ids[..n]) + LoseSteps(s.nextProc, if t.nextProc > s.nextProc then t.nextProc - s.nextProc else 0)
  }

  lemma BackToBefore(s: Sys, mid: Sys, t: Sys)
    requires ClaimsOnly(s, mid) && Lost(mid, t, s.nextProc, mid.nextProc - s.nextProc)
    requires forall p :: p in s.procs ==> p < s.nextProc
    ensures t.procs == s.procs
  {
    assert forall p :: p in t.procs <==> p in s.procs;
  }

  lemma LostClaims(reg: Registry, s: Sys, mid: Sys)
    requires SysInv(reg, s) && ClaimsOnly(s, mid)
    ensures var t := From(reg, mid, LoseSteps(s.nextProc, mid.nextProc - s.nextProc));
            t.procs == s.procs && t.st == mid.st
  {
    LosingClaims(reg, mid, s.nextProc, mid.nextProc - s.nextProc);
    forall p | p in s.procs ensures p < s.nextProc { assert ProcOk(s, p); }
    BackToBefore(s, mid, From(reg, mid, LoseSteps(s.nextProc, mid.nextProc - s.nextProc)));
  }

  lemma FailedSweepEnds(reg: Registry, s: Sys, ids: seq<nat>, n: nat)
    requires SysInv(reg, s) && n <= |ids| && ClaimsOnly(s, From(reg, s, SweepSteps(ids[..n])))
    ensures var t := From(reg, s, FailedSweep(reg, s, ids, n));
            t.procs == s.procs && t.st == From(reg, s, SweepSteps(ids[..n])).st
  {
    var first, mid := SweepSteps(ids[..n]), From(reg, s, SweepSteps(ids[..n]));
    FromConcat(reg, s, first, LoseSteps(s.nextProc, mid.nextProc - s.nextProc));
    LostClaims(reg, s, mid);
  }

  /**
   A failing sweep is a run of the protocol that leaves the tables the sweep leaves and no new
   goroutine; it orphans exactly the runs that the sweep strands.
   */
  lemma FailingSweepOrphans(reg: Registry, s: Sys, ids: seq<nat>, faults: set<nat>, n: nat, r: nat)
    requires Reachable(reg, s) && Candidates(s.st, s.now, ids) && FirstFault(faults, ids, n)
    ensures var t := From(reg, s, FailedSweep(reg, s, ids, n));
            && Reachable(reg, t) && t.procs == s.procs && t.st == ApprovalTables.Sweep(s.st, ids, faults, s.now).0
            && (Orphaned(t, r) <==> Orphaned(s, r) || Strands(s.st, ids, faults, s.now, r))
  {
    ReachedInv(reg, s);
    CleanSweepIsARun(reg, s, ids[..n], faults);
    FailedSweepEnds(reg, s, ids, n);
    StaysReachable(reg, s, FailedSweep(reg, s, ids, n));
    FailedTables(reg, s, ids, faults, n);
    StrandedOrphans(reg, s, From(reg, s, FailedSweep(reg, s, ids, n)), ids, faults, n, r);
  }

  lemma FailedTables(reg: Registry, s: Sys, ids: seq<nat>, faults: set<nat>, n: nat)
    requires SysInv(reg, s) && Candidates(s.st, s.now, ids) && FirstFault(faults, ids, n) && RunsAsSweep(reg, s, ids[..n], faults)
    ensures From(reg, s, SweepSteps(ids[..n])).st == ApprovalTables.Sweep(s.st, ids, faults, s.now).0
  {
    CleanSweep(s.st, ids[..n], faults, s.now);
    FaultStopsThere(s.st, ids, faults, s.now, n);
  }

  lemma FaultStopsThere(st: Store, ids: seq<nat>, faults: set<nat>, now: int, n: nat)
    requires FirstFault(faults, ids, n) && ApprovalTables.Sweep(st, ids[..n], faults, now).1.Some?
    ensures ApprovalTables.Sweep(st, ids, faults, now) == (ApprovalTables.Sweep(st, ids[..n], faults, now).0, None)
  {
    assert ids[..n + 1][..n] == ids[..n];
    SweepFails(st, ids, faults, now, n + 1);
  }

  lemma StrandedOrphans(reg: Registry, s: Sys, t: Sys, ids: seq<nat>, faults: set<nat>, n: nat, r: nat)
    requires SysInv(reg, s) && Candidates(s.st, s.now, ids) && FirstFault(faults, ids, n)
    requires t.procs == s.procs && t.st == ApprovalTables.Sweep(s.st, ids, faults, s.now).0
    ensures Orphaned(t, r) <==> Orphaned(s, r) || Strands(s.st, ids, faults, s.now, r)
  {
    FaultySweep(s.st, ids, faults, s.now, n);
    assert RunSwept(s.st, t.st, ids[..n], r);
    SweptReleases(s.st, t.st, ids[..n], r);
    forall p | p in s.procs ensures s.procs[p].run in s.st.runs && s.st.runs[s.procs[p].run].status.Running? { assert ProcOk(s, p); }
  }
}
