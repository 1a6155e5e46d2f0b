/** Decisions stick, runs end once, and what a cancelled run leaves behind. */
module ApprovalEndings {
  import opened Wrappers
  import opened ToolGate
  import opened ApprovalStore
  import opened StoreInvariants
  import opened ApprovalProtocol
  import opened ApprovalSafety
  import opened ApprovalTheorems
  import opened ApprovalRows
  import opened ApprovalMoves
  import opened ApprovalLedger
  import opened ApprovalRuns
  import opened ApprovalAccounts

  /** The action can still run. */
  predicate OpenAction(x: Action) {
    x.status.Pending? || x.status.Approved?
  }

  /** No action of the run can still run. */
  ghost predicate NothingOpen(st: Store, r: nat) {
    forall a :: a in st.actions && st.actions[a].run == r ==> !OpenAction(st.actions[a])
  }

  // ---- one cancellation -------------------------------------------------------

  /**
   What a cancellation does, whole: the run is cancelled, every action of it that was pending or
   approved is rejected by the user with one more line in its trail, and nothing else changes.
   */
  ghost predicate CancelledWhole(st: Store, st': Store, user: nat, run: nat)
    requires run in st.runs && st.actions.Keys == st.audit.Keys
  {
    && st'.runs == st.runs[run := Run(user, Cancelled)]
    && st'.messages == st.messages && st'.nextId == st.nextId
    && st'.actions.Keys == st.actions.Keys && st'.audit.Keys == st.audit.Keys
    && forall a {:trigger st'.actions[a]} :: a in st.actions ==>
         var x := st.actions[a];
         if x.run == run && (x.status.Pending? || x.status.Approved?)
         then st'.actions[a] == x.(status := Rejected, decidedBy := Some(user)) && st'.audit[a] == st.audit[a] + [Became(Rejected)]
         else st'.actions[a] == x && st'.audit[a] == st.audit[a]
  }

  /** A cancellation goes through exactly for the owner of a paused run, and then does exactly that. */
  lemma CancelIsWhole(st: Store, user: nat, run: nat)
    requires StoreInv(st)
    ensures Cancel(st, user, run).Success? <==> run in st.runs && st.runs[run] == Run(user, PausedApproval)
    ensures Cancel(st, user, run).Success? ==> CancelledWhole(st, Cancel(st, user, run).value, user, run)
  {
    forall a | a in st.actions ensures st.actions[a].run == run && run in st.runs ==> st.actions[a].creator == st.runs[run].owner { assert RowOk(st, a); }
  }

  // ---- what is over stays -----------------------------------------------------

  /** The rows of a run that is neither running nor paused are never touched again. */
  lemma OverRowsStay(reg: Registry, s: Sys, step: Step, a: nat)
    requires SysInv(reg, s) && a in s.st.actions && a in s.st.audit
    requires var r := s.st.actions[a].run; r in s.st.runs && !s.st.runs[r].status.Running? && !s.st.runs[r].status.PausedApproval?
    ensures a in Apply(reg, s, step).st.actions && Apply(reg, s, step).st.actions[a] == s.st.actions[a]
  {
    PendingIsPaused(s.st, a);
    RowFollows(reg, s, step, a);
    SettlesItsOwn(reg, s, step, a);
  }

  /** Nor does it get new ones. */
  lemma OverGetsNone(reg: Registry, s: Sys, step: Step, a: nat)
    requires SysInv(reg, s) && a !in s.st.actions && a in Apply(reg, s, step).st.actions
    ensures var r := Apply(reg, s, step).st.actions[a].run; r in s.st.runs && s.st.runs[r].status.Running?
  {
    if Parks(reg, s, step) {
      ParkingTurn(reg, s, step);
      assert ProcOk(s, step.p);
    } else {
      NothingElseParks(reg, s, step);
    }
  }

  // ---- every entry is taken up ------------------------------------------------

  /** The decision recorded in the book is what the row shows, or what led to it. */
  ghost predicate GrantTaken(s: Sys, l: set<Entry>, a: nat, user: nat, edited: Json) {
    && a in s.st.actions && s.st.actions[a].creator == user && s.st.actions[a].edited == edited
    && match s.st.actions[a].status
       case Pending => false
       case Rejected => Withdrawn(s.st.actions[a].run, user) in l
       case Expired => Late(a) in l
       case _ => true
  }

  ghost predicate EntryTaken(s: Sys, l: set<Entry>, e: Entry) {
    match e
    case Granted(a, user, edited) => GrantTaken(s, l, a, user, edited)
    case Declined(a, user) => a in s.st.actions && s.st.actions[a].creator == user && s.st.actions[a].status.Rejected?
    case Lapsed(a) => a in s.st.actions && s.st.actions[a].status.Expired?
    case Withdrawn(r, user) => r in s.st.runs && s.st.runs[r] == Run(user, Cancelled) && NothingOpen(s.st, r)
    case _ => true
  }

  ghost predicate AllTaken(s: Sys, l: set<Entry>) {
    forall e {:trigger EntryTaken(s, l, e)} :: e in l ==> EntryTaken(s, l, e)
  }

  lemma DecisionStays(reg: Registry, s: Sys, step: Step, l: set<Entry>, l': set<Entry>, e: Entry)
    requires SysInv(reg, s) && Backed(reg, s, l) && Entered(reg, s, step, l, l') && EntryTaken(s, l, e)
    requires e.Granted? || e.Declined? || e.Lapsed?
    ensures EntryTaken(Apply(reg, s, step), l', e)
  {
    var a := e.id;
    assert RowOk(s.st, a) && RowBacked(s, l, a);
    RowFollows(reg, s, step, a);
    if Settles(s, step, a) {
      assert ProcBacked(s, l, step.p) && ProcOk(s, step.p);
      SettlingIsApproved(reg, s, step.p);
    } else if Revokes(s, step, a) {
      assert Cancels(s, step, step.run);
    }
  }

  lemma WithdrawalStays(reg: Registry, s: Sys, step: Step, l: set<Entry>, l': set<Entry>, e: Entry)
    requires SysInv(reg, s) && EntryTaken(s, l, e) && e.Withdrawn?
    ensures EntryTaken(Apply(reg, s, step), l', e)
  {
    var s' := Apply(reg, s, step);
    OverIsOver(reg, s, step, e.run);
    forall a | a in s'.st.actions && s'.st.actions[a].run == e.run ensures !OpenAction(s'.st.actions[a]) {
      if a in s.st.actions {
        assert RowOk(s.st, a);
        RowFollows(reg, s, step, a);
        OverRowsStay(reg, s, step, a);
      } else {
        OverGetsNone(reg, s, step, a);
      }
    }
  }

  /** What a step enters is at once so. */
  lemma NoteTaken(reg: Registry, s: Sys, step: Step, l': set<Entry>, e: Entry)
    requires SysInv(reg, s) && e in Notes(reg, s, step)
    ensures EntryTaken(Apply(reg, s, step), l', e)
  {
    var s' := Apply(reg, s, step);
    match e
    case Granted(a, _, _) => assert RowOk(s.st, a); RowFollows(reg, s, step, a);
    case Declined(a, _) => assert RowOk(s.st, a); RowFollows(reg, s, step, a);
    case Lapsed(a) => assert RowOk(s.st, a); RowFollows(reg, s, step, a);
    case Withdrawn(r, _) =>
      RunFollows(reg, s, step, r);
      forall a | a in s'.st.actions && s'.st.actions[a].run == r ensures !OpenAction(s'.st.actions[a]) {
        if a in s.st.actions { assert RowOk(s.st, a); RowFollows(reg, s, step, a); } else { OverGetsNone(reg, s, step, a); }
      }
    case _ =>
  }

  lemma StepTaken(reg: Registry, s: Sys, step: Step, l: set<Entry>, l': set<Entry>)
    requires SysInv(reg, s) && Backed(reg, s, l) && AllTaken(s, l) && l' == l + Notes(reg, s, step)
    ensures AllTaken(Apply(reg, s, step), l')
  {
    forall e | e in l' ensures EntryTaken(Apply(reg, s, step), l', e) {
      if e in l {
        assert EntryTaken(s, l, e);
        if e.Granted? || e.Declined? || e.Lapsed? { DecisionStays(reg, s, step, l, l', e); }
        else if e.Withdrawn? { WithdrawalStays(reg, s, step, l, l', e); }
      } else {
        NoteTaken(reg, s, step, l', e);
      }
    }
  }

  lemma {:induction false} BookIsTaken(reg: Registry, schedule: seq<Step>)
    ensures AllTaken(Exec(reg, schedule), Book(reg, schedule))
  {
    if schedule != [] {
      var front, step := schedule[..|schedule| - 1], schedule[|schedule| - 1];
      BookIsTaken(reg, front);
      BookBacks(reg, front);
      Invariant(reg, front);
      StepTaken(reg, Exec(reg, front), step, Book(reg, front), Book(reg, schedule));
    }
  }

  /**
   An action's status is exactly what was decided about it: pending while nothing was, approved and
   beyond if and only if it was granted and neither found late nor withdrawn, and so on.
   */
  lemma StatusIsDecided(reg: Registry, schedule: seq<Step>, a: nat)
    requires a in Exec(reg, schedule).st.actions
    ensures var x, l := Exec(reg, schedule).st.actions[a], Book(reg, schedule);
            var granted := Granted(a, x.creator, x.edited) in l;
            && (x.status.Pending? <==> !granted && Declined(a, x.creator) !in l && Lapsed(a) !in l && Withdrawn(x.run, x.creator) !in l)
            && (x.status.Approved? || x.status.Executed? || x.status.Failed? ==> granted)
            && (x.status.Rejected? ==> Declined(a, x.creator) in l || Withdrawn(x.run, x.creator) in l)
            && (x.status.Expired? ==> Lapsed(a) in l || (granted && Late(a) in l))
            && (Declined(a, x.creator) in l ==> x.status.Rejected?)
            && (Lapsed(a) in l ==> x.status.Expired?)
            && (granted && Withdrawn(x.run, x.creator) !in l && Late(a) !in l ==> x.status.Approved? || x.status.Executed? || x.status.Failed?)
  {
    var s, l := Exec(reg, schedule), Book(reg, schedule);
    BookBacks(reg, schedule);
    BookIsTaken(reg, schedule);
    var x := s.st.actions[a];
    assert RowBacked(s, l, a);
    assert Granted(a, x.creator, x.edited) in l ==> EntryTaken(s, l, Granted(a, x.creator, x.edited));
    assert Declined(a, x.creator) in l ==> EntryTaken(s, l, Declined(a, x.creator));
    assert Lapsed(a) in l ==> EntryTaken(s, l, Lapsed(a));
    assert Withdrawn(x.run, x.creator) in l ==> EntryTaken(s, l, Withdrawn(x.run, x.creator));
  }

  // ---- what a cancelled run keeps ---------------------------------------------

  ghost predicate IsCancelled(st: Store, r: nat) {
    r in st.runs && st.runs[r].status.Cancelled?
  }

  /** Step k cancels r: its owner withdraws it while it is paused, or its goroutine ends it as cancelled. */
  ghost predicate CancelledAt(reg: Registry, schedule: seq<Step>, k: nat, r: nat) {
    && k < |schedule| && !IsCancelled(Exec(reg, schedule[..k]).st, r) && IsCancelled(Exec(reg, schedule[..k + 1]).st, r)
    && (Cancels(Exec(reg, schedule[..k]), schedule[k], r) || Ends(Exec(reg, schedule[..k]), schedule[k], r))
  }

  lemma CancellingStep(reg: Registry, s: Sys, step: Step, r: nat)
    requires SysInv(reg, s) && !IsCancelled(s.st, r) && IsCancelled(Apply(reg, s, step).st, r)
    ensures Cancels(s, step, r) || Ends(s, step, r)
  {
    if r in s.st.runs {
      RunFollows(reg, s, step, r);
    } else {
      NewRunRuns(reg, s, step, r);
    }
  }

  /** A run that appears is running. */
  lemma NewRunRuns(reg: Registry, s: Sys, step: Step, r: nat)
    requires SysInv(reg, s) && r !in s.st.runs
    ensures r in Apply(reg, s, step).st.runs ==> Apply(reg, s, step).st.runs[r].status.Running?
  {
    match step
    case Begin(_, _) =>
    case Turn(_, _, _) => if Parks(reg, s, step) { ParkingTurn(reg, s, step); } else { TurnAddsNoRun(reg, s, step); }
    case EndRun(p) => if p in s.procs { assert ProcOk(s, p); }
    case CancelRun(_, _) =>
    case Decide(_, _, _, _, _) => DecideReleases(reg, s, step);
    case Sweep(_) => SweepReleases(reg, s, step);
    case Restart =>
    case _ => OtherStatus(reg, s, step);
  }

  lemma {:induction false} WhenCancelled(reg: Registry, schedule: seq<Step>, r: nat) returns (k: nat)
    requires IsCancelled(Exec(reg, schedule).st, r)
    ensures CancelledAt(reg, schedule, k, r)
  {
    var m := |schedule| - 1;
    Invariant(reg, schedule[..m]);
    if IsCancelled(Exec(reg, schedule[..m]).st, r) {
      k := WhenCancelled(reg, schedule[..m], r);
      PrefixExec(reg, schedule, m, k);
      PrefixExec(reg, schedule, m, k + 1);
    } else {
      CancellingStep(reg, Exec(reg, schedule[..m]), schedule[m], r);
      assert schedule[..m + 1] == schedule;
      k := m;
    }
  }

  /** The approved actions of a run. */
  ghost predicate KeepsApproval(st: Store, r: nat) {
    exists a :: a in st.actions && st.actions[a].run == r && st.actions[a].status.Approved?
  }

  lemma OverKeeps(reg: Registry, s: Sys, step: Step, r: nat)
    requires SysInv(reg, s) && IsCancelled(s.st, r)
    ensures IsCancelled(Apply(reg, s, step).st, r)
    ensures KeepsApproval(Apply(reg, s, step).st, r) <==> KeepsApproval(s.st, r)
  {
    var st' := Apply(reg, s, step).st;
    OverIsOver(reg, s, step, r);
    forall a | a in s.st.actions && s.st.actions[a].run == r ensures a in st'.actions && st'.actions[a] == s.st.actions[a] {
      assert RowOk(s.st, a);
      OverRowsStay(reg, s, step, a);
    }
    forall a | a in st'.actions && st'.actions[a].run == r ensures a in s.st.actions && s.st.actions[a] == st'.actions[a] {
      if a in s.st.actions {
        assert RowOk(s.st, a);
        RowFollows(reg, s, step, a);
      } else {
        OverGetsNone(reg, s, step, a);
      }
    }
  }

  lemma {:induction false} OverKeepsOn(reg: Registry, schedule: seq<Step>, k: nat, r: nat)
    requires k <= |schedule| && IsCancelled(Exec(reg, schedule[..k]).st, r)
    ensures IsCancelled(Exec(reg, schedule).st, r)
    ensures KeepsApproval(Exec(reg, schedule).st, r) <==> KeepsApproval(Exec(reg, schedule[..k]).st, r)
  {
    if k == |schedule| {
      assert schedule[..k] == schedule;
    } else {
      var m := |schedule| - 1;
      PrefixExec(reg, schedule, m, k);
      OverKeepsOn(reg, schedule[..m], k, r);
      Invariant(reg, schedule[..m]);
      OverKeeps(reg, Exec(reg, schedule[..m]), schedule[m], r);
    }
  }

  /** Ending its run, a goroutine leaves the rows alone. */
  lemma EndKeepsRows(reg: Registry, s: Sys, step: Step)
    requires step.EndRun?
    ensures Apply(reg, s, step).st.actions == s.st.actions
  {
  }

  /** The owner's cancellation leaves nothing that could still run. */
  lemma CancelOpensNothing(reg: Registry, s: Sys, step: Step, r: nat)
    requires SysInv(reg, s) && Cancels(s, step, r)
    ensures NothingOpen(Apply(reg, s, step).st, r)
  {
    var st' := Apply(reg, s, step).st;
    KeysStay(reg, s, step);
    forall a | a in st'.actions && st'.actions[a].run == r ensures !OpenAction(st'.actions[a]) {
      assert RowOk(s.st, a);
      RowFollows(reg, s, step, a);
    }
  }

  /** The step that cancels leaves an approval exactly if it is the goroutine's own end and there was one. */
  lemma CancellingKeeps(reg: Registry, s: Sys, step: Step, r: nat)
    requires SysInv(reg, s) && r in s.st.runs && (Cancels(s, step, r) || Ends(s, step, r))
    ensures KeepsApproval(Apply(reg, s, step).st, r) <==> step.EndRun? && KeepsApproval(s.st, r)
  {
    if step.EndRun? { EndKeepsRows(reg, s, step); } else { CancelOpensNothing(reg, s, step, r); }
  }

  /**
   A cancelled run has no pending action. It has an approved one exactly when it was not its owner
   who withdrew it while it was paused, but its goroutine that ended it with an approval unused.
   */
  lemma CancelledRunsExactly(reg: Registry, schedule: seq<Step>, r: nat) returns (k: nat)
    requires IsCancelled(Exec(reg, schedule).st, r)
    ensures CancelledAt(reg, schedule, k, r)
    ensures !AwaitsDecision(Exec(reg, schedule).st, r)
    ensures KeepsApproval(Exec(reg, schedule).st, r) <==> schedule[k].EndRun? && KeepsApproval(Exec(reg, schedule[..k]).st, r)
  {
    k := WhenCancelled(reg, schedule, r);
    Invariant(reg, schedule);
    assert RunOk(Exec(reg, schedule).st, r);
    Invariant(reg, schedule[..k]);
    NextState(reg, schedule, k);
    CancellingKeeps(reg, Exec(reg, schedule[..k]), schedule[k], r);
    OverKeepsOn(reg, schedule, k + 1, r);
  }

  /** The second way is real: a resume that is stopped before it comes to its approved call leaves the approval behind. */
  lemma StopKeepsApproval(reg: Registry) returns (s: Sys)
    requires reg == map["pause" := Tool("pause", Consequential, "")]
    ensures Reachable(reg, s) && IsCancelled(s.st, 0) && KeepsApproval(s.st, 0)
  {
    LatePrefix(reg);
    s := Exec(reg, LateSchedule[..3]);
    assert Reachable(reg, s);
    assert s.st.actions[2].status.Approved? && s.st.actions[2].run == 0;
    s := StopAndEnd(reg, s, 1);
  }

  lemma Aborted(reg: Registry, s: Sys, p: nat)
    requires p in s.procs && s.procs[p].pc.Claimed?
    ensures Apply(reg, s, Abort(p, true)) == Goto(s, p, Finishing(Cancelled))
  {
  }

  lemma EndedCancelled(reg: Registry, s: Sys, p: nat)
    requires p in s.procs && s.procs[p].pc == Finishing(Cancelled)
    requires s.procs[p].run in s.st.runs && s.st.runs[s.procs[p].run].status.Running?
    ensures var st' := Apply(reg, s, EndRun(p)).st; st'.actions == s.st.actions && IsCancelled(st', s.procs[p].run)
  {
  }

  lemma StopAndEnd(reg: Registry, s: Sys, p: nat) returns (t: Sys)
    requires Reachable(reg, s) && p in s.procs && s.procs[p].pc.Claimed?
    ensures Reachable(reg, t) && t.st.actions == s.st.actions && IsCancelled(t.st, s.procs[p].run)
  {
    ReachedInv(reg, s);
    assert ProcOk(s, p);
    Aborted(reg, s, p);
    StepReachable(reg, s, Abort(p, true));
    t := Goto(s, p, Finishing(Cancelled));
    EndedCancelled(reg, t, p);
    StepReachable(reg, t, EndRun(p));
    t := Apply(reg, t, EndRun(p));
  }
}
