/** The promises of the approval queue, over every schedule of steps, failures and crashes. */
module ApprovalTheorems {
  import opened Wrappers
  import opened ToolGate
  import opened ApprovalStore
  import opened StoreInvariants
  import opened ApprovalProtocol
  import opened ApprovalSafety

  /** Some schedule leads to this state. */
  ghost predicate Reachable(reg: Registry, s: Sys) {
    exists schedule: seq<Step> :: s == Exec(reg, schedule)
  }

  lemma ReachedInv(reg: Registry, s: Sys)
    requires Reachable(reg, s)
    ensures SysInv(reg, s)
  {
    var schedule: seq<Step> :| s == Exec(reg, schedule);
    Invariant(reg, schedule);
  }

  /**
   The gate over a whole message. What is parked is exactly what the actor can see and needs
   approval, each with the full window, and the ordinary path would refuse it. When nothing is
   parked, the ordinary path reaches exactly the calls of visible tools that need no approval.
   */
  lemma {:induction false} GateIsComplete(reg: Registry, role: string, calls: seq<Call>, now: int)
    ensures var requests := Requests(reg, role, calls, now);
            && (forall r :: r in requests ==>
                  r.call in calls && r.expiresAt == now + ApprovalWindow && OrdinaryRoute(reg, role, r.call.tool, r.call.arguments).Refused?)
            && (forall c :: c in calls ==>
                  (Request(c, now + ApprovalWindow) in requests <==> Visible(reg, role, c.tool) && reg[c.tool].risk.NeedsApproval()))
            && (forall c :: c in calls && Request(c, now + ApprovalWindow) !in requests ==>
                  (OrdinaryRoute(reg, role, c.tool, c.arguments).Reach? <==>
                   Visible(reg, role, c.tool) && !reg[c.tool].risk.NeedsApproval() && !c.arguments.Other?))
  {
    if calls != [] {
      var last := calls[|calls| - 1];
      GateIsComplete(reg, role, calls[..|calls| - 1], now);
      GateAgrees(reg, role, last.tool, last.arguments);
      assert calls == calls[..|calls| - 1] + [last];
    }
  }

  /** No call of any message, gated or not, is ever run twice. */
  lemma AtMostOnce(reg: Registry, s: Sys, j: nat, k: nat)
    requires Reachable(reg, s)
    requires var h := s.history; j < k < |h| && h[j].DispatchedEvent? && h[k].DispatchedEvent?
    ensures var h := s.history; (h[j].run, h[j].message, h[j].call) != (h[k].run, h[k].message, h[k].call)
  {
    ReachedInv(reg, s);
    assert OnceEach(s.history, j, k);
  }

  /**
   A tool that needs approval runs only after its own user approved this tool with these
   arguments, and only when the deadline check made after that decision found it unexpired.
   */
  lemma Consent(reg: Registry, s: Sys, k: nat)
    requires Reachable(reg, s)
    requires var h := s.history; k < |h| && h[k].DispatchedEvent?
    ensures var h := s.history;
            (h[k].tool in reg && reg[h[k].tool].risk.NeedsApproval()) || h[k].consent.Some? ==>
              exists j :: 0 <= j < k && Grants(h[j], h[k])
  {
    ReachedInv(reg, s);
    assert EventOk(reg, s.history, k, s.st.nextId);
  }

  /** A live run is paused exactly while one of its actions awaits a decision. */
  lemma PausedExactlyWhilePending(reg: Registry, s: Sys, run: nat)
    requires Reachable(reg, s)
    requires run in s.st.runs
    ensures var st := s.st; st.runs[run].status.PausedApproval? <==> AwaitsDecision(st, run)
  {
    ReachedInv(reg, s);
    assert RunOk(s.st, run);
  }

  /** The resume of a pause is claimed at most once, after the pause, with that pause's own message. */
  lemma OneClaimPerPause(reg: Registry, s: Sys, j: nat, k: nat)
    requires Reachable(reg, s)
    requires var h := s.history; j < k < |h| && h[k].ClaimedEvent?
    ensures var h := s.history;
            && h[j] != h[k] && ParkedEvent(h[k].run, h[k].message) in h[..k]
  {
    ReachedInv(reg, s);
    assert OnceEach(s.history, j, k) && EventOk(reg, s.history, k, s.st.nextId);
    var i :| 0 <= i < k && s.history[i] == ParkedEvent(s.history[k].run, s.history[k].message);
    assert s.history[..k][i] == ParkedEvent(s.history[k].run, s.history[k].message);
  }

  /**
   The resume of a pause no action of which is pending any more was claimed, unless its run was
   cancelled; while one is pending it was not. `ApprovalSweep` says when a claim reaches nobody.
   */
  lemma NoPauseIsForgotten(reg: Registry, s: Sys, k: nat)
    requires Reachable(reg, s)
    requires var h := s.history; k < |h| && h[k].ParkedEvent?
    ensures var e := s.history[k];
            && e.run in s.st.runs
            && (StillParked(s.st, e.run, e.message) || ClaimedEvent(e.run, e.message) in s.history || s.st.runs[e.run].status.Cancelled?)
            && (StillParked(s.st, e.run, e.message) ==> ClaimedEvent(e.run, e.message) !in s.history)
  {
    ReachedInv(reg, s);
    var e := s.history[k];
    assert PauseOk(s, k);
    if StillParked(s.st, e.run, e.message) {
      var a :| a in s.st.actions && s.st.actions[a].run == e.run && s.st.actions[a].message == e.message && s.st.actions[a].status.Pending?;
      assert WaitOk(s, a);
    }
  }

  /** Until the last action of a parked message is decided, none of the message's calls has run. */
  lemma NothingRunsWhileParked(reg: Registry, s: Sys, a: nat, k: nat)
    requires Reachable(reg, s)
    requires a in s.st.actions && s.st.actions[a].status.Pending? && k < |s.history|
    requires s.history[k].DispatchedEvent?
    ensures s.history[k].run != s.st.actions[a].run || s.history[k].message != s.st.actions[a].message
  {
    ReachedInv(reg, s);
    assert WaitOk(s, a);
  }

  /** At most one goroutine ever holds a run, and the run it holds is running. */
  lemma OneGoroutinePerRun(reg: Registry, s: Sys, p: nat, q: nat)
    requires Reachable(reg, s)
    requires p in s.procs && q in s.procs && p != q
    ensures s.procs[p].run != s.procs[q].run
    ensures s.procs[p].run in s.st.runs && s.st.runs[s.procs[p].run].status.Running?
            && s.procs[p].user == s.st.runs[s.procs[p].run].owner
  {
    ReachedInv(reg, s);
    assert Apart(s, p, q) && ProcOk(s, p);
  }

  /** A resume always finds its batch, and every action in it is decided and not yet settled. */
  lemma ResumeFindsDecisions(reg: Registry, s: Sys, p: nat)
    requires Reachable(reg, s)
    requires p in s.procs && s.procs[p].pc.Claimed?
    ensures var batch := LoadBatch(s.st, s.procs[p].run, s.procs[p].pc.message);
            && batch.Success?
            && forall i :: 0 <= i < |batch.value| && batch.value[i].action.Some? ==> Decision(batch.value[i].action.value.row.status)
  {
    ReachedInv(reg, s);
    LoadKeeps(reg, s, p);
    assert ProcOk(s, p);
  }

  /** So the branch that cannot resume an action, and the one that skips a settled action, are never reached. */
  lemma ResumeNeverStuck(reg: Registry, s: Sys, p: nat)
    requires Reachable(reg, s)
    requires p in s.procs && s.procs[p].pc.Resuming? && s.procs[p].pc.i < |s.procs[p].pc.batch|
    ensures var pc := s.procs[p].pc;
            pc.batch[pc.i].action.Some? ==> Decision(pc.batch[pc.i].action.value.row.status)
  {
    ReachedInv(reg, s);
    assert ProcOk(s, p);
    assert LinkOk(s.st, s.procs[p].run, s.procs[p].pc.message, s.procs[p].pc.batch[s.procs[p].pc.i]);
  }

  /** An outcome is always recorded on a row that is still approved, so its audit row tells the truth. */
  lemma OutcomeHitsItsRow(reg: Registry, s: Sys, p: nat)
    requires Reachable(reg, s)
    requires p in s.procs && s.procs[p].pc.Settling?
    ensures var pc := s.procs[p].pc;
            && pc.i < |pc.batch| && pc.batch[pc.i].action.Some?
            && var id := pc.batch[pc.i].action.value.id;
               id in s.st.actions && s.st.actions[id].status.Approved? && id in s.st.audit
               && RecordOutcome(s.st, id, pc.outcome).actions[id].status == pc.outcome
  {
    ReachedInv(reg, s);
    SettlingIsApproved(reg, s, p);
    assert RowOk(s.st, s.procs[p].pc.batch[s.procs[p].pc.i].action.value.id);
  }

  /** Replaying an action's audit trail gives its current status, by lawful steps only. */
  lemma AuditTrailReplays(reg: Registry, s: Sys, a: nat)
    requires Reachable(reg, s)
    requires a in s.st.actions
    ensures var st := s.st; a in st.audit && Replay(st.audit[a]) == At(st.actions[a].status)
  {
    ReachedInv(reg, s);
    assert RowOk(s.st, a);
  }

  /** A lawful history is short: created, then decided, then settled or revoked. */
  lemma {:induction false} LawfulHistories(rows: seq<AuditEvent>)
    requires Replay(rows).At?
    ensures 1 <= |rows| <= 3 && rows[0] == Created
    ensures |rows| >= 2 ==> rows[1].Became? && Decision(rows[1].status)
    ensures |rows| == 3 ==> rows[1].status.Approved? && rows[2].Became?
                            && (rows[2].status.Executed? || rows[2].status.Failed? || rows[2].status.Expired? || rows[2].status.Rejected?)
  {
    var before := rows[..|rows| - 1];
    if before != [] {
      assert Replay(before).At?;
      LawfulHistories(before);
    }
  }

  // ---- a promise the code does not keep ---------------------------------------

  const Pausing := Call("call-1", "pause", Object("{}"))

  const LateSchedule: seq<Step> := [
    Begin(7, "owner"), Turn(0, [Pausing], false), Decide(7, "owner", 2, true, Absent), Load(1), ResumeCall(1, true),
    Tick(ApprovalWindow), RunApproved(1, Ran)]

  lemma NextState(reg: Registry, schedule: seq<Step>, k: nat)
    requires k < |schedule|
    ensures Exec(reg, schedule[..k + 1]) == Apply(reg, Exec(reg, schedule[..k]), schedule[k])
  {
    assert schedule[..k + 1][..k] == schedule[..k];
  }

  lemma LatePause(reg: Registry, s1: Sys, s2: Sys)
    requires reg == map["pause" := Tool("pause", Consequential, "")]
    requires s1.procs == map[0 := Proc(0, 7, "owner", Looping(0))] && s1.st == Store(map[0 := Run(7, Running)], map[], map[], map[], 1) && s1.now == 0
    requires s2 == DoTurn(reg, s1, 0, 0, [Pausing], false)
    ensures s2.procs == map[] && s2.now == 0 && s2.nextProc == s1.nextProc && s2.history == s1.history + [ParkedEvent(0, 1)]
    ensures s2.st == Store(map[0 := Run(7, PausedApproval)], map[1 := Message(0, [Pausing])],
                           map[2 := Action(0, 1, 7, "owner", Pausing, Absent, Pending, None, ApprovalWindow)], map[2 := [Created]], 3)
  {
    var request := Request(Pausing, ApprovalWindow);
    assert [Pausing][..0] == [];
    assert Requests(reg, "owner", [], 0) == [];
    assert Parked(reg, "owner", "pause");
    assert Requests(reg, "owner", [Pausing], 0) == [request];
    var mid := ParkedRun(s1.st, 0, [Pausing]);
    assert [request][..0] == [];
    assert InsertActions(mid, 7, "owner", 0, 1, []) == Success(mid);
    assert [Pausing][0].id == request.call.id;
    assert InsertActions(mid, 7, "owner", 0, 1, [request]) == InsertAction(mid, 7, "owner", 0, 1, request);
    assert !CallTaken(mid, 0, "call-1");
  }

  /** The owner approves the parked action before its deadline. */
  lemma LateDecide(reg: Registry, s2: Sys, s3: Sys)
    requires reg == map["pause" := Tool("pause", Consequential, "")]
    requires s2.procs == map[] && s2.now == 0 && s2.nextProc == 1
    requires s2.st == Store(map[0 := Run(7, PausedApproval)], map[1 := Message(0, [Pausing])],
                            map[2 := Action(0, 1, 7, "owner", Pausing, Absent, Pending, None, ApprovalWindow)], map[2 := [Created]], 3)
    requires |s2.history| == 1 && s2.history[0].ParkedEvent?
    requires s3 == DoDecide(reg, s2, 7, "owner", 2, true, Absent)
    ensures s3.procs == map[1 := Proc(0, 7, "owner", Claimed(1))] && s3.now == 0
    ensures s3.st.messages == map[1 := Message(0, [Pausing])]
    ensures s3.st.actions == map[2 := Action(0, 1, 7, "owner", Pausing, Absent, Approved, Some(7), ApprovalWindow)]
    ensures |s3.history| == 3 && s3.history[0].ParkedEvent? && s3.history[2].ClaimedEvent?
    ensures s3.history[1].DecidedEvent? && s3.history[1].expiresAt == ApprovalWindow
  {
  }

  lemma LateBegin(reg: Registry, s1: Sys)
    requires s1 == Exec(reg, LateSchedule[..1])
    ensures s1 == DoBegin(Init, 7, "owner")
  {
    NextState(reg, LateSchedule, 0);
    assert LateSchedule[..0] == [];
  }

  lemma LateSteps(reg: Registry)
    ensures Exec(reg, LateSchedule[..2]) == Apply(reg, Exec(reg, LateSchedule[..1]), Turn(0, [Pausing], false))
    ensures Exec(reg, LateSchedule[..3]) == Apply(reg, Exec(reg, LateSchedule[..2]), Decide(7, "owner", 2, true, Absent))
  {
    NextState(reg, LateSchedule, 1);
    NextState(reg, LateSchedule, 2);
  }

  lemma LateTurn(reg: Registry, s1: Sys)
    requires reg == map["pause" := Tool("pause", Consequential, "")] && s1 == DoBegin(Init, 7, "owner")
    ensures var s2 := Apply(reg, s1, Turn(0, [Pausing], false));
            && s2.procs == map[] && s2.now == 0 && s2.nextProc == 1
            && s2.st == Store(map[0 := Run(7, PausedApproval)], map[1 := Message(0, [Pausing])],
                              map[2 := Action(0, 1, 7, "owner", Pausing, Absent, Pending, None, ApprovalWindow)], map[2 := [Created]], 3)
            && |s2.history| == 1 && s2.history[0].ParkedEvent?
  {
    LatePause(reg, s1, Apply(reg, s1, Turn(0, [Pausing], false)));
  }

  lemma LatePrefix(reg: Registry)
    requires reg == map["pause" := Tool("pause", Consequential, "")]
    ensures var s := Exec(reg, LateSchedule[..3]);
            && s.procs == map[1 := Proc(0, 7, "owner", Claimed(1))] && s.now == 0
            && s.st.messages == map[1 := Message(0, [Pausing])]
            && s.st.actions == map[2 := Action(0, 1, 7, "owner", Pausing, Absent, Approved, Some(7), ApprovalWindow)]
            && |s.history| == 3 && s.history[0].ParkedEvent? && s.history[2].ClaimedEvent?
            && s.history[1].DecidedEvent? && s.history[1].expiresAt == ApprovalWindow
  {
    LateSteps(reg);
    LateBegin(reg, Exec(reg, LateSchedule[..1]));
    LateTurn(reg, Exec(reg, LateSchedule[..1]));
    LateDecide(reg, Exec(reg, LateSchedule[..2]), Exec(reg, LateSchedule[..3]));
  }

  lemma LateBatch(st: Store)
    requires st.messages == map[1 := Message(0, [Pausing])]
    requires st.actions == map[2 := Action(0, 1, 7, "owner", Pausing, Absent, Approved, Some(7), ApprovalWindow)]
    ensures LoadBatch(st, 0, 1) == Success([BatchCall(Pausing, Some(Linked(2, st.actions[2])))])
  {
    assert Pairs(st, 0, 1, "call-1", 2);
    assert st.actions[2].message == 1;
    var batch := LoadBatch(st, 0, 1).value;
    assert |batch| == 1 && batch[0] == BatchCall(Pausing, Some(Linked(2, st.actions[2])));
    assert batch == [BatchCall(Pausing, Some(Linked(2, st.actions[2])))];
  }

  /** From the claimed resume on: load, check the deadline, let the window pass, run the tool. */
  lemma LateSuffix(reg: Registry, s: Sys)
    requires reg == map["pause" := Tool("pause", Consequential, "")]
    requires s.procs == map[1 := Proc(0, 7, "owner", Claimed(1))] && s.now == 0
    requires s.st.messages == map[1 := Message(0, [Pausing])]
    requires s.st.actions == map[2 := Action(0, 1, 7, "owner", Pausing, Absent, Approved, Some(7), ApprovalWindow)]
    ensures var s' := Apply(reg, Apply(reg, Apply(reg, Apply(reg, s, Load(1)), ResumeCall(1, true)), Tick(ApprovalWindow)), RunApproved(1, Ran));
            && |s'.history| == |s.history| + 1 && s'.history[..|s.history|] == s.history
            && s'.history[|s.history|].DispatchedEvent? && s'.history[|s.history|].at == ApprovalWindow
            && s'.history[|s.history|].consent == Some(2) && s'.st == s.st
  {
    LateBatch(s.st);
    var batch := [BatchCall(Pausing, Some(Linked(2, s.st.actions[2])))];
    var s4 := Apply(reg, s, Load(1));
    assert s4 == Goto(s, 1, Resuming(1, batch, 0));
    var s5 := Apply(reg, s4, ResumeCall(1, true));
    assert s5 == Goto(s4, 1, Cleared(1, batch, 0, 0));
    var s6 := Apply(reg, s5, Tick(ApprovalWindow));
    var s' := Apply(reg, s6, RunApproved(1, Ran));
    assert s' == DoRunApproved(reg, s6, 1, 1, batch, 0, 0, Ran);
  }

  lemma LateTail(reg: Registry)
    ensures Exec(reg, LateSchedule) ==
            Apply(reg, Apply(reg, Apply(reg, Apply(reg, Exec(reg, LateSchedule[..3]), Load(1)), ResumeCall(1, true)), Tick(ApprovalWindow)), RunApproved(1, Ran))
  {
    NextState(reg, LateSchedule, 3);
    NextState(reg, LateSchedule, 4);
    NextState(reg, LateSchedule, 5);
    NextState(reg, LateSchedule, 6);
    assert LateSchedule[..7] == LateSchedule;
  }

  lemma LateHistory(reg: Registry)
    requires reg == map["pause" := Tool("pause", Consequential, "")]
    ensures var h := Exec(reg, LateSchedule).history;
            && |h| == 4 && h[0].ParkedEvent? && h[1].DecidedEvent? && h[1].expiresAt == ApprovalWindow && h[2].ClaimedEvent?
            && h[3].DispatchedEvent? && h[3].at == ApprovalWindow && h[3].consent == Some(2)
    ensures var st := Exec(reg, LateSchedule).st; 2 in st.actions && st.actions[2].expiresAt == ApprovalWindow
  {
    LatePrefix(reg);
    var s := Exec(reg, LateSchedule[..3]);
    LateSuffix(reg, s);
    LateTail(reg);
    var h := Exec(reg, LateSchedule).history;
    assert forall k :: 0 <= k < 3 ==> h[..3][k] == h[k];
  }

  /**
   The deadline is checked before the tool is run, not while it runs: a tool can be dispatched
   after its approval expired, when the clock passes the deadline between the two.
   */
  lemma DispatchCanBeLate(reg: Registry)
    requires reg == map["pause" := Tool("pause", Consequential, "")]
    ensures var h := Exec(reg, LateSchedule).history;
            exists j, k :: 0 <= j < k < |h| && Grants(h[j], h[k]) && h[j].expiresAt <= h[k].at
  {
    LateHistory(reg);
    Consent(reg, Exec(reg, LateSchedule), 3);
  }
}
