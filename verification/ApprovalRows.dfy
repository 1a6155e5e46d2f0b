/**
 What each step makes of an action's row, written down from the request that was made and the
 rows as they stood, without the transactions that carry it out.
 */
module ApprovalRows {
  import opened Wrappers
  import opened ToolGate
  import opened ApprovalStore
  import opened StoreInvariants
  import opened ApprovalProtocol
  import opened ApprovalSafety

  /** An approval is taken only of arguments its tool would accept from this role; edits are an object or absent. */
  predicate Acceptable(reg: Registry, x: Action, role: string, approve: bool, edited: Json) {
    && !edited.Other?
    && (approve ==> Visible(reg, role, x.call.tool) && (if edited.Absent? then x.call.arguments else edited).Object?)
  }

  /** The owner's decision reaches the row: it is still pending, and the request is in order. */
  predicate Decides(reg: Registry, s: Sys, step: Step, a: nat) {
    && step.Decide? && step.id == a && a in s.st.actions && s.st.actions[a].status.Pending?
    && s.st.actions[a].creator == step.user && Acceptable(reg, s.st.actions[a], step.role, step.approve, step.edited)
  }

  /** The owner cancels the paused run of the action while it is pending or approved. */
  predicate Revokes(s: Sys, step: Step, a: nat) {
    && step.CancelRun? && a in s.st.actions && s.st.actions[a].run == step.run
    && step.run in s.st.runs && s.st.runs[step.run] == Run(step.user, PausedApproval)
    && (s.st.actions[a].status.Pending? || s.st.actions[a].status.Approved?)
  }

  /** A goroutine writes the outcome of the call it has just dealt with. */
  predicate Settles(s: Sys, step: Step, a: nat) {
    && step.Settle? && step.ok && step.p in s.procs && s.procs[step.p].pc.Settling?
    && var pc := s.procs[step.p].pc;
       pc.i < |pc.batch| && pc.batch[pc.i].action.Some? && pc.batch[pc.i].action.value.id == a
  }

  /** The deadline has come when an action that nobody decided is looked at. */
  predicate Overtakes(reg: Registry, s: Sys, step: Step, a: nat) {
    && a in s.st.actions && s.st.actions[a].status.Pending? && s.st.actions[a].expiresAt <= s.now
    && (Decides(reg, s, step, a) || (step.Sweep? && step.id == a))
  }

  /** The row after the step. */
  ghost function NextRow(reg: Registry, s: Sys, step: Step, a: nat): Action
    requires a in s.st.actions
  {
    var x := s.st.actions[a];
    if Overtakes(reg, s, step, a) then x.(status := Expired, edited := Absent, decidedBy := None)
    else if Decides(reg, s, step, a) then
      Action(x.run, x.message, x.creator, step.role, x.call, step.edited, if step.approve then Approved else Rejected, Some(step.user), x.expiresAt)
    else if Revokes(s, step, a) then x.(status := Rejected, decidedBy := Some(step.user))
    else if Settles(s, step, a) then x.(status := s.procs[step.p].pc.outcome)
    else x
  }

  /** The step settles something about the action, so its trail grows by one row. */
  predicate Touches(reg: Registry, s: Sys, step: Step, a: nat) {
    Overtakes(reg, s, step, a) || Decides(reg, s, step, a) || Revokes(s, step, a) || Settles(s, step, a)
  }

  /** Row and trail after the step are those of the reference. */
  ghost predicate Follows(reg: Registry, s: Sys, step: Step, a: nat)
    requires a in s.st.actions && a in s.st.audit
  {
    var st' := Apply(reg, s, step).st;
    && a in st'.actions && st'.actions[a] == NextRow(reg, s, step, a)
    && a in st'.audit && st'.audit[a] == s.st.audit[a] + if Touches(reg, s, step, a) then [Became(NextRow(reg, s, step, a).status)] else []
  }

  /** Only a paused run has a pending action. */
  lemma PendingIsPaused(st: Store, a: nat)
    requires StoreInv(st) && a in st.actions
    ensures st.actions[a].run in st.runs && (st.actions[a].status.Pending? ==> st.runs[st.actions[a].run].status.PausedApproval?)
  {
    assert RowOk(st, a) && RunOk(st, st.actions[a].run);
    assert st.actions[a].status.Pending? ==> AwaitsDecision(st, st.actions[a].run);
  }

  /** What is settled belongs to the run of the goroutine that settles it, which is running. */
  lemma SettlesItsOwn(reg: Registry, s: Sys, step: Step, a: nat)
    requires SysInv(reg, s)
    ensures Settles(s, step, a) ==>
              && a in s.st.actions && s.st.actions[a].run == s.procs[step.p].run
              && s.procs[step.p].run in s.st.runs && s.st.runs[s.procs[step.p].run].status.Running?
  {
    if Settles(s, step, a) {
      var q := s.procs[step.p];
      assert ProcOk(s, step.p) && LinkOk(s.st, q.run, q.pc.message, q.pc.batch[q.pc.i]);
    }
  }

  // ---- the steps follow it ---------------------------------------------------

  /** A transition writes one row and one line of its trail, or nothing. */
  lemma TransitionWrites(s: Sys, user: nat, role: string, id: nat, verdict: Status, edited: Json, human: bool)
    requires s.st.actions.Keys == s.st.audit.Keys && !edited.Other?
    ensures var st' := DoTransition(s, user, role, id, verdict, edited, human).st;
            if id in s.st.actions && s.st.actions[id].creator == user && s.st.actions[id].status.Pending? then
              var x' := Decided(s.st.actions[id], user, role, verdict, edited, human, s.now);
              st'.actions == s.st.actions[id := x'] && st'.audit == s.st.audit[id := s.st.audit[id] + [Became(x'.status)]]
            else st'.actions == s.st.actions && st'.audit == s.st.audit
  {
  }

  /** Which decisions are heard at all. */
  lemma DecideHeard(reg: Registry, s: Sys, step: Step)
    requires step.Decide? && (step.id in s.st.actions ==> s.st.actions[step.id].call.arguments.Object?)
    ensures var heard := step.id in s.st.actions && s.st.actions[step.id].creator == step.user
                         && Acceptable(reg, s.st.actions[step.id], step.role, step.approve, step.edited);
            Apply(reg, s, step) ==
              if heard then DoTransition(s, step.user, step.role, step.id, if step.approve then Approved else Rejected, step.edited, true) else s
  {
  }

  lemma DecideFollows(reg: Registry, s: Sys, step: Step, a: nat)
    requires SysInv(reg, s) && a in s.st.actions && a in s.st.audit && step.Decide?
    ensures Follows(reg, s, step, a)
  {
    if step.id in s.st.actions { assert RowOk(s.st, step.id); }
    DecideHeard(reg, s, step);
    if step.id in s.st.actions && Acceptable(reg, s.st.actions[step.id], step.role, step.approve, step.edited) {
      TransitionWrites(s, step.user, step.role, step.id, if step.approve then Approved else Rejected, step.edited, true);
    }
  }

  /** Which sweeps do anything. */
  lemma SweepHeard(reg: Registry, s: Sys, step: Step)
    requires step.Sweep?
    ensures Apply(reg, s, step) ==
              if Overtakes(reg, s, step, step.id) then DoTransition(s, s.st.actions[step.id].creator, "", step.id, Expired, Absent, false) else s
  {
  }

  lemma SweepFollows(reg: Registry, s: Sys, step: Step, a: nat)
    requires SysInv(reg, s) && a in s.st.actions && a in s.st.audit && step.Sweep?
    ensures Follows(reg, s, step, a)
  {
    SweepHeard(reg, s, step);
    if Overtakes(reg, s, step, step.id) {
      TransitionWrites(s, s.st.actions[step.id].creator, "", step.id, Expired, Absent, false);
    }
  }

  lemma CancelFollows(reg: Registry, s: Sys, step: Step, a: nat)
    requires SysInv(reg, s) && a in s.st.actions && a in s.st.audit && step.CancelRun?
    ensures Follows(reg, s, step, a)
  {
    assert RowOk(s.st, a);
  }

  lemma SettleFollows(reg: Registry, s: Sys, step: Step, a: nat)
    requires SysInv(reg, s) && a in s.st.actions && a in s.st.audit && step.Settle?
    ensures Follows(reg, s, step, a)
  {
    if step.p in s.procs && s.procs[step.p].pc.Settling? {
      SettlingIsApproved(reg, s, step.p);
      assert RowOk(s.st, s.procs[step.p].pc.batch[s.procs[step.p].pc.i].action.value.id);
    }
  }

  /** A pause only adds rows. */
  lemma TurnAdds(reg: Registry, s: Sys, p: nat, turn: nat, calls: seq<Call>, cutOff: bool, a: nat)
    requires SysInv(reg, s) && a in s.st.actions && a in s.st.audit && p in s.procs
    ensures var st' := DoTurn(reg, s, p, turn, calls, cutOff).st;
            a in st'.actions && st'.actions[a] == s.st.actions[a] && a in st'.audit && st'.audit[a] == s.st.audit[a]
  {
    var q := s.procs[p];
    var requests := Requests(reg, q.role, calls, s.now);
    if Pause(s.st, q.user, q.role, q.run, calls, requests).Success? {
      assert ProcOk(s, p);
      RequestsFrom(reg, q.role, calls, s.now);
      PauseKeeps(s.st, q.user, q.role, q.run, calls, requests);
    }
  }

  lemma TurnFollows(reg: Registry, s: Sys, step: Step, a: nat)
    requires SysInv(reg, s) && a in s.st.actions && a in s.st.audit && step.Turn?
    ensures Follows(reg, s, step, a)
  {
    if step.p in s.procs && s.procs[step.p].pc.Looping? && DistinctIds(step.calls) {
      TurnAdds(reg, s, step.p, s.procs[step.p].pc.turn, step.calls, step.cutOff, a);
    }
    assert s.st.audit[a] + [] == s.st.audit[a];
  }

  /** No other step touches a row. */
  lemma OthersFollow(reg: Registry, s: Sys, step: Step)
    requires !step.Decide? && !step.Sweep? && !step.CancelRun? && !step.Settle? && !step.Turn?
    ensures Apply(reg, s, step).st.actions == s.st.actions && Apply(reg, s, step).st.audit == s.st.audit
  {
  }

  lemma QuietFollows(reg: Registry, s: Sys, step: Step, a: nat)
    requires a in s.st.actions && a in s.st.audit
    requires !step.Decide? && !step.Sweep? && !step.CancelRun? && !step.Settle? && !step.Turn?
    ensures Follows(reg, s, step, a)
  {
    OthersFollow(reg, s, step);
    assert s.st.audit[a] + [] == s.st.audit[a];
  }

  /** Every step leaves every row as the reference says. */
  lemma RowFollows(reg: Registry, s: Sys, step: Step, a: nat)
    requires SysInv(reg, s) && a in s.st.actions && a in s.st.audit
    ensures Follows(reg, s, step, a)
  {
    match step
    case Decide(_, _, _, _, _) => DecideFollows(reg, s, step, a);
    case Sweep(_) => SweepFollows(reg, s, step, a);
    case CancelRun(_, _) => CancelFollows(reg, s, step, a);
    case Settle(_, _) => SettleFollows(reg, s, step, a);
    case Turn(_, _, _) => TurnFollows(reg, s, step, a);
    case _ => QuietFollows(reg, s, step, a);
  }

  // ---- which turns park, and what ---------------------------------------------

  /** The actor sees the call's tool, and the tool needs approval. */
  predicate Gated(reg: Registry, role: string, c: Call) {
    Visible(reg, role, c.tool) && reg[c.tool].risk.NeedsApproval()
  }

  /** The run has an action for this call id already. */
  ghost predicate IdUsed(st: Store, run: nat, id: string) {
    exists a :: a in st.actions && st.actions[a].run == run && st.actions[a].call.id == id
  }

  /** Two of the calls carry one id. */
  ghost predicate Repeats(calls: seq<Call>) {
    exists j, k :: 0 <= j < k < |calls| && calls[j].id == calls[k].id
  }

  /** Within its fifty turns the model asked for calls, some of them gated, and each gated one can be stored. */
  ghost predicate Parks(reg: Registry, s: Sys, step: Step) {
    && step.Turn? && step.p in s.procs && s.procs[step.p].pc.Looping? && s.procs[step.p].pc.turn < 50
    && !Repeats(step.calls) && !step.cutOff
    && var q := s.procs[step.p];
       && (exists k :: 0 <= k < |step.calls| && Gated(reg, q.role, step.calls[k]))
       && (forall k :: 0 <= k < |step.calls| && Gated(reg, q.role, step.calls[k]) ==> Storable(s.st, q.run, step.calls[k]))
  }

  ghost predicate Storable(st: Store, run: nat, c: Call) {
    c.arguments.Object? && !IdUsed(st, run, c.id)
  }

  /** The row a parked call gets. */
  function ParkedRow(q: Proc, message: nat, c: Call, now: int): Action {
    Action(q.run, message, q.user, q.role, c, Absent, Pending, None, now + 86400)
  }

  /** The pending rows of this pause: one for each gated call, no other, each with a fresh trail. */
  ghost predicate RowsParked(reg: Registry, s: Sys, step: Step, st': Store)
    requires step.Turn? && step.p in s.procs
  {
    var q := s.procs[step.p];
    && (forall a :: a in st'.actions && a !in s.st.actions ==>
          && (exists k :: 0 <= k < |step.calls| && Gated(reg, q.role, step.calls[k]) && st'.actions[a] == ParkedRow(q, s.st.nextId, step.calls[k], s.now))
          && a in st'.audit && st'.audit[a] == [Created])
    && (forall k :: 0 <= k < |step.calls| && Gated(reg, q.role, step.calls[k]) ==> RowFor(s, st', ParkedRow(q, s.st.nextId, step.calls[k], s.now)))
  }

  ghost predicate RowFor(s: Sys, st': Store, x: Action) {
    exists a :: a in st'.actions && a !in s.st.actions && st'.actions[a] == x
  }

  lemma GatedIsParked(reg: Registry, role: string, c: Call)
    ensures Parked(reg, role, c.tool) <==> Gated(reg, role, c)
  {
    GateAgrees(reg, role, c.tool, c.arguments);
    if c.tool in reg {
      assert OrdinaryRoute(reg, role, c.tool, c.arguments).Refused? || !reg[c.tool].risk.NeedsApproval() || !Visible(reg, role, c.tool);
    }
  }

  /** No two requests of one pause are for one call. */
  ghost predicate DistinctRequests(requests: seq<Request>) {
    forall j, k :: 0 <= j < k < |requests| ==> requests[j].call.id != requests[k].call.id
  }

  lemma {:induction false} RequestsDistinct(reg: Registry, role: string, calls: seq<Call>, now: int)
    requires DistinctIds(calls)
    ensures DistinctRequests(Requests(reg, role, calls, now))
  {
    if calls != [] {
      var front := calls[..|calls| - 1];
      RequestsDistinct(reg, role, front, now);
      RequestsFrom(reg, role, front, now);
      var before := Requests(reg, role, front, now);
      forall j | 0 <= j < |before| ensures before[j].call.id != calls[|calls| - 1].id {
        var k :| 0 <= k < |front| && front[k] == before[j].call;
        assert calls[k] == front[k];
      }
    }
  }

  ghost predicate Insertable(st: Store, run: nat, message: nat, r: Request) {
    message in st.messages && HasPart(st.messages[message].calls, r.call.id) && Storable(st, run, r.call)
  }

  /** After the other rows are inserted a call id is used exactly if it was before or is one of theirs. */
  lemma UsedAfter(st: Store, st': Store, user: nat, role: string, run: nat, message: nat, requests: seq<Request>, id: string)
    requires Inserted(st, st', user, role, run, message, requests) && forall a :: a in st.actions ==> a < st.nextId
    ensures CallTaken(st', run, id) <==> IdUsed(st, run, id) || exists k :: 0 <= k < |requests| && requests[k].call.id == id
  {
    if CallTaken(st', run, id) {
      var a :| a in st'.actions && st'.actions[a].run == run && st'.actions[a].call.id == id;
      if a in st.actions {
        assert IdUsed(st, run, id);
      } else {
        assert FreshRow(st'.actions[a], user, role, run, message, requests[a - st.nextId]);
      }
    }
    if IdUsed(st, run, id) {
      var a :| a in st.actions && st.actions[a].run == run && st.actions[a].call.id == id;
      assert a in st'.actions && st'.actions[a] == st.actions[a];
    }
    forall k | 0 <= k < |requests| && requests[k].call.id == id ensures CallTaken(st', run, id) {
      assert FreshRow(st'.actions[st.nextId + k], user, role, run, message, requests[st.nextId + k - st.nextId]);
    }
  }

  /** The inserts of a pause go through exactly when each of them could be made alone. */
  lemma {:induction false} InsertsSucceed(st: Store, user: nat, role: string, run: nat, message: nat, requests: seq<Request>)
    requires st.actions.Keys == st.audit.Keys && (forall a :: a in st.actions ==> a < st.nextId) && DistinctRequests(requests)
    ensures InsertActions(st, user, role, run, message, requests).Success? <==>
            forall k :: 0 <= k < |requests| ==> Insertable(st, run, message, requests[k])
  {
    if requests != [] {
      var n := |requests| - 1;
      InsertsSucceed(st, user, role, run, message, requests[..n]);
      if InsertActions(st, user, role, run, message, requests[..n]).Success? {
        InsertActionsFacts(st, user, role, run, message, requests[..n]);
        UsedAfter(st, InsertActions(st, user, role, run, message, requests[..n]).value, user, role, run, message, requests[..n], requests[n].call.id);
      }
    }
  }

  /** The requests of a turn and its gated calls are the same calls. */
  lemma RequestsAreGated(reg: Registry, role: string, calls: seq<Call>, now: int)
    ensures var requests := Requests(reg, role, calls, now);
            && (forall r :: r in requests ==> r.expiresAt == now + 86400 && exists k :: 0 <= k < |calls| && Gated(reg, role, calls[k]) && calls[k] == r.call)
            && (forall k :: 0 <= k < |calls| && Gated(reg, role, calls[k]) ==> Request(calls[k], now + 86400) in requests)
  {
    var requests := Requests(reg, role, calls, now);
    RequestsFrom(reg, role, calls, now);
    forall r | r in requests ensures r.expiresAt == now + 86400 && exists k :: 0 <= k < |calls| && Gated(reg, role, calls[k]) && calls[k] == r.call {
      GatedIsParked(reg, role, r.call);
      var k :| 0 <= k < |calls| && calls[k] == r.call;
      assert Gated(reg, role, calls[k]);
    }
    forall k | 0 <= k < |calls| && Gated(reg, role, calls[k]) ensures Request(calls[k], now + 86400) in requests {
      GatedIsParked(reg, role, calls[k]);
    }
  }

  /** A turn within its limits pauses exactly when it parks. */
  lemma PauseIsParking(reg: Registry, s: Sys, step: Step)
    requires SysInv(reg, s) && step.Turn? && step.p in s.procs && s.procs[step.p].pc.Looping?
    requires s.procs[step.p].pc.turn < 50 && DistinctIds(step.calls) && !step.cutOff
    ensures var q := s.procs[step.p];
            var requests := Requests(reg, q.role, step.calls, s.now);
            Parks(reg, s, step) <==> requests != [] && Pause(s.st, q.user, q.role, q.run, step.calls, requests).Success?
  {
    var q := s.procs[step.p];
    var requests := Requests(reg, q.role, step.calls, s.now);
    assert ProcOk(s, step.p);
    RequestsAreGated(reg, q.role, step.calls, s.now);
    RequestsDistinct(reg, q.role, step.calls, s.now);
    if requests != [] {
      assert requests[0] in requests;
      ParkedInserts(reg, s, q, step.calls, requests);
    }
  }

  /** The message of the pause has every part its requests refer to. */
  lemma ParkedInserts(reg: Registry, s: Sys, q: Proc, calls: seq<Call>, requests: seq<Request>)
    requires SysInv(reg, s) && q.run in s.st.runs && DistinctRequests(requests)
    requires forall r :: r in requests ==> r.call in calls
    ensures InsertActions(ParkedRun(s.st, q.run, calls), q.user, q.role, q.run, s.st.nextId, requests).Success? <==>
            forall r :: r in requests ==> Storable(s.st, q.run, r.call)
  {
    var mid := ParkedRun(s.st, q.run, calls);
    forall a | a in mid.actions ensures a < mid.nextId { assert RowOk(s.st, a); }
    InsertsSucceed(mid, q.user, q.role, q.run, s.st.nextId, requests);
    forall k | 0 <= k < |requests| ensures Insertable(mid, q.run, s.st.nextId, requests[k]) <==> Storable(s.st, q.run, requests[k].call) {
      assert requests[k] in requests;
      var j :| 0 <= j < |calls| && calls[j] == requests[k].call;
      assert HasPart(calls, requests[k].call.id);
      assert IdUsed(mid, q.run, requests[k].call.id) <==> IdUsed(s.st, q.run, requests[k].call.id);
    }
    forall r | r in requests ensures exists k :: 0 <= k < |requests| && requests[k] == r { }
  }

  /** A parking turn is its pause, and the goroutine is gone. */
  lemma ParkingIsPause(reg: Registry, s: Sys, step: Step)
    requires SysInv(reg, s) && Parks(reg, s, step)
    ensures var q, s' := s.procs[step.p], Apply(reg, s, step);
            var r := Pause(s.st, q.user, q.role, q.run, step.calls, Requests(reg, q.role, step.calls, s.now));
            && r.Success? && s'.st == r.value && s'.procs == s.procs - {step.p}
  {
    PauseIsParking(reg, s, step);
  }

  /** A parking turn pauses the run, writes its message and leaves exactly one pending row for each gated call. */
  lemma ParkingTurn(reg: Registry, s: Sys, step: Step)
    requires SysInv(reg, s) && Parks(reg, s, step)
    ensures var q, s' := s.procs[step.p], Apply(reg, s, step);
            && s'.procs == s.procs - {step.p}
            && q.run in s.st.runs && s'.st.runs == s.st.runs[q.run := Run(s.st.runs[q.run].owner, PausedApproval)]
            && s'.st.messages == s.st.messages[s.st.nextId := Message(q.run, step.calls)]
            && RowsParked(reg, s, step, s'.st)
  {
    ParkingIsPause(reg, s, step);
    assert ProcOk(s, step.p);
    PausedRows(reg, s, step, Apply(reg, s, step).st);
  }

  lemma PausedRows(reg: Registry, s: Sys, step: Step, st': Store)
    requires SysInv(reg, s) && step.Turn? && step.p in s.procs && s.procs[step.p].run in s.st.runs
    requires var q := s.procs[step.p];
             && q.user == s.st.runs[q.run].owner
             && var r := Pause(s.st, q.user, q.role, q.run, step.calls, Requests(reg, q.role, step.calls, s.now)); r.Success? && st' == r.value
    ensures RowsParked(reg, s, step, st')
    ensures var q := s.procs[step.p];
            && st'.runs == s.st.runs[q.run := Run(s.st.runs[q.run].owner, PausedApproval)]
            && st'.messages == s.st.messages[s.st.nextId := Message(q.run, step.calls)]
  {
    var q := s.procs[step.p];
    var requests := Requests(reg, q.role, step.calls, s.now);
    RequestsFrom(reg, q.role, step.calls, s.now);
    PauseKeeps(s.st, q.user, q.role, q.run, step.calls, requests);
    forall a | a in s.st.actions ensures a < s.st.nextId { assert RowOk(s.st, a); }
    ParkedRows(reg, s, step, st', requests);
  }

  lemma ParkedRows(reg: Registry, s: Sys, step: Step, st': Store, requests: seq<Request>)
    requires step.Turn? && step.p in s.procs && (forall a :: a in s.st.actions ==> a < s.st.nextId)
    requires s.procs[step.p].run in s.st.runs
    requires requests == Requests(reg, s.procs[step.p].role, step.calls, s.now)
    requires PauseEffect(s.st, st', s.procs[step.p].user, s.procs[step.p].role, s.procs[step.p].run, step.calls, requests)
    ensures RowsParked(reg, s, step, st')
  {
    var q, n := s.procs[step.p], s.st.nextId + 1;
    RequestsAreGated(reg, q.role, step.calls, s.now);
    forall a | a in st'.actions && a !in s.st.actions
      ensures exists k :: 0 <= k < |step.calls| && Gated(reg, q.role, step.calls[k]) && st'.actions[a] == ParkedRow(q, s.st.nextId, step.calls[k], s.now)
      ensures a in st'.audit && st'.audit[a] == [Created]
    {
      var r := requests[a - n];
      assert r in requests;
      assert FreshRow(st'.actions[a], q.user, q.role, q.run, s.st.nextId, r);
      var k :| 0 <= k < |step.calls| && Gated(reg, q.role, step.calls[k]) && step.calls[k] == r.call;
    }
    forall k | 0 <= k < |step.calls| && Gated(reg, q.role, step.calls[k])
      ensures RowFor(s, st', ParkedRow(q, s.st.nextId, step.calls[k], s.now))
    {
      var j :| 0 <= j < |requests| && requests[j] == Request(step.calls[k], s.now + 86400);
      assert FreshRow(st'.actions[n + j], q.user, q.role, q.run, s.st.nextId, requests[n + j - n]);
      assert n + j !in s.st.actions;
    }
  }

  /** No other step adds a row or writes a message with parked calls. */
  lemma NothingElseParks(reg: Registry, s: Sys, step: Step)
    requires SysInv(reg, s) && !Parks(reg, s, step)
    ensures Apply(reg, s, step).st.actions.Keys == s.st.actions.Keys && Apply(reg, s, step).st.messages == s.st.messages
  {
    match step
    case Turn(p, calls, cutOff) =>
      if p in s.procs && s.procs[p].pc.Looping? && DistinctIds(calls) && !cutOff && s.procs[p].pc.turn < 50 { PauseIsParking(reg, s, step); }
    case Decide(_, _, _, _, _) => KeysStay(reg, s, step);
    case Sweep(_) => KeysStay(reg, s, step);
    case CancelRun(_, _) => KeysStay(reg, s, step);
    case Settle(_, _) => KeysStay(reg, s, step);
    case _ => OthersFollow(reg, s, step);
  }

  lemma TransitionKeysStay(s: Sys, user: nat, role: string, id: nat, verdict: Status, edited: Json, human: bool)
    ensures var st' := DoTransition(s, user, role, id, verdict, edited, human).st;
            st'.actions.Keys == s.st.actions.Keys && st'.messages == s.st.messages
  {
  }

  lemma CancelKeysStay(reg: Registry, s: Sys, user: nat, run: nat)
    ensures var st' := Apply(reg, s, CancelRun(user, run)).st;
            st'.actions.Keys == s.st.actions.Keys && st'.messages == s.st.messages
  {
  }

  lemma SettleKeysStay(reg: Registry, s: Sys, p: nat, ok: bool)
    ensures var st' := Apply(reg, s, Step.Settle(p, ok)).st;
            st'.actions.Keys == s.st.actions.Keys && st'.messages == s.st.messages
  {
  }

  lemma KeysStay(reg: Registry, s: Sys, step: Step)
    requires StoreInv(s.st) && (step.Decide? || step.Sweep? || step.CancelRun? || step.Settle?)
    ensures Apply(reg, s, step).st.actions.Keys == s.st.actions.Keys && Apply(reg, s, step).st.messages == s.st.messages
  {
    match step
    case Decide(user, role, id, approve, edited) => TransitionKeysStay(s, user, role, id, if approve then Approved else Rejected, edited, true);
    case Sweep(id) => if id in s.st.actions { TransitionKeysStay(s, s.st.actions[id].creator, "", id, Expired, Absent, false); }
    case CancelRun(user, run) => CancelKeysStay(reg, s, user, run);
    case Settle(p, ok) => SettleKeysStay(reg, s, p, ok);
  }
}
