/** What every transaction over the approval tables keeps. */
module StoreInvariants {
  import opened Wrappers
  import opened ToolGate
  import opened ApprovalStore

  ghost predicate RefersTo(st: Store, x: Action) {
    && x.run in st.runs && x.creator == st.runs[x.run].owner
    && x.message in st.messages && st.messages[x.message].run == x.run && x.call in st.messages[x.message].calls
    && x.call.arguments.Object? && !x.edited.Other?
  }

  /** The row refers to what exists, and folding its audit rows gives its current status. */
  ghost predicate RowOk(st: Store, a: nat) {
    a in st.actions ==>
      a < st.nextId && a in st.audit && RefersTo(st, st.actions[a]) && Replay(st.audit[a]) == At(st.actions[a].status)
  }

  /** `UNIQUE (run_id, tool_call_id)`, and the pending actions of a run were all parked by one pause. */
  ghost predicate PairOk(st: Store, a: nat, b: nat) {
    a in st.actions && b in st.actions && a != b && st.actions[a].run == st.actions[b].run ==>
      && st.actions[a].call.id != st.actions[b].call.id
      && (st.actions[a].status.Pending? && st.actions[b].status.Pending? ==> st.actions[a].message == st.actions[b].message)
  }

  /** A run is paused exactly when one of its actions awaits a decision. */
  ghost predicate RunOk(st: Store, r: nat) {
    r in st.runs ==> r < st.nextId && (st.runs[r].status.PausedApproval? <==> AwaitsDecision(st, r))
  }

  ghost predicate MessageOk(st: Store, m: nat) {
    m in st.messages ==> m < st.nextId && st.messages[m].run in st.runs
  }

  ghost predicate StoreInv(st: Store) {
    && st.audit.Keys == st.actions.Keys
    && (forall a {:trigger RowOk(st, a)} :: RowOk(st, a))
    && (forall a, b {:trigger PairOk(st, a, b)} :: PairOk(st, a, b))
    && (forall r {:trigger RunOk(st, r)} :: RunOk(st, r))
    && (forall m {:trigger MessageOk(st, m)} :: MessageOk(st, m))
  }

  /** Rows that stay as they were stay good while runs and messages are only added or change status. */
  lemma RowStays(st: Store, st': Store, a: nat)
    requires RowOk(st, a) && a in st.actions && a in st'.actions && a in st'.audit
    requires st'.actions[a] == st.actions[a] && st'.audit[a] == st.audit[a] && st.nextId <= st'.nextId
    requires st.actions[a].run in st.runs ==> st.actions[a].run in st'.runs && st'.runs[st.actions[a].run].owner == st.runs[st.actions[a].run].owner
    requires st.actions[a].message in st.messages ==> st.actions[a].message in st'.messages && st'.messages[st.actions[a].message] == st.messages[st.actions[a].message]
    ensures RowOk(st', a)
  {
  }

  /** Whether a run awaits a decision depends on its own rows only. */
  lemma AwaitsSame(st: Store, st': Store, r: nat)
    requires forall a :: a in st'.actions && st'.actions[a].run == r && st'.actions[a].status.Pending? ==>
               a in st.actions && st.actions[a].run == r && st.actions[a].status.Pending?
    requires forall a :: a in st.actions && st.actions[a].run == r && st.actions[a].status.Pending? ==>
               a in st'.actions && st'.actions[a].run == r && st'.actions[a].status.Pending?
    ensures AwaitsDecision(st', r) <==> AwaitsDecision(st, r)
  {
  }

  // ---- pausing ---------------------------------------------------------------

  ghost predicate FreshRow(x: Action, user: nat, role: string, run: nat, message: nat, request: Request) {
    x == Action(run, message, user, role, request.call, Absent, Pending, None, request.expiresAt) && request.call.arguments.Object?
  }

  /** What inserting a pause's requests does. */
  ghost predicate Inserted(st: Store, st': Store, user: nat, role: string, run: nat, message: nat, requests: seq<Request>) {
    && st'.runs == st.runs && st'.messages == st.messages && st'.nextId == st.nextId + |requests|
    && st'.actions.Keys == st'.audit.Keys
    && (forall a {:trigger a in st'.actions} :: a in st'.actions <==> a in st.actions || st.nextId <= a < st'.nextId)
    && (forall a {:trigger a in st.actions} :: a in st.actions ==> a in st'.actions && st'.actions[a] == st.actions[a] && a in st.audit && st'.audit[a] == st.audit[a])
    && (forall a {:trigger st'.actions[a]} :: st.nextId <= a < st'.nextId ==>
          a in st'.actions && st'.audit[a] == [Created] && FreshRow(st'.actions[a], user, role, run, message, requests[a - st.nextId]))
  }

  /** One row more in the tables, numbered `nextId`. */
  ghost predicate RowAdded(mid: Store, st': Store, x: Action) {
    && st'.runs == mid.runs && st'.messages == mid.messages && st'.nextId == mid.nextId + 1
    && st'.actions == mid.actions[mid.nextId := x] && st'.audit == mid.audit[mid.nextId := [Created]]
  }

  lemma InsertAdds(mid: Store, user: nat, role: string, run: nat, message: nat, request: Request)
    requires InsertAction(mid, user, role, run, message, request).Success?
    ensures var x := Action(run, message, user, role, request.call, Absent, Pending, None, request.expiresAt);
            && RowAdded(mid, InsertAction(mid, user, role, run, message, request).value, x)
            && FreshRow(x, user, role, run, message, request)
  {
  }

  /** The rows there were are still what they were. */
  ghost predicate OldRows(st: Store, st': Store) {
    && st'.runs == st.runs && st'.messages == st.messages && st'.actions.Keys == st'.audit.Keys
    && forall a {:trigger a in st.actions} :: a in st.actions ==> a in st'.actions && st'.actions[a] == st.actions[a] && a in st.audit && st'.audit[a] == st.audit[a]
  }

  lemma OldRowsKept(st: Store, mid: Store, st': Store, x: Action)
    requires OldRows(st, mid) && RowAdded(mid, st', x) && mid.nextId !in st.actions
    ensures OldRows(st, st')
  {
  }

  lemma NewRow(st: Store, mid: Store, st': Store, x: Action, user: nat, role: string, run: nat, message: nat, requests: seq<Request>, a: nat)
    requires requests != [] && Inserted(st, mid, user, role, run, message, requests[..|requests| - 1])
    requires RowAdded(mid, st', x) && FreshRow(x, user, role, run, message, requests[|requests| - 1])
    requires st.nextId <= a < st'.nextId
    ensures a in st'.actions && st'.audit[a] == [Created] && FreshRow(st'.actions[a], user, role, run, message, requests[a - st.nextId])
  {
    if a < mid.nextId { assert FreshRow(mid.actions[a], user, role, run, message, requests[..|requests| - 1][a - st.nextId]); }
  }

  lemma InsertedOneMore(st: Store, mid: Store, st': Store, x: Action, user: nat, role: string, run: nat, message: nat, requests: seq<Request>)
    requires requests != [] && Inserted(st, mid, user, role, run, message, requests[..|requests| - 1])
    requires forall a :: a in st.actions ==> a < st.nextId
    requires RowAdded(mid, st', x) && FreshRow(x, user, role, run, message, requests[|requests| - 1])
    ensures Inserted(st, st', user, role, run, message, requests)
  {
    OldRowsKept(st, mid, st', x);
    forall a | st.nextId <= a < st'.nextId
      ensures a in st'.actions && st'.audit[a] == [Created] && FreshRow(st'.actions[a], user, role, run, message, requests[a - st.nextId])
    {
      NewRow(st, mid, st', x, user, role, run, message, requests, a);
    }
  }

  lemma {:induction false} InsertActionsFacts(st: Store, user: nat, role: string, run: nat, message: nat, requests: seq<Request>)
    requires st.actions.Keys == st.audit.Keys && forall a :: a in st.actions ==> a < st.nextId
    requires InsertActions(st, user, role, run, message, requests).Success?
    ensures Inserted(st, InsertActions(st, user, role, run, message, requests).value, user, role, run, message, requests)
  {
    if requests != [] {
      var n := |requests| - 1;
      InsertActionsFacts(st, user, role, run, message, requests[..n]);
      var mid := InsertActions(st, user, role, run, message, requests[..n]).value;
      InsertAdds(mid, user, role, run, message, requests[n]);
      InsertedOneMore(st, mid, InsertActions(st, user, role, run, message, requests).value,
                      Action(run, message, user, role, requests[n].call, Absent, Pending, None, requests[n].expiresAt), user, role, run, message, requests);
    }
  }

  ghost predicate CallsDiffer(st: Store, a: nat, b: nat) {
    a in st.actions && b in st.actions && a != b && st.actions[a].run == st.actions[b].run ==> st.actions[a].call.id != st.actions[b].call.id
  }

  lemma {:induction false} InsertedCallsDiffer(st: Store, user: nat, role: string, run: nat, message: nat, requests: seq<Request>, a: nat, b: nat)
    requires st.actions.Keys == st.audit.Keys && forall c :: c in st.actions ==> c < st.nextId
    requires CallsDiffer(st, a, b)
    requires InsertActions(st, user, role, run, message, requests).Success?
    ensures CallsDiffer(InsertActions(st, user, role, run, message, requests).value, a, b)
  {
    if requests != [] {
      var prefix := requests[..|requests| - 1];
      var before := InsertActions(st, user, role, run, message, prefix).value;
      InsertActionsFacts(st, user, role, run, message, prefix);
      InsertedCallsDiffer(st, user, role, run, message, prefix, a, b);
      assert !CallTaken(before, run, requests[|requests| - 1].call.id);
    }
  }

  /** A pause took effect: `st'` is `st` with the run parked, its message written and its requests inserted. */
  ghost predicate PauseEffect(st: Store, st': Store, user: nat, role: string, run: nat, calls: seq<Call>, requests: seq<Request>) {
    && requests != [] && run in st.runs && st.runs[run].status.Running?
    && Inserted(ParkedRun(st, run, calls), st', user, role, run, st.nextId, requests)
  }

  lemma PauseRow(st: Store, st': Store, user: nat, role: string, run: nat, calls: seq<Call>, requests: seq<Request>, a: nat)
    requires StoreInv(st) && PauseEffect(st, st', user, role, run, calls, requests) && st.runs[run].owner == user
    requires forall k :: 0 <= k < |requests| ==> requests[k].call in calls
    ensures RowOk(st', a)
  {
    var mid := ParkedRun(st, run, calls);
    if a in st.actions {
      assert RowOk(st, a) && MessageOk(st, st.actions[a].message);
      RowStays(st, mid, a);
      assert a in mid.actions;
      RowStays(mid, st', a);
    } else if a in st'.actions {
      assert FreshRow(st'.actions[a], user, role, run, st.nextId, requests[a - mid.nextId]);
      assert requests[a - mid.nextId].call in calls;
      ReplayStep([], Created);
      assert [] + [Created] == [Created];
    }
  }

  lemma PauseRun(st: Store, st': Store, user: nat, role: string, run: nat, calls: seq<Call>, requests: seq<Request>, r: nat)
    requires StoreInv(st) && PauseEffect(st, st', user, role, run, calls, requests)
    ensures RunOk(st', r)
  {
    assert RunOk(st, r);
    if r == run {
      assert FreshRow(st'.actions[st.nextId + 1], user, role, run, st.nextId, requests[0]);
    } else {
      AwaitsSame(st, st', r);
    }
  }

  lemma PausePair(st: Store, st': Store, user: nat, role: string, run: nat, calls: seq<Call>, requests: seq<Request>, a: nat, b: nat)
    requires StoreInv(st) && PauseEffect(st, st', user, role, run, calls, requests) && CallsDiffer(st', a, b)
    ensures PairOk(st', a, b)
  {
    assert PairOk(st, a, b) && RunOk(st, run);
    assert !AwaitsDecision(st, run);
  }

  lemma PauseKeeps(st: Store, user: nat, role: string, run: nat, calls: seq<Call>, requests: seq<Request>)
    requires StoreInv(st) && Pause(st, user, role, run, calls, requests).Success?
    requires st.runs[run].owner == user
    requires forall k :: 0 <= k < |requests| ==> requests[k].call in calls
    ensures StoreInv(Pause(st, user, role, run, calls, requests).value)
    ensures PauseEffect(st, Pause(st, user, role, run, calls, requests).value, user, role, run, calls, requests)
  {
    var mid := ParkedRun(st, run, calls);
    assert forall c :: c in st.actions ==> RowOk(st, c);
    InsertActionsFacts(mid, user, role, run, st.nextId, requests);
    var st' := Pause(st, user, role, run, calls, requests).value;
    forall a ensures RowOk(st', a) { PauseRow(st, st', user, role, run, calls, requests, a); }
    forall m ensures MessageOk(st', m) { assert MessageOk(st, m); }
    forall r ensures RunOk(st', r) { PauseRun(st, st', user, role, run, calls, requests, r); }
    forall a, b ensures PairOk(st', a, b) {
      assert PairOk(st, a, b);
      InsertedCallsDiffer(mid, user, role, run, st.nextId, requests, a, b);
      PausePair(st, st', user, role, run, calls, requests, a, b);
    }
  }

  // ---- changing one row ------------------------------------------------------

  /** A decision or an outcome: one row leaves its status by a lawful step that its audit row names. */
  ghost predicate LawfulChange(st: Store, id: nat, a: Action) {
    && id in st.actions && id in st.audit
    && a == st.actions[id].(role := a.role, edited := a.edited, status := a.status, decidedBy := a.decidedBy)
    && !a.edited.Other? && !a.status.Pending? && Lawful(At(st.actions[id].status), Became(a.status)) == At(a.status)
  }

  lemma RowChange(st: Store, id: nat, a: Action)
    requires StoreInv(st) && LawfulChange(st, id, a)
    ensures var st' := WithAction(st, id, a, Became(a.status));
            && st'.audit.Keys == st'.actions.Keys
            && (forall b {:trigger RowOk(st', b)} :: RowOk(st', b))
            && (forall b, c {:trigger PairOk(st', b, c)} :: PairOk(st', b, c))
            && (forall m {:trigger MessageOk(st', m)} :: MessageOk(st', m))
  {
    var st' := WithAction(st, id, a, Became(a.status));
    forall b ensures RowOk(st', b) {
      assert RowOk(st, b);
      if b == id {
        ReplayStep(st.audit[id], Became(a.status));
      }
    }
    forall b, c ensures PairOk(st', b, c) { assert PairOk(st, b, c); }
    forall m ensures MessageOk(st', m) { assert MessageOk(st, m); }
  }

  /** The same rows over runs whose statuses changed. */
  lemma RunsChange(st: Store, st': Store)
    requires st'.messages == st.messages && st'.actions == st.actions && st'.audit == st.audit && st.nextId <= st'.nextId
    requires st.audit.Keys == st.actions.Keys
    requires forall b {:trigger RowOk(st, b)} :: RowOk(st, b)
    requires forall b, c {:trigger PairOk(st, b, c)} :: PairOk(st, b, c)
    requires forall m {:trigger MessageOk(st, m)} :: MessageOk(st, m)
    requires forall r {:trigger r in st'.runs} :: r in st.runs ==> r in st'.runs && st'.runs[r].owner == st.runs[r].owner
    requires forall r {:trigger RunOk(st', r)} :: RunOk(st', r)
    ensures StoreInv(st')
  {
    forall b ensures RowOk(st', b) {
      assert RowOk(st, b);
      if b in st.actions { RowStays(st, st', b); }
    }
    forall b, c ensures PairOk(st', b, c) { assert PairOk(st, b, c); }
    forall m ensures MessageOk(st', m) { assert MessageOk(st, m); }
  }

  // ---- deciding --------------------------------------------------------------

  lemma DecidedIsLawful(st: Store, user: nat, role: string, id: nat, verdict: Status, edited: Json, human: bool, now: int)
    requires verdict.Approved? || verdict.Rejected? || verdict.Expired?
    requires StoreInv(st) && Transition(st, user, role, id, verdict, edited, human, now).Success?
    ensures LawfulChange(st, id, Decided(st.actions[id], user, role, verdict, edited, human, now))
  {
    assert RowOk(st, id);
  }

  lemma LetGoRuns(st: Store, id: nat, a: Action, r: nat)
    requires StoreInv(st) && LawfulChange(st, id, a) && st.actions[id].status.Pending?
    ensures RunOk(LetGo(WithAction(st, id, a, Became(a.status)), a).0, r)
  {
    var st1 := WithAction(st, id, a, Became(a.status));
    var st' := LetGo(st1, a).0;
    assert RunOk(st, r) && RunOk(st, a.run) && RowOk(st, id);
    assert AwaitsDecision(st, a.run);
    assert AwaitsDecision(st', r) <==> AwaitsDecision(st1, r);
    if r != a.run {
      AwaitsSame(st, st1, r);
    }
  }

  /** The run of a pending action is paused; the transition that settles its last action claims its resume, and only that one. */
  lemma TransitionKeeps(st: Store, user: nat, role: string, id: nat, verdict: Status, edited: Json, human: bool, now: int)
    requires StoreInv(st) && (verdict.Approved? || verdict.Rejected? || verdict.Expired?)
    requires Transition(st, user, role, id, verdict, edited, human, now).Success?
    ensures StoreInv(Transition(st, user, role, id, verdict, edited, human, now).value.0)
    ensures var (st', start) := Transition(st, user, role, id, verdict, edited, human, now).value;
            var x := st.actions[id];
            && x.run in st.runs && st.runs[x.run].status.PausedApproval?
            && (start.Some? <==> !AwaitsDecision(st', x.run))
            && (start.Some? ==> start.value.run == x.run && start.value.user == st.runs[x.run].owner && start.value.message == x.message)
            && st'.runs == if start.Some? then st.runs[x.run := st.runs[x.run].(status := Running)] else st.runs
  {
    var a := Decided(st.actions[id], user, role, verdict, edited, human, now);
    DecidedIsLawful(st, user, role, id, verdict, edited, human, now);
    var st1 := WithAction(st, id, a, Became(a.status));
    var st' := LetGo(st1, a).0;
    RowChange(st, id, a);
    forall r ensures RunOk(st', r) { LetGoRuns(st, id, a, r); }
    assert RunOk(st, a.run) && RowOk(st, id);
    assert AwaitsDecision(st, a.run);
    assert AwaitsDecision(st', a.run) <==> AwaitsDecision(st1, a.run);
    RunsChange(st1, st');
  }

  // ---- settling, cancelling, finishing ---------------------------------------

  /** An outcome recorded on an approved action is a lawful step of its history. */
  lemma RecordKeeps(st: Store, id: nat, outcome: Status)
    requires StoreInv(st) && id in st.actions && st.actions[id].status.Approved?
    requires outcome.Executed? || outcome.Failed? || outcome.Expired?
    ensures StoreInv(RecordOutcome(st, id, outcome))
  {
    assert RowOk(st, id);
    var a := st.actions[id].(status := outcome);
    RowChange(st, id, a);
    var st' := RecordOutcome(st, id, outcome);
    forall r ensures RunOk(st', r) {
      assert RunOk(st, r);
      AwaitsSame(st, st', r);
    }
  }

  lemma RevokedRow(st: Store, user: nat, run: nat, a: nat)
    requires StoreInv(st)
    ensures RowOk(Revoke(st, user, run), a)
  {
    assert RowOk(st, a);
    if a in st.actions {
      ReplayStep(st.audit[a], Became(Rejected));
    }
  }

  lemma CancelRuns(st: Store, user: nat, run: nat, r: nat)
    requires StoreInv(st) && Cancel(st, user, run).Success?
    ensures RunOk(Cancel(st, user, run).value, r)
  {
    var mid, st' := Revoke(st, user, run), Cancel(st, user, run).value;
    assert RunOk(st, r);
    assert AwaitsDecision(st', r) <==> AwaitsDecision(mid, r);
    if r == run {
      forall a | a in mid.actions && mid.actions[a].run == run ensures !mid.actions[a].status.Pending? {
        assert RowOk(st, a);
      }
    } else {
      AwaitsSame(st, mid, r);
    }
  }

  lemma CancelKeeps(st: Store, user: nat, run: nat)
    requires StoreInv(st) && Cancel(st, user, run).Success?
    ensures StoreInv(Cancel(st, user, run).value)
  {
    var mid, st' := Revoke(st, user, run), Cancel(st, user, run).value;
    forall a ensures RowOk(mid, a) { RevokedRow(st, user, run, a); }
    forall a, b ensures PairOk(mid, a, b) { assert PairOk(st, a, b); }
    forall m ensures MessageOk(mid, m) { assert MessageOk(st, m); }
    forall r ensures RunOk(st', r) { CancelRuns(st, user, run, r); }
    RunsChange(mid, st');
  }

  /** Only runs that are running change, and none of them becomes paused. */
  lemma RunChangeKeeps(st: Store, st': Store)
    requires StoreInv(st) && st'.messages == st.messages && st'.actions == st.actions && st'.audit == st.audit
    requires st.nextId <= st'.nextId
    requires forall r {:trigger r in st'.runs} :: r in st.runs ==> r in st'.runs && st'.runs[r].owner == st.runs[r].owner
    requires forall r {:trigger st'.runs[r]} :: r in st.runs && st'.runs[r] != st.runs[r] ==> st.runs[r].status.Running? && !st'.runs[r].status.PausedApproval?
    requires forall r {:trigger r in st'.runs} :: r in st'.runs && r !in st.runs ==> r < st'.nextId && st.nextId <= r && !st'.runs[r].status.PausedApproval?
    ensures StoreInv(st')
  {
    forall r ensures RunOk(st', r) {
      assert RunOk(st, r);
      assert AwaitsDecision(st', r) <==> AwaitsDecision(st, r);
      forall a | a in st.actions ensures st.actions[a].run in st.runs { assert RowOk(st, a); }
    }
    RunsChange(st, st');
  }

  /** Whoever finishes a run first decides how it ended. */
  lemma FirstEndWins(st: Store, run: nat, first: RunStatus, second: RunStatus)
    requires first.Done? || first.RunFailed? || first.Cancelled?
    ensures Finish(Finish(st, run, first), run, second) == Finish(st, run, first)
    ensures run in st.runs && (st.runs[run].status.Running? || st.runs[run].status.PausedApproval?) ==>
              Finish(st, run, first).runs == st.runs[run := Run(st.runs[run].owner, first)]
  {
  }

  /** An outcome touches a row only while its action is approved; the trail is extended in any case. */
  lemma OutcomeIsGuarded(st: Store, id: nat, outcome: Status)
    requires id in st.actions && id in st.audit
    ensures var st' := RecordOutcome(st, id, outcome);
            && (!st.actions[id].status.Approved? ==> st'.actions == st.actions)
            && (st.actions[id].status.Approved? ==> st'.actions == st.actions[id := st.actions[id].(status := outcome)])
            && st'.audit == st.audit[id := st.audit[id] + [Became(outcome)]]
  {
  }
}
