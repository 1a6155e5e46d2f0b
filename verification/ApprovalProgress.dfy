/**
 Nothing is dropped: a goroutine goes past a call only when the call was run, refused or settled, so a
 run that is done has left no approval unused.
 */
module ApprovalProgress {
  import opened Wrappers
  import opened ToolGate
  import opened ApprovalStore
  import opened StoreInvariants
  import opened ApprovalProtocol
  import opened ApprovalSafety
  import opened ApprovalTheorems
  import opened ApprovalRows
  import opened ApprovalMoves
  import opened ApprovalLedger
  import opened ApprovalEndings

  // ---- what a goroutine has behind it ------------------------------------------

  /** The first n calls were run, those that can be run without an approval. */
  ghost predicate RunBefore(reg: Registry, h: seq<Event>, run: nat, role: string, m: nat, calls: seq<Call>, n: nat) {
    forall j {:trigger calls[j]} :: 0 <= j < n && j < |calls| && Reaches(reg, role, calls[j]) ==> Sent(h, run, m, calls[j].id)
  }

  /** The same of the calls of a batch that have no action. */
  ghost predicate BatchRunBefore(reg: Registry, h: seq<Event>, run: nat, role: string, m: nat, batch: seq<BatchCall>, n: nat) {
    forall j {:trigger batch[j]} :: 0 <= j < n && j < |batch| && batch[j].action.None? && Reaches(reg, role, batch[j].call) ==>
      Sent(h, run, m, batch[j].call.id)
  }

  ghost predicate LinksTo(batch: seq<BatchCall>, i: nat, a: nat) {
    exists j {:trigger batch[j]} :: i <= j < |batch| && batch[j].action.Some? && batch[j].action.value.id == a
  }

  /** Every action of the run that can still run is ahead in the batch. */
  ghost predicate OpenAhead(st: Store, run: nat, batch: seq<BatchCall>, i: nat) {
    forall a {:trigger LinksTo(batch, i, a)} :: a in st.actions && st.actions[a].run == run && OpenAction(st.actions[a]) ==> LinksTo(batch, i, a)
  }

  ghost predicate OpenIn(st: Store, run: nat, m: nat) {
    forall a :: a in st.actions && st.actions[a].run == run && OpenAction(st.actions[a]) ==> st.actions[a].message == m
  }

  ghost predicate PcComplete(reg: Registry, st: Store, h: seq<Event>, q: Proc) {
    match q.pc
    case Claimed(m) => OpenIn(st, q.run, m)
    case Looping(_) => NothingOpen(st, q.run)
    case Dispatching(_, m, calls, i) => NothingOpen(st, q.run) && RunBefore(reg, h, q.run, q.role, m, calls, i)
    case Resuming(m, batch, i) => OpenAhead(st, q.run, batch, i) && BatchRunBefore(reg, h, q.run, q.role, m, batch, i)
    case Cleared(m, batch, i, _) => OpenAhead(st, q.run, batch, i) && BatchRunBefore(reg, h, q.run, q.role, m, batch, i)
    case Settling(m, batch, i, _) => OpenAhead(st, q.run, batch, i) && BatchRunBefore(reg, h, q.run, q.role, m, batch, i)
    case Finishing(status) => status.Done? ==> NothingOpen(st, q.run)
  }

  ghost predicate ProcComplete(reg: Registry, s: Sys, p: nat) {
    p in s.procs ==> PcComplete(reg, s.st, s.history, s.procs[p])
  }

  /** The actions of a paused run that can still run were all parked by one pause; a run that is done has none. */
  ghost predicate RunComplete(st: Store, r: nat) {
    r in st.runs ==>
      && (st.runs[r].status.PausedApproval? ==>
            forall a, b :: a in st.actions && b in st.actions && st.actions[a].run == r && st.actions[b].run == r
                           && OpenAction(st.actions[a]) && OpenAction(st.actions[b]) ==>
              st.actions[a].message == st.actions[b].message)
      && (st.runs[r].status.Done? ==> NothingOpen(st, r))
  }

  ghost predicate Complete(reg: Registry, s: Sys) {
    && (forall p {:trigger ProcComplete(reg, s, p)} :: ProcComplete(reg, s, p))
    && (forall r {:trigger RunComplete(s.st, r)} :: RunComplete(s.st, r))
  }

  // ---- the rows of a run -------------------------------------------------------

  /** The run's rows are what they were, and there are no new ones. */
  ghost predicate SameActions(st: Store, st': Store, r: nat) {
    && (forall a {:trigger st'.actions[a]} {:trigger a in st.actions} :: a in st.actions && st.actions[a].run == r ==> a in st'.actions && st'.actions[a] == st.actions[a])
    && (forall a {:trigger a in st'.actions} :: a in st'.actions && st'.actions[a].run == r ==> a in st.actions && st.actions[a] == st'.actions[a])
  }

  lemma RowRunStays(reg: Registry, s: Sys, step: Step, a: nat)
    requires SysInv(reg, s) && a in s.st.actions
    ensures a in Apply(reg, s, step).st.actions && Apply(reg, s, step).st.actions[a] == NextRow(reg, s, step, a)
    ensures NextRow(reg, s, step, a).run == s.st.actions[a].run && NextRow(reg, s, step, a).message == s.st.actions[a].message
    ensures OpenAction(NextRow(reg, s, step, a)) ==> OpenAction(s.st.actions[a])
  {
    assert RowOk(s.st, a);
    RowFollows(reg, s, step, a);
    if Settles(s, step, a) { SettlingIsApproved(reg, s, step.p); }
  }

  /** The rows of a running run are touched by its own goroutine only. */
  lemma RunningRowsStay(reg: Registry, s: Sys, step: Step, p: nat)
    requires SysInv(reg, s) && p in s.procs && (ByGoroutine(step) ==> step.p != p)
    ensures SameActions(s.st, Apply(reg, s, step).st, s.procs[p].run)
  {
    var r, st' := s.procs[p].run, Apply(reg, s, step).st;
    assert ProcOk(s, p);
    forall a | a in s.st.actions && s.st.actions[a].run == r ensures a in st'.actions && st'.actions[a] == s.st.actions[a] {
      RowRunStays(reg, s, step, a);
      PendingIsPaused(s.st, a);
      NotSettledBy(reg, s, step, p, a);
    }
    forall a | a in st'.actions && st'.actions[a].run == r ensures a in s.st.actions && s.st.actions[a] == st'.actions[a] {
      if a in s.st.actions {
        RowRunStays(reg, s, step, a);
      } else {
        NotParkedBy(reg, s, step, p, a);
      }
    }
  }

  /** Nobody else settles an action of the run that p holds. */
  lemma NotSettledBy(reg: Registry, s: Sys, step: Step, p: nat, a: nat)
    requires SysInv(reg, s) && p in s.procs && (ByGoroutine(step) ==> step.p != p)
    requires a in s.st.actions && s.st.actions[a].run == s.procs[p].run
    ensures !Settles(s, step, a)
  {
    SettlesItsOwn(reg, s, step, a);
    if step.Settle? { assert Apart(s, p, step.p); }
  }

  /** A new row belongs to the run of the goroutine that parks. */
  lemma NotParkedBy(reg: Registry, s: Sys, step: Step, p: nat, a: nat)
    requires SysInv(reg, s) && p in s.procs && (ByGoroutine(step) ==> step.p != p)
    requires a !in s.st.actions && a in Apply(reg, s, step).st.actions
    ensures Apply(reg, s, step).st.actions[a].run != s.procs[p].run
  {
    if Parks(reg, s, step) {
      ParkingTurn(reg, s, step);
      assert Apart(s, p, step.p);
    } else {
      NothingElseParks(reg, s, step);
    }
  }

  lemma SentStays(h: seq<Event>, h': seq<Event>, run: nat, m: nat, id: string)
    requires Sent(h, run, m, id) && |h| <= |h'| && h'[..|h|] == h
    ensures Sent(h', run, m, id)
  {
    var k :| 0 <= k < |h| && h[k].DispatchedEvent? && h[k].run == run && h[k].message == m && h[k].call == id;
    assert h'[k] == h[k];
  }

  lemma CompleteStays(reg: Registry, st: Store, st': Store, h: seq<Event>, h': seq<Event>, q: Proc)
    requires PcComplete(reg, st, h, q) && SameActions(st, st', q.run) && |h| <= |h'| && h'[..|h|] == h
    ensures PcComplete(reg, st', h', q)
  {
    if q.pc.Dispatching? {
      forall j | 0 <= j < q.pc.i && j < |q.pc.calls| && Reaches(reg, q.role, q.pc.calls[j]) ensures Sent(h', q.run, q.pc.message, q.pc.calls[j].id) {
        SentStays(h, h', q.run, q.pc.message, q.pc.calls[j].id);
      }
    } else if q.pc.Resuming? || q.pc.Cleared? || q.pc.Settling? {
      var batch := q.pc.batch;
      forall j | 0 <= j < q.pc.i && j < |batch| && batch[j].action.None? && Reaches(reg, q.role, batch[j].call) ensures Sent(h', q.run, q.pc.message, batch[j].call.id) {
        SentStays(h, h', q.run, q.pc.message, batch[j].call.id);
      }
    }
  }

  lemma OthersComplete(reg: Registry, s: Sys, step: Step, p: nat)
    requires SysInv(reg, s) && p in s.procs && ProcComplete(reg, s, p) && (ByGoroutine(step) ==> step.p != p)
    ensures ProcComplete(reg, Apply(reg, s, step), p)
  {
    if !step.Restart? {
      OthersUnmoved(reg, s, step, p);
      RunningRowsStay(reg, s, step, p);
      LogFollows(reg, s, step);
      CompleteStays(reg, s.st, Apply(reg, s, step).st, s.history, Apply(reg, s, step).history, s.procs[p]);
    }
  }

  // ---- a goroutine's own steps --------------------------------------------------

  /** Only settling and parking touch a row, of all a goroutine does. */
  lemma OwnRowsStay(reg: Registry, s: Sys, step: Step)
    requires SysInv(reg, s) && ByGoroutine(step) && step.p in s.procs && !Parks(reg, s, step) && !step.Settle?
    ensures Apply(reg, s, step).st.actions == s.st.actions
  {
    if step.Turn? {
      NothingElseParks(reg, s, step);
      forall a | a in s.st.actions ensures Apply(reg, s, step).st.actions[a] == s.st.actions[a] { RowRunStays(reg, s, step, a); }
    } else {
      OthersFollow(reg, s, step);
    }
  }

  /** Loading finds every action that can still run. */
  lemma LoadComplete(reg: Registry, s: Sys, p: nat, batch: seq<BatchCall>)
    requires SysInv(reg, s) && p in s.procs && s.procs[p].pc.Claimed? && ProcComplete(reg, s, p)
    requires BatchFor(s.st, s.procs[p].run, s.procs[p].pc.message, batch)
    ensures OpenAhead(s.st, s.procs[p].run, batch, 0)
  {
    var run, m := s.procs[p].run, s.procs[p].pc.message;
    forall a | a in s.st.actions && s.st.actions[a].run == run && OpenAction(s.st.actions[a]) ensures LinksTo(batch, 0, a) {
      assert RowOk(s.st, a);
      var j :| 0 <= j < |batch| && s.st.messages[m].calls[j] == s.st.actions[a].call;
      assert Pairs(s.st, run, m, batch[j].call.id, a);
      assert LinkFor(s.st, run, m, batch[j]);
      assert PairOk(s.st, a, batch[j].action.value.id);
    }
  }

  /** Going past a call whose action cannot run any more leaves the open ones ahead. */
  lemma AheadOfNext(st: Store, run: nat, batch: seq<BatchCall>, i: nat)
    requires OpenAhead(st, run, batch, i) && i < |batch|
    requires batch[i].action.Some? ==> batch[i].action.value.id in st.actions ==> !OpenAction(st.actions[batch[i].action.value.id])
    ensures OpenAhead(st, run, batch, i + 1)
  {
    forall a | a in st.actions && st.actions[a].run == run && OpenAction(st.actions[a]) ensures LinksTo(batch, i + 1, a) {
      assert LinksTo(batch, i, a);
      var j :| i <= j < |batch| && batch[j].action.Some? && batch[j].action.value.id == a;
      assert j != i;
    }
  }

  /** At the end of the batch nothing is ahead. */
  lemma NothingAhead(st: Store, run: nat, batch: seq<BatchCall>, i: nat)
    requires OpenAhead(st, run, batch, i) && i >= |batch|
    ensures NothingOpen(st, run)
  {
    forall a | a in st.actions && st.actions[a].run == run ensures !OpenAction(st.actions[a]) {
      assert OpenAction(st.actions[a]) ==> LinksTo(batch, i, a);
    }
  }

  lemma AheadAfter(st: Store, st': Store, run: nat, batch: seq<BatchCall>, i: nat)
    requires OpenAhead(st, run, batch, i)
    requires forall a :: a in st'.actions && st'.actions[a].run == run && OpenAction(st'.actions[a]) ==>
               a in st.actions && st.actions[a].run == run && OpenAction(st.actions[a])
    ensures OpenAhead(st', run, batch, i)
  {
    forall a | a in st'.actions && st'.actions[a].run == run && OpenAction(st'.actions[a]) ensures LinksTo(batch, i, a) {
      assert LinksTo(batch, i, a);
    }
  }

  /** What the step runs is in the log it leaves. */
  lemma SentNow(h: seq<Event>, h': seq<Event>, e: Event)
    requires e.DispatchedEvent? && h' == h + [e]
    ensures Sent(h', e.run, e.message, e.call)
  {
    assert h'[|h|] == e;
  }

  lemma BatchRunNext(reg: Registry, h: seq<Event>, h': seq<Event>, run: nat, role: string, m: nat, batch: seq<BatchCall>, i: nat)
    requires BatchRunBefore(reg, h, run, role, m, batch, i) && |h| <= |h'| && h'[..|h|] == h
    requires i < |batch| && batch[i].action.None? && Reaches(reg, role, batch[i].call) ==> Sent(h', run, m, batch[i].call.id)
    ensures BatchRunBefore(reg, h', run, role, m, batch, i + 1)
  {
    forall j | 0 <= j < i + 1 && j < |batch| && batch[j].action.None? && Reaches(reg, role, batch[j].call) ensures Sent(h', run, m, batch[j].call.id) {
      if j < i { SentStays(h, h', run, m, batch[j].call.id); }
    }
  }

  lemma RunNext(reg: Registry, h: seq<Event>, h': seq<Event>, run: nat, role: string, m: nat, calls: seq<Call>, i: nat)
    requires RunBefore(reg, h, run, role, m, calls, i) && |h| <= |h'| && h'[..|h|] == h
    requires i < |calls| && Reaches(reg, role, calls[i]) ==> Sent(h', run, m, calls[i].id)
    ensures RunBefore(reg, h', run, role, m, calls, i + 1)
  {
    forall j | 0 <= j < i + 1 && j < |calls| && Reaches(reg, role, calls[j]) ensures Sent(h', run, m, calls[j].id) {
      if j < i { SentStays(h, h', run, m, calls[j].id); }
    }
  }

  lemma DispatchComplete(reg: Registry, s: Sys, p: nat, ok: bool)
    requires SysInv(reg, s) && p in s.procs && ProcComplete(reg, s, p) && s.procs[p].pc.Dispatching?
    ensures ProcComplete(reg, Apply(reg, s, Dispatch(p, ok)), p)
  {
    var q, s' := s.procs[p], Apply(reg, s, Dispatch(p, ok));
    FateFollows(reg, s, Dispatch(p, ok));
    OwnIdentity(reg, s, Dispatch(p, ok));
    OwnRowsStay(reg, s, Dispatch(p, ok));
    var m, calls, i := q.pc.message, q.pc.calls, q.pc.i;
    if i < |calls| {
      if Reaches(reg, q.role, calls[i]) { SentNow(s.history, s'.history, OrdinaryRun(q, m, calls[i], s.now)); }
      RunNext(reg, s.history, s'.history, q.run, q.role, m, calls, i);
    }
  }

  lemma CheckComplete(reg: Registry, s: Sys, p: nat, ok: bool)
    requires SysInv(reg, s) && p in s.procs && ProcComplete(reg, s, p) && s.procs[p].pc.Resuming?
    ensures ProcComplete(reg, Apply(reg, s, ResumeCall(p, ok)), p)
  {
    var q, s' := s.procs[p], Apply(reg, s, ResumeCall(p, ok));
    FateFollows(reg, s, ResumeCall(p, ok));
    OwnIdentity(reg, s, ResumeCall(p, ok));
    OwnRowsStay(reg, s, ResumeCall(p, ok));
    var m, batch, i := q.pc.message, q.pc.batch, q.pc.i;
    if i < |batch| {
      assert ProcOk(s, p) && LinkOk(s.st, q.run, m, batch[i]);
      if batch[i].action.None? && Reaches(reg, q.role, batch[i].call) { SentNow(s.history, s'.history, OrdinaryRun(q, m, batch[i].call, s.now)); }
      if batch[i].action.None? || !batch[i].action.value.row.status.Approved? {
        BatchRunNext(reg, s.history, s'.history, q.run, q.role, m, batch, i);
        AheadOfNext(s'.st, q.run, batch, i);
      }
    }
  }

  lemma SettleComplete(reg: Registry, s: Sys, p: nat, ok: bool)
    requires SysInv(reg, s) && p in s.procs && ProcComplete(reg, s, p) && s.procs[p].pc.Settling?
    ensures ProcComplete(reg, Apply(reg, s, Settle(p, ok)), p)
  {
    var q, s' := s.procs[p], Apply(reg, s, Settle(p, ok));
    FateFollows(reg, s, Settle(p, ok));
    OwnIdentity(reg, s, Settle(p, ok));
    if ok {
      SettlingIsApproved(reg, s, p);
      var m, batch, i := q.pc.message, q.pc.batch, q.pc.i;
      var id := batch[i].action.value.id;
      assert ProcOk(s, p);
      RowRunStays(reg, s, Settle(p, ok), id);
      forall a | a in s'.st.actions && s'.st.actions[a].run == q.run && OpenAction(s'.st.actions[a])
        ensures a in s.st.actions && s.st.actions[a].run == q.run && OpenAction(s.st.actions[a])
      {
        NothingElseParks(reg, s, Settle(p, ok));
        RowRunStays(reg, s, Settle(p, ok), a);
      }
      AheadAfter(s.st, s'.st, q.run, batch, i);
      AheadOfNext(s'.st, q.run, batch, i);
      BatchRunNext(reg, s.history, s'.history, q.run, q.role, m, batch, i);
    }
  }

  lemma OtherOwnComplete(reg: Registry, s: Sys, step: Step)
    requires SysInv(reg, s) && ByGoroutine(step) && step.p in s.procs && ProcComplete(reg, s, step.p) && !Parks(reg, s, step)
    requires !(step.Dispatch? && s.procs[step.p].pc.Dispatching?) && !(step.ResumeCall? && s.procs[step.p].pc.Resuming?) && !step.Settle?
    ensures ProcComplete(reg, Apply(reg, s, step), step.p)
  {
    var p, q, s' := step.p, s.procs[step.p], Apply(reg, s, step);
    FateFollows(reg, s, step);
    OwnIdentity(reg, s, step);
    OwnRowsStay(reg, s, step);
    assert ProcOk(s, p);
    CompleteStays(reg, s.st, s'.st, s.history, s'.history, q);
    if step.Load? && q.pc.Claimed? {
      LoadComplete(reg, s, p, s'.procs[p].pc.batch);
    } else if step.CompleteBatch? && q.pc.Resuming? && q.pc.i == |q.pc.batch| {
      NothingAhead(s.st, q.run, q.pc.batch, q.pc.i);
    }
  }

  lemma OwnComplete(reg: Registry, s: Sys, step: Step)
    requires SysInv(reg, s) && ByGoroutine(step) && step.p in s.procs && ProcComplete(reg, s, step.p)
    ensures ProcComplete(reg, Apply(reg, s, step), step.p)
  {
    var pc := s.procs[step.p].pc;
    if Parks(reg, s, step) {
      ParkingTurn(reg, s, step);
    } else if step.Dispatch? && pc.Dispatching? {
      DispatchComplete(reg, s, step.p, step.ok);
    } else if step.ResumeCall? && pc.Resuming? {
      CheckComplete(reg, s, step.p, step.ok);
    } else if step.Settle? {
      if pc.Settling? { SettleComplete(reg, s, step.p, step.ok); } else { IdleSettle(reg, s, step); }
    } else {
      OtherOwnComplete(reg, s, step);
    }
  }

  lemma IdleSettle(reg: Registry, s: Sys, step: Step)
    requires step.Settle? && step.p in s.procs && !s.procs[step.p].pc.Settling?
    ensures Apply(reg, s, step) == s
  {
  }

  // ---- what appears, and runs ----------------------------------------------------

  lemma NewComplete(reg: Registry, s: Sys, step: Step, p: nat)
    requires SysInv(reg, s) && Complete(reg, s) && p !in s.procs
    ensures ProcComplete(reg, Apply(reg, s, step), p)
  {
    var s' := Apply(reg, s, step);
    match step
    case Begin(_, _) =>
      forall a | a in s.st.actions ensures s.st.actions[a].run != s.st.nextId { assert RowOk(s.st, a) && RunOk(s.st, s.st.actions[a].run); }
    case Tick(_) =>
    case CancelRun(_, _) =>
    case Restart =>
    case Decide(_, _, _, _, _) => DecideReleases(reg, s, step); if Releases(reg, s, step, step.id) { ReleasedComplete(reg, s, step); }
    case Sweep(_) => SweepReleases(reg, s, step); if Releases(reg, s, step, step.id) { ReleasedComplete(reg, s, step); }
    case _ => if step.p in s.procs { OwnIdentity(reg, s, step); }
  }

  /** A released run resumes the one message its open actions belong to. */
  lemma ReleasedComplete(reg: Registry, s: Sys, step: Step)
    requires SysInv(reg, s) && Complete(reg, s) && (step.Decide? || step.Sweep?) && Releases(reg, s, step, step.id)
    ensures OpenIn(Apply(reg, s, step).st, s.st.actions[step.id].run, s.st.actions[step.id].message)
  {
    var x, st' := s.st.actions[step.id], Apply(reg, s, step).st;
    assert RunComplete(s.st, x.run) && RunOk(s.st, x.run) && RowOk(s.st, step.id);
    assert AwaitsDecision(s.st, x.run);
    KeysStay(reg, s, step);
    forall a | a in st'.actions && st'.actions[a].run == x.run && OpenAction(st'.actions[a]) ensures st'.actions[a].message == x.message {
      RowRunStays(reg, s, step, a);
    }
  }

  lemma ParkedComplete(reg: Registry, s: Sys, step: Step)
    requires SysInv(reg, s) && Complete(reg, s) && Parks(reg, s, step)
    ensures RunComplete(Apply(reg, s, step).st, s.procs[step.p].run)
  {
    var q, st' := s.procs[step.p], Apply(reg, s, step).st;
    assert ProcComplete(reg, s, step.p);
    ParkingTurn(reg, s, step);
    forall a | a in st'.actions && st'.actions[a].run == q.run && OpenAction(st'.actions[a]) ensures st'.actions[a].message == s.st.nextId {
      if a in s.st.actions { RowRunStays(reg, s, step, a); }
    }
  }

  /** What can still run of a run that does not park could run before. */
  lemma OpenCameFrom(reg: Registry, s: Sys, step: Step, r: nat, a: nat)
    requires SysInv(reg, s) && !(Parks(reg, s, step) && s.procs[step.p].run == r)
    requires var st' := Apply(reg, s, step).st; a in st'.actions && st'.actions[a].run == r && OpenAction(st'.actions[a])
    ensures a in s.st.actions && s.st.actions[a].run == r && OpenAction(s.st.actions[a])
            && Apply(reg, s, step).st.actions[a].message == s.st.actions[a].message
  {
    if a in s.st.actions {
      RowRunStays(reg, s, step, a);
    } else if Parks(reg, s, step) {
      ParkingTurn(reg, s, step);
    } else {
      NothingElseParks(reg, s, step);
    }
  }

  lemma RunStaysComplete(reg: Registry, s: Sys, step: Step, r: nat)
    requires SysInv(reg, s) && Complete(reg, s) && r in s.st.runs && !(Parks(reg, s, step) && s.procs[step.p].run == r)
    ensures RunComplete(Apply(reg, s, step).st, r)
  {
    var st' := Apply(reg, s, step).st;
    assert RunComplete(s.st, r);
    RunFollows(reg, s, step, r);
    if Ends(s, step, r) { assert ProcComplete(reg, s, step.p) && ProcOk(s, step.p); }
    forall a | a in st'.actions && st'.actions[a].run == r && OpenAction(st'.actions[a])
      ensures a in s.st.actions && s.st.actions[a].run == r && OpenAction(s.st.actions[a]) && st'.actions[a].message == s.st.actions[a].message
    {
      OpenCameFrom(reg, s, step, r, a);
    }
  }

  lemma StepComplete(reg: Registry, s: Sys, step: Step)
    requires SysInv(reg, s) && Complete(reg, s)
    ensures Complete(reg, Apply(reg, s, step))
  {
    var s' := Apply(reg, s, step);
    forall p ensures ProcComplete(reg, s', p) {
      assert ProcComplete(reg, s, p);
      if p !in s.procs { NewComplete(reg, s, step, p); }
      else if ByGoroutine(step) && step.p == p { OwnComplete(reg, s, step); }
      else { OthersComplete(reg, s, step, p); }
    }
    forall r ensures RunComplete(s'.st, r) {
      if r !in s.st.runs { NewRunRuns(reg, s, step, r); }
      else if Parks(reg, s, step) && s.procs[step.p].run == r { ParkedComplete(reg, s, step); }
      else { RunStaysComplete(reg, s, step, r); }
    }
  }

  lemma {:induction false} AlwaysComplete(reg: Registry, schedule: seq<Step>)
    ensures Complete(reg, Exec(reg, schedule))
  {
    if schedule != [] {
      var front := schedule[..|schedule| - 1];
      AlwaysComplete(reg, front);
      Invariant(reg, front);
      StepComplete(reg, Exec(reg, front), schedule[|schedule| - 1]);
    }
  }

  lemma ReachedComplete(reg: Registry, s: Sys)
    requires Reachable(reg, s)
    ensures Complete(reg, s)
  {
    var schedule: seq<Step> :| s == Exec(reg, schedule);
    AlwaysComplete(reg, schedule);
  }

  // ---- the promises --------------------------------------------------------------

  /** A run that is done has settled every action it ever parked. */
  lemma DoneMeansSettled(reg: Registry, s: Sys, a: nat)
    requires Reachable(reg, s)
    requires a in s.st.actions && s.st.actions[a].run in s.st.runs && s.st.runs[s.st.actions[a].run].status.Done?
    ensures var status := s.st.actions[a].status; status.Executed? || status.Failed? || status.Rejected? || status.Expired?
  {
    ReachedComplete(reg, s);
    assert RunComplete(s.st, s.st.actions[a].run);
  }

  /** The calls of the message a goroutine is at: each that can run without an approval has run. */
  ghost predicate MessageDone(reg: Registry, s: Sys, q: Proc) {
    match q.pc
    case Dispatching(_, m, calls, _) =>
      forall k :: 0 <= k < |calls| && Reaches(reg, q.role, calls[k]) ==> Sent(s.history, q.run, m, calls[k].id)
    case Resuming(m, batch, _) =>
      && BatchOf(s.st, q.run, m, batch)
      && forall k :: 0 <= k < |batch| && batch[k].action.None? && Reaches(reg, q.role, batch[k].call) ==> Sent(s.history, q.run, m, batch[k].call.id)
    case _ => false
  }

  /** It is past the last of them. */
  predicate PastLast(pc: Pc) {
    (pc.Dispatching? && pc.i >= |pc.calls|) || (pc.Resuming? && pc.i >= |pc.batch|)
  }

  lemma LoopsFromTheEnd(reg: Registry, s: Sys, step: Step, p: nat)
    requires SysInv(reg, s) && p in s.procs && !s.procs[p].pc.Looping?
    requires p in Apply(reg, s, step).procs && Apply(reg, s, step).procs[p].pc.Looping?
    ensures PastLast(s.procs[p].pc)
  {
    if ByGoroutine(step) && step.p == p {
      FateFollows(reg, s, step);
    } else if !step.Restart? {
      OthersUnmoved(reg, s, step, p);
    }
  }

  lemma DoneAtTheEnd(reg: Registry, s: Sys, l: set<Entry>, p: nat)
    requires p in s.procs && ProcComplete(reg, s, p) && ProcBacked(s, l, p) && PastLast(s.procs[p].pc)
    ensures MessageDone(reg, s, s.procs[p]) && NothingOpen(s.st, s.procs[p].run)
  {
    var q := s.procs[p];
    if q.pc.Resuming? {
      NothingAhead(s.st, q.run, q.pc.batch, q.pc.i);
    }
  }

  /** A goroutine asks the model again only when its whole message is dealt with and none of its run's actions can still run. */
  lemma NextTurnIsEarned(reg: Registry, s: Sys, step: Step, p: nat)
    requires Reachable(reg, s)
    requires p in s.procs && !s.procs[p].pc.Looping?
    requires p in Apply(reg, s, step).procs && Apply(reg, s, step).procs[p].pc.Looping?
    ensures MessageDone(reg, s, s.procs[p]) && NothingOpen(s.st, s.procs[p].run)
  {
    var schedule: seq<Step> :| s == Exec(reg, schedule);
    ReachedInv(reg, s);
    LoopsFromTheEnd(reg, s, step, p);
    AlwaysComplete(reg, schedule);
    BookBacks(reg, schedule);
    assert ProcComplete(reg, s, p) && ProcBacked(s, Book(reg, schedule), p);
    DoneAtTheEnd(reg, s, Book(reg, schedule), p);
  }
}
