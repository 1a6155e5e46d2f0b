/**
 The book of a schedule: what was asked, decided, answered and withdrawn, entered as it happened.
 Every row, run and dispatch of a reachable state is accounted for by it.
 */
module ApprovalLedger {
  import opened Wrappers
  import opened ToolGate
  import opened ApprovalStore
  import opened StoreInvariants
  import opened ApprovalProtocol
  import opened ApprovalSafety
  import opened ApprovalRows
  import opened ApprovalMoves

  datatype Entry =
    | Presented(user: nat, role: string)                  // a request came from this user in this role
    | Asked(run: nat, message: nat, calls: seq<Call>)     // the model asked for these calls
    | Concluded(run: nat)                                 // the model answered without calls
    | Granted(id: nat, user: nat, edited: Json)           // an action was approved in time
    | Declined(id: nat, user: nat)                        // an action was rejected in time
    | Lapsed(id: nat)                                     // an action was found overdue while it was pending
    | Late(id: nat)                                       // an approved action was found overdue by its resume
    | Answered(id: nat, outcome: Outcome)                 // the tool of an approved action ran and came to this
    | Withdrawn(run: nat, user: nat)                      // a paused run was cancelled
    | Stopped(run: nat)                                   // a run's goroutine was told to stop

  function TurnNotes(s: Sys, step: Step): set<Entry>
    requires step.Turn? && step.p in s.procs && s.procs[step.p].pc.Looping?
  {
    if s.procs[step.p].pc.turn >= 50 || !DistinctIds(step.calls) then {}
    else if step.calls == [] then {Concluded(s.procs[step.p].run)}
    else if step.cutOff then {}
    else {Asked(s.procs[step.p].run, s.st.nextId, step.calls)}
  }

  function DecideNotes(reg: Registry, s: Sys, step: Step): set<Entry>
    requires step.Decide?
  {
    if !Decides(reg, s, step, step.id) then {}
    else
      {Presented(step.user, step.role)} +
      (if Overtakes(reg, s, step, step.id) then {Lapsed(step.id)}
       else if step.approve then {Granted(step.id, step.user, step.edited)}
       else {Declined(step.id, step.user)})
  }

  function CheckNotes(s: Sys, step: Step): set<Entry>
    requires step.ResumeCall? && step.p in s.procs && s.procs[step.p].pc.Resuming?
  {
    var pc := s.procs[step.p].pc;
    if pc.i < |pc.batch| && pc.batch[pc.i].action.Some? && pc.batch[pc.i].action.value.row.status.Approved?
       && pc.batch[pc.i].action.value.row.expiresAt <= s.now
    then {Late(pc.batch[pc.i].action.value.id)} else {}
  }

  /** What is entered for one step. */
  function Notes(reg: Registry, s: Sys, step: Step): set<Entry> {
    match step
    case Begin(user, role) => {Presented(user, role)}
    case Decide(_, _, _, _, _) => DecideNotes(reg, s, step)
    case Sweep(id) => if Overtakes(reg, s, step, id) then {Lapsed(id)} else {}
    case CancelRun(user, run) => if Cancels(s, step, run) then {Withdrawn(run, user)} else {}
    case Turn(p, _, _) => if p in s.procs && s.procs[p].pc.Looping? then TurnNotes(s, step) else {}
    case ResumeCall(p, _) => if p in s.procs && s.procs[p].pc.Resuming? then CheckNotes(s, step) else {}
    case RunApproved(_, outcome) => if Runs(reg, s, step).Some? && Runs(reg, s, step).value.consent.Some? then {Answered(Runs(reg, s, step).value.consent.value, outcome)} else {}
    case Abort(p, cancelled) => if p in s.procs && !s.procs[p].pc.Finishing? && cancelled then {Stopped(s.procs[p].run)} else {}
    case _ => {}
  }

  function Book(reg: Registry, schedule: seq<Step>): set<Entry> {
    if schedule == [] then {}
    else Book(reg, schedule[..|schedule| - 1]) + Notes(reg, Exec(reg, schedule[..|schedule| - 1]), schedule[|schedule| - 1])
  }

  // ---- rows -------------------------------------------------------------------

  ghost predicate RowBacked(s: Sys, l: set<Entry>, a: nat) {
    a in s.st.actions ==>
      var x := s.st.actions[a];
      && Presented(x.creator, x.role) in l
      && match x.status
         case Pending => x.edited == Absent
         case Approved => Granted(a, x.creator, x.edited) in l
         case Executed => Granted(a, x.creator, x.edited) in l && Answered(a, Ran) in l
         case Failed => Granted(a, x.creator, x.edited) in l && Answered(a, ReportedError) in l
         case Rejected => Declined(a, x.creator) in l || Withdrawn(x.run, x.creator) in l
         case Expired => Lapsed(a) in l || (Granted(a, x.creator, x.edited) in l && Late(a) in l)
  }

  /** What a settling goroutine is about to write has been found or answered. */
  ghost predicate OutcomeBacked(l: set<Entry>, pc: Pc) {
    pc.Settling? && pc.i < |pc.batch| && pc.batch[pc.i].action.Some? ==>
      var id := pc.batch[pc.i].action.value.id;
      match pc.outcome
      case Executed => Answered(id, Ran) in l
      case Failed => Answered(id, ReportedError) in l
      case Expired => Late(id) in l
      case _ => false
  }

  ghost predicate MessageBacked(s: Sys, l: set<Entry>, m: nat) {
    m in s.st.messages ==> Asked(s.st.messages[m].run, m, s.st.messages[m].calls) in l
  }

  /** The batch is that of a message of the run. */
  ghost predicate BatchOf(st: Store, run: nat, m: nat, batch: seq<BatchCall>) {
    && m in st.messages && st.messages[m].run == run && |batch| == |st.messages[m].calls|
    && forall j {:trigger batch[j]} :: 0 <= j < |batch| ==> batch[j].call == st.messages[m].calls[j]
  }

  ghost predicate PcBacked(st: Store, l: set<Entry>, run: nat, pc: Pc) {
    match pc
    case Dispatching(_, m, calls, _) => Asked(run, m, calls) in l
    case Resuming(m, batch, _) => BatchOf(st, run, m, batch)
    case Cleared(m, batch, _, _) => BatchOf(st, run, m, batch)
    case Settling(m, batch, _, _) => BatchOf(st, run, m, batch) && OutcomeBacked(l, pc)
    case Finishing(status) => (status.Done? ==> Concluded(run) in l) && (status.Cancelled? ==> Stopped(run) in l)
    case _ => true
  }

  ghost predicate ProcBacked(s: Sys, l: set<Entry>, p: nat) {
    p in s.procs ==>
      && Presented(s.procs[p].user, s.procs[p].role) in l
      && PcBacked(s.st, l, s.procs[p].run, s.procs[p].pc)
  }

  /** The arguments are those the model asked with, or those the approval put in their place. */
  ghost predicate ArgumentsBacked(l: set<Entry>, c: Call, e: Event)
    requires e.DispatchedEvent?
  {
    match e.consent
    case None => e.args == c.arguments
    case Some(id) => exists edited :: Granted(id, e.user, edited) in l && e.args == if edited == Absent then c.arguments else edited
  }

  /** The call was asked for, and its user came in a role that is shown its tool. */
  ghost predicate CallBacked(reg: Registry, l: set<Entry>, calls: seq<Call>, c: Call, role: string, e: Event)
    requires e.DispatchedEvent?
  {
    && Asked(e.run, e.message, calls) in l && c in calls && c.id == e.call && c.tool == e.tool
    && ArgumentsBacked(l, c, e) && Presented(e.user, role) in l && Visible(reg, role, e.tool)
  }

  ghost predicate EventBacked(reg: Registry, l: set<Entry>, e: Event) {
    e.DispatchedEvent? ==> exists calls, c, role :: CallBacked(reg, l, calls, c, role, e)
  }

  ghost predicate RunBacked(s: Sys, l: set<Entry>, r: nat) {
    r in s.st.runs ==>
      && (s.st.runs[r].status.Done? ==> Concluded(r) in l)
      && (s.st.runs[r].status.Cancelled? ==> Withdrawn(r, s.st.runs[r].owner) in l || Stopped(r) in l)
  }

  ghost predicate Backed(reg: Registry, s: Sys, l: set<Entry>) {
    && (forall a {:trigger RowBacked(s, l, a)} :: RowBacked(s, l, a))
    && (forall m {:trigger MessageBacked(s, l, m)} :: MessageBacked(s, l, m))
    && (forall p {:trigger ProcBacked(s, l, p)} :: ProcBacked(s, l, p))
    && (forall r {:trigger RunBacked(s, l, r)} :: RunBacked(s, l, r))
    && (forall k {:trigger s.history[k]} :: 0 <= k < |s.history| ==> EventBacked(reg, l, s.history[k]))
  }

  // ---- one step ---------------------------------------------------------------

  /** The step has been entered. */
  ghost predicate Entered(reg: Registry, s: Sys, step: Step, l: set<Entry>, l': set<Entry>) {
    l <= l' && Notes(reg, s, step) <= l'
  }

  lemma SettledBacked(reg: Registry, s: Sys, step: Step, l: set<Entry>, l': set<Entry>, a: nat)
    requires SysInv(reg, s) && Backed(reg, s, l) && Entered(reg, s, step, l, l') && a in s.st.actions && Settles(s, step, a)
    ensures RowBacked(Apply(reg, s, step), l', a)
  {
    assert RowBacked(s, l, a) && RowOk(s.st, a);
    RowFollows(reg, s, step, a);
    assert ProcBacked(s, l, step.p) && ProcOk(s, step.p);
    SettlingIsApproved(reg, s, step.p);
  }

  lemma OldRowBacked(reg: Registry, s: Sys, step: Step, l: set<Entry>, l': set<Entry>, a: nat)
    requires SysInv(reg, s) && Backed(reg, s, l) && Entered(reg, s, step, l, l') && a in s.st.actions
    ensures RowBacked(Apply(reg, s, step), l', a)
  {
    if Settles(s, step, a) {
      SettledBacked(reg, s, step, l, l', a);
    } else {
      assert RowBacked(s, l, a) && RowOk(s.st, a);
      RowFollows(reg, s, step, a);
      if Revokes(s, step, a) { assert Cancels(s, step, step.run); }
    }
  }

  lemma NewRowBacked(reg: Registry, s: Sys, step: Step, l: set<Entry>, l': set<Entry>, a: nat)
    requires SysInv(reg, s) && Backed(reg, s, l) && Entered(reg, s, step, l, l') && a !in s.st.actions
    ensures RowBacked(Apply(reg, s, step), l', a)
  {
    if Parks(reg, s, step) {
      ParkingTurn(reg, s, step);
      assert ProcBacked(s, l, step.p);
    } else {
      NothingElseParks(reg, s, step);
    }
  }

  lemma MessagesBacked(reg: Registry, s: Sys, step: Step, l: set<Entry>, l': set<Entry>, m: nat)
    requires SysInv(reg, s) && Backed(reg, s, l) && Entered(reg, s, step, l, l')
    ensures MessageBacked(Apply(reg, s, step), l', m)
  {
    assert MessageBacked(s, l, m);
    if Parks(reg, s, step) {
      ParkingTurn(reg, s, step);
      assert step.calls != [];
    } else {
      NothingElseParks(reg, s, step);
    }
  }

  lemma RunsBacked(reg: Registry, s: Sys, step: Step, l: set<Entry>, l': set<Entry>, r: nat)
    requires SysInv(reg, s) && Backed(reg, s, l) && Entered(reg, s, step, l, l') && r in s.st.runs
    ensures RunBacked(Apply(reg, s, step), l', r)
  {
    assert RunBacked(s, l, r);
    RunFollows(reg, s, step, r);
    if Ends(s, step, r) { assert ProcBacked(s, l, step.p); }
  }

  lemma NewRunBacked(reg: Registry, s: Sys, step: Step, l: set<Entry>, r: nat)
    requires SysInv(reg, s) && r !in s.st.runs
    ensures RunBacked(Apply(reg, s, step), l, r)
  {
    match step
    case Begin(_, _) =>
    case Turn(_, _, _) => if Parks(reg, s, step) { ParkingTurn(reg, s, step); } else { TurnAddsNoRun(reg, s, step); }
    case EndRun(p) => if p in s.procs { assert ProcOk(s, p); }
    case CancelRun(_, _) =>
    case Decide(_, _, _, _, _) => DecideReleases(reg, s, step);
    case Sweep(_) => SweepReleases(reg, s, step);
    case Restart =>
    case _ => OtherStatus(reg, s, step);
  }

  lemma TurnAddsNoRun(reg: Registry, s: Sys, step: Step)
    requires SysInv(reg, s) && step.Turn? && !Parks(reg, s, step)
    ensures Apply(reg, s, step).st.runs == s.st.runs
  {
    if step.p in s.procs && s.procs[step.p].pc.Looping? && DistinctIds(step.calls) && !step.cutOff && s.procs[step.p].pc.turn < 50 {
      PauseIsParking(reg, s, step);
    }
  }

  lemma MessagesStay(reg: Registry, s: Sys, step: Step, m: nat)
    requires SysInv(reg, s) && m in s.st.messages
    ensures m in Apply(reg, s, step).st.messages && Apply(reg, s, step).st.messages[m] == s.st.messages[m]
  {
    assert MessageOk(s.st, m);
    if Parks(reg, s, step) { ParkingTurn(reg, s, step); } else { NothingElseParks(reg, s, step); }
  }

  lemma PcStaysBacked(reg: Registry, s: Sys, step: Step, l: set<Entry>, l': set<Entry>, run: nat, pc: Pc)
    requires SysInv(reg, s) && PcBacked(s.st, l, run, pc) && l <= l'
    ensures PcBacked(Apply(reg, s, step).st, l', run, pc)
  {
    if pc.Resuming? || pc.Cleared? || pc.Settling? { MessagesStay(reg, s, step, pc.message); }
  }

  /** A goroutine that another's step leaves alone. */
  lemma UnmovedBacked(reg: Registry, s: Sys, step: Step, l: set<Entry>, l': set<Entry>, p: nat)
    requires SysInv(reg, s) && ProcBacked(s, l, p) && l <= l' && p in s.procs && !(ByGoroutine(step) && step.p == p)
    ensures ProcBacked(Apply(reg, s, step), l', p)
  {
    if !step.Restart? {
      OthersUnmoved(reg, s, step, p);
      PcStaysBacked(reg, s, step, l, l', s.procs[p].run, s.procs[p].pc);
    }
  }

  lemma BatchForIsOf(st: Store, run: nat, m: nat, batch: seq<BatchCall>)
    requires BatchFor(st, run, m, batch) && st.messages[m].run == run
    ensures BatchOf(st, run, m, batch)
  {
  }

  /** Where a goroutine's own step takes it is backed in the state it leaves. */
  lemma FateBacked(reg: Registry, s: Sys, step: Step, l: set<Entry>, l': set<Entry>, p: nat, fate: Fate)
    requires SysInv(reg, s) && p in s.procs && ProcBacked(s, l, p) && Entered(reg, s, step, l, l')
    requires ByGoroutine(step) && step.p == p && OwnFate(reg, s, step, p, fate)
    ensures fate.On? ==> PcBacked(s.st, l', s.procs[p].run, fate.pc)
  {
    var q := s.procs[p];
    assert ProcOk(s, p);
    match (step, q.pc)
    case (Load(_), Claimed(m)) => BatchForIsOf(s.st, q.run, m, fate.pc.batch);
    case _ =>
  }

  lemma MovedBacked(reg: Registry, s: Sys, step: Step, l: set<Entry>, l': set<Entry>)
    requires SysInv(reg, s) && ByGoroutine(step) && step.p in s.procs && ProcBacked(s, l, step.p) && Entered(reg, s, step, l, l')
    ensures ProcBacked(Apply(reg, s, step), l', step.p)
  {
    var p, s' := step.p, Apply(reg, s, step);
    FateFollows(reg, s, step);
    OwnIdentity(reg, s, step);
    FateBacked(reg, s, step, l, l', p, FateIn(s', p));
    if p in s'.procs { PcStaysBacked(reg, s, step, l', l', s.procs[p].run, s'.procs[p].pc); }
  }

  lemma NewProcBacked(reg: Registry, s: Sys, step: Step, l: set<Entry>, l': set<Entry>, p: nat)
    requires SysInv(reg, s) && Backed(reg, s, l) && Entered(reg, s, step, l, l') && p !in s.procs
    ensures ProcBacked(Apply(reg, s, step), l', p)
  {
    match step
    case Begin(_, _) =>
    case Tick(_) =>
    case CancelRun(_, _) =>
    case Restart =>
    case Decide(_, _, id, _, _) =>
      DecideReleases(reg, s, step);
      assert RowBacked(s, l, id);
    case Sweep(id) =>
      SweepReleases(reg, s, step);
      assert RowBacked(s, l, id);
    case _ => if step.p in s.procs { OwnIdentity(reg, s, step); }
  }

  /** A dispatch stays backed as the book grows. */
  lemma EventStays(reg: Registry, l: set<Entry>, l': set<Entry>, e: Event)
    requires EventBacked(reg, l, e) && l <= l'
    ensures EventBacked(reg, l', e)
  {
    if e.DispatchedEvent? {
      var calls, c, role :| CallBacked(reg, l, calls, c, role, e);
      assert CallBacked(reg, l', calls, c, role, e);
    }
  }

  lemma OrdinaryBacked(reg: Registry, s: Sys, l: set<Entry>, p: nat, m: nat, calls: seq<Call>, c: Call)
    requires p in s.procs && Presented(s.procs[p].user, s.procs[p].role) in l && Asked(s.procs[p].run, m, calls) in l && c in calls
    requires Reaches(reg, s.procs[p].role, c)
    ensures EventBacked(reg, l, OrdinaryRun(s.procs[p], m, c, s.now))
  {
    assert CallBacked(reg, l, calls, c, s.procs[p].role, OrdinaryRun(s.procs[p], m, c, s.now));
  }

  lemma ApprovedBacked(reg: Registry, s: Sys, l: set<Entry>, p: nat)
    requires SysInv(reg, s) && Backed(reg, s, l) && p in s.procs && s.procs[p].pc.Cleared?
    requires var pc := s.procs[p].pc;
             && pc.i < |pc.batch| && pc.batch[pc.i].action.Some?
             && Runnable(reg, s.procs[p].role, pc.batch[pc.i].call, pc.batch[pc.i].action.value.row)
    ensures var pc := s.procs[p].pc;
            EventBacked(reg, l, ApprovedRun(s.procs[p], pc.message, pc.batch[pc.i].call, pc.batch[pc.i].action.value, pc.checkedAt, s.now))
  {
    var q, pc := s.procs[p], s.procs[p].pc;
    var b, x := pc.batch[pc.i], pc.batch[pc.i].action.value;
    assert ProcOk(s, p) && ProcBacked(s, l, p) && LinkOk(s.st, q.run, pc.message, b);
    assert RowOk(s.st, x.id) && RowBacked(s, l, x.id) && MessageBacked(s, l, pc.message);
    var calls := s.st.messages[pc.message].calls;
    assert b.call == calls[pc.i];
    var e := ApprovedRun(q, pc.message, b.call, x, pc.checkedAt, s.now);
    assert Granted(x.id, q.user, x.row.edited) in l;
    assert ArgumentsBacked(l, b.call, e);
    assert CallBacked(reg, l, calls, b.call, q.role, e);
  }

  /** What the step runs is backed. */
  lemma RunsAreBacked(reg: Registry, s: Sys, step: Step, l: set<Entry>)
    requires SysInv(reg, s) && Backed(reg, s, l) && Runs(reg, s, step).Some?
    ensures EventBacked(reg, l, Runs(reg, s, step).value)
  {
    var q, pc := s.procs[step.p], s.procs[step.p].pc;
    assert ProcBacked(s, l, step.p) && ProcOk(s, step.p);
    if step.Dispatch? {
      OrdinaryBacked(reg, s, l, step.p, pc.message, pc.calls, pc.calls[pc.i]);
    } else if step.ResumeCall? {
      assert MessageBacked(s, l, pc.message);
      assert pc.batch[pc.i].call == s.st.messages[pc.message].calls[pc.i];
      OrdinaryBacked(reg, s, l, step.p, pc.message, s.st.messages[pc.message].calls, pc.batch[pc.i].call);
    } else {
      ApprovedBacked(reg, s, l, step.p);
    }
  }

  lemma EventsBacked(reg: Registry, s: Sys, step: Step, l: set<Entry>, l': set<Entry>)
    requires SysInv(reg, s) && Backed(reg, s, l) && l <= l'
    ensures var h := Apply(reg, s, step).history; forall k {:trigger h[k]} :: 0 <= k < |h| ==> EventBacked(reg, l', h[k])
  {
    var h := Apply(reg, s, step).history;
    LogFollows(reg, s, step);
    if Runs(reg, s, step).Some? {
      RunsAreBacked(reg, s, step, l);
    }
    forall k | 0 <= k < |h| ensures EventBacked(reg, l', h[k]) {
      if k < |s.history| {
        assert h[..|s.history|][k] == s.history[k];
        EventStays(reg, l, l', s.history[k]);
      } else if Runs(reg, s, step).Some? {
        EventStays(reg, l, l', h[k]);
      }
    }
  }

  lemma StepBacked(reg: Registry, s: Sys, step: Step, l: set<Entry>, l': set<Entry>)
    requires SysInv(reg, s) && Backed(reg, s, l) && Entered(reg, s, step, l, l')
    ensures Backed(reg, Apply(reg, s, step), l')
  {
    var s' := Apply(reg, s, step);
    forall a ensures RowBacked(s', l', a) {
      if a in s.st.actions { OldRowBacked(reg, s, step, l, l', a); } else { NewRowBacked(reg, s, step, l, l', a); }
    }
    forall m ensures MessageBacked(s', l', m) { MessagesBacked(reg, s, step, l, l', m); }
    forall p ensures ProcBacked(s', l', p) {
      assert ProcBacked(s, l, p);
      if p !in s.procs { NewProcBacked(reg, s, step, l, l', p); }
      else if ByGoroutine(step) && step.p == p { MovedBacked(reg, s, step, l, l'); }
      else { UnmovedBacked(reg, s, step, l, l', p); }
    }
    forall r ensures RunBacked(s', l', r) {
      if r in s.st.runs { RunsBacked(reg, s, step, l, l', r); } else { NewRunBacked(reg, s, step, l', r); }
    }
    EventsBacked(reg, s, step, l, l');
  }

  /** Every row, run, goroutine and dispatch of every schedule is accounted for by its book. */
  lemma {:induction false} BookBacks(reg: Registry, schedule: seq<Step>)
    ensures Backed(reg, Exec(reg, schedule), Book(reg, schedule))
  {
    if schedule != [] {
      var front, step := schedule[..|schedule| - 1], schedule[|schedule| - 1];
      BookBacks(reg, front);
      Invariant(reg, front);
      StepBacked(reg, Exec(reg, front), step, Book(reg, front), Book(reg, schedule));
    }
  }

  /** An entry was made at some step. */
  lemma {:induction false} WhenEntered(reg: Registry, schedule: seq<Step>, e: Entry) returns (k: nat)
    requires e in Book(reg, schedule)
    ensures k < |schedule| && e in Notes(reg, Exec(reg, schedule[..k]), schedule[k])
  {
    var n := |schedule| - 1;
    if e in Book(reg, schedule[..n]) {
      k := WhenEntered(reg, schedule[..n], e);
      assert schedule[..n][..k] == schedule[..k];
    } else {
      k := n;
    }
  }
}
