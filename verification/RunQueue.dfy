/**
 One thread's message queue: senders persist and then try to start a run, finishers finish and
 then look for the next message. Every store call is one atomic step; goroutines interleave freely.
 */
module RunQueue {
  import opened Wrappers

  /** The thread's live run, if any: the unique index admits at most one. */
  datatype Live = Live(run: nat, paused: bool)

  /** The thread's rows: queued messages oldest first, and those promoted so far in promotion order. */
  datatype Rows = Rows(queue: seq<nat>, answered: seq<nat>, live: Option<Live>)

  datatype Pc =
    | Persisted(message: nat)            // Send: message stored, no run tried yet
    | Inserted(message: nat, run: nat)   // Send: holds a new run, nothing promoted yet
    | Cleaning(message: nat, run: nat)   // Send: the promotion found the queue empty
    | Withdrawing(message: nat)          // Send: about to delete its own queued message
    | Starting(run: nat)                 // a message is promoted, the run is about to start
    | Working(run: nat)                  // the run executes
    | Looking                            // a run was finished, the queue not read yet
    | Trying                             // the queue was seen non-empty, no run tried yet
    | NextInserted(run: nat)             // startNext: holds a new run, nothing promoted yet
    | NextCleaning(run: nat)             // startNext: the promotion found the queue empty

  /** `sent` and `emptied` record every message persisted and how many promotions found nothing. */
  datatype Sys = Sys(rows: Rows, procs: map<nat, Pc>, sent: seq<nat>, nextProc: nat, nextRun: nat, emptied: nat)

  datatype Step =
    | Send
    | Advance(p: nat)
    | Pause(p: nat)
    | Resume
    | CancelPaused

  const Init := Sys(Rows([], [], None), map[], [], 0, 0, 0)

  // ---- the store's atomic steps ----------------------------------------------

  function Persist(rows: Rows, message: nat): Rows {
    rows.(queue := rows.queue + [message])
  }

  /** `InsertRun`: refused while the thread has a live run. */
  function InsertRun(rows: Rows, run: nat): (Rows, bool) {
    if rows.live.Some? then (rows, false) else (rows.(live := Some(Live(run, false))), true)
  }

  /** `PromoteOldestQueued`. */
  function Promote(rows: Rows): (Rows, bool) {
    if rows.queue == [] then (rows, false)
    else (rows.(queue := rows.queue[1..], answered := rows.answered + [rows.queue[0]]), true)
  }

  /** `FinishRun`: only a run that is still live is finished. */
  function FinishRun(rows: Rows, run: nat): Rows {
    if rows.live.Some? && rows.live.value.run == run then rows.(live := None) else rows
  }

  function Without(s: seq<nat>, m: nat): seq<nat> {
    if s == [] then [] else if s[0] == m then Without(s[1..], m) else [s[0]] + Without(s[1..], m)
  }

  /** `DeleteQueued`: only a message still waiting is withdrawn. */
  function DeleteQueued(rows: Rows, message: nat): Rows {
    rows.(queue := Without(rows.queue, message))
  }

  // ---- the goroutines --------------------------------------------------------

  function Move(s: Sys, p: nat, pc: Pc): Sys {
    s.(procs := s.procs[p := pc])
  }

  function Leave(s: Sys, p: nat): Sys {
    s.(procs := s.procs - {p})
  }

  /** Try to insert a run: hold it, or leave the message to whoever holds the thread. */
  function TryInsert(s: Sys, p: nat, held: Pc): Sys {
    var (rows, ok) := InsertRun(s.rows, s.nextRun);
    if ok then Move(s, p, held).(rows := rows, nextRun := s.nextRun + 1) else Leave(s, p)
  }

  function TryPromote(s: Sys, p: nat, run: nat, empty: Pc): Sys {
    var (rows, ok) := Promote(s.rows);
    if ok then Move(s, p, Starting(run)).(rows := rows) else Move(s, p, empty).(emptied := s.emptied + 1)
  }

  function DoAdvance(s: Sys, p: nat): Sys
    requires p in s.procs
  {
    match s.procs[p]
    case Persisted(m) => TryInsert(s, p, Inserted(m, s.nextRun))
    case Inserted(m, run) => TryPromote(s, p, run, Cleaning(m, run))
    case Cleaning(m, run) => Move(s, p, Withdrawing(m)).(rows := FinishRun(s.rows, run))
    case Withdrawing(m) => Leave(s, p).(rows := DeleteQueued(s.rows, m))
    case Starting(run) => Move(s, p, Working(run))
    case Working(run) => Move(s, p, Looking).(rows := FinishRun(s.rows, run))
    case Looking => if s.rows.queue == [] then Leave(s, p) else Move(s, p, Trying)
    case Trying => TryInsert(s, p, NextInserted(s.nextRun))
    case NextInserted(run) => TryPromote(s, p, run, NextCleaning(run))
    case NextCleaning(run) => Leave(s, p).(rows := FinishRun(s.rows, run))
  }

  function Spawn(s: Sys, pc: Pc): Sys {
    s.(procs := s.procs[s.nextProc := pc], nextProc := s.nextProc + 1)
  }

  function Apply(s: Sys, step: Step): Sys {
    match step
    case Send =>
      var m := |s.sent|;
      Spawn(s, Persisted(m)).(rows := Persist(s.rows, m), sent := s.sent + [m])
    case Advance(p) => if p in s.procs then DoAdvance(s, p) else s
    case Pause(p) =>
      if p in s.procs && s.procs[p].Working? && s.rows.live == Some(Live(s.procs[p].run, false))
      then Leave(s, p).(rows := s.rows.(live := Some(Live(s.procs[p].run, true)))) else s
    case Resume =>
      if s.rows.live.Some? && s.rows.live.value.paused
      then Spawn(s, Working(s.rows.live.value.run)).(rows := s.rows.(live := Some(Live(s.rows.live.value.run, false)))) else s
    case CancelPaused =>
      if s.rows.live.Some? && s.rows.live.value.paused
      then Spawn(s, Looking).(rows := FinishRun(s.rows, s.rows.live.value.run)) else s
  }

  function Exec(schedule: seq<Step>): Sys {
    if schedule == [] then Init else Apply(Exec(schedule[..|schedule| - 1]), schedule[|schedule| - 1])
  }

  // ---- the invariant ---------------------------------------------------------

  /** The goroutine holds a live run of its own. */
  predicate Holds(pc: Pc) {
    pc.Inserted? || pc.Cleaning? || pc.Starting? || pc.Working? || pc.NextInserted? || pc.NextCleaning?
  }

  /** The goroutine has yet to try to insert a run. */
  predicate Tries(pc: Pc) {
    pc.Persisted? || pc.Looking? || pc.Trying?
  }

  ghost predicate ProcOk(s: Sys, p: nat) {
    p in s.procs ==>
      && p < s.nextProc
      && (Holds(s.procs[p]) ==> s.rows.live == Some(Live(s.procs[p].run, false)))
      && (s.procs[p].Cleaning? || s.procs[p].NextCleaning? ==> s.emptied > 0)
      && (s.procs[p].Persisted? || s.procs[p].Inserted? ==> s.procs[p].message in s.sent)
      && (s.procs[p].Cleaning? || s.procs[p].Withdrawing? ==> s.procs[p].message in s.rows.answered)
  }

  ghost predicate OneHolder(s: Sys, p: nat, q: nat) {
    p in s.procs && q in s.procs && p != q ==> !(Holds(s.procs[p]) && Holds(s.procs[q]))
  }

  ghost predicate Held(s: Sys) {
    exists p :: p in s.procs && Holds(s.procs[p])
  }

  ghost predicate SysInv(s: Sys) {
    && (forall p {:trigger ProcOk(s, p)} :: ProcOk(s, p))
    && (forall p, q {:trigger OneHolder(s, p, q)} :: OneHolder(s, p, q))
    && (s.rows.live.Some? && !s.rows.live.value.paused ==> Held(s))
    && s.rows.answered + s.rows.queue == s.sent
    && (forall i :: 0 <= i < |s.sent| ==> s.sent[i] == i)
  }

  lemma {:induction false} WithoutAbsent(s: seq<nat>, m: nat)
    requires m !in s
    ensures Without(s, m) == s
  {
    if s != [] { WithoutAbsent(s[1..], m); }
  }

  /** A message that was promoted is not queued any more, so withdrawing it does nothing. */
  lemma WithdrawalIsIdle(s: Sys, m: nat)
    requires SysInv(s) && m in s.rows.answered
    ensures DeleteQueued(s.rows, m) == s.rows
  {
    var j :| 0 <= j < |s.rows.answered| && s.rows.answered[j] == m;
    assert s.sent[j] == m;
    forall k | 0 <= k < |s.rows.queue| ensures s.rows.queue[k] != m {
      assert s.sent[|s.rows.answered| + k] == s.rows.queue[k];
    }
    WithoutAbsent(s.rows.queue, m);
  }

  lemma HeldAfter(s: Sys, s': Sys, p: nat)
    requires p in s'.procs && Holds(s'.procs[p])
    ensures Held(s')
  {
  }

  lemma PromoteKeeps(s: Sys, p: nat, run: nat, empty: Pc)
    requires SysInv(s) && p in s.procs && Holds(s.procs[p]) && s.procs[p].run == run && (s.procs[p].Inserted? || s.procs[p].NextInserted?)
    requires empty == if s.procs[p].Inserted? then Cleaning(s.procs[p].message, run) else NextCleaning(run)
    ensures SysInv(TryPromote(s, p, run, empty))
  {
    var s' := TryPromote(s, p, run, empty);
    HeldAfter(s, s', p);
    assert ProcOk(s, p);
    forall q ensures ProcOk(s', q) { assert ProcOk(s, q); }
    forall q, r ensures OneHolder(s', q, r) { assert OneHolder(s, q, r); }
  }

  lemma InsertKeeps(s: Sys, p: nat, held: Pc)
    requires SysInv(s) && p in s.procs && Tries(s.procs[p])
    requires held == if s.procs[p].Persisted? then Inserted(s.procs[p].message, s.nextRun) else NextInserted(s.nextRun)
    ensures SysInv(TryInsert(s, p, held))
  {
    var s' := TryInsert(s, p, held);
    assert ProcOk(s, p);
    forall q ensures ProcOk(s', q) { assert ProcOk(s, q); }
    forall q, r ensures OneHolder(s', q, r) { assert OneHolder(s, q, r) && ProcOk(s, q) && ProcOk(s, r); }
    if s.rows.live.None? {
      HeldAfter(s, s', p);
    } else if Held(s) {
      var q :| q in s.procs && Holds(s.procs[q]);
      HeldAfter(s, s', q);
    }
  }

  /** A holder gives its run up, and no other goroutine held it. */
  lemma FinishKeeps(s: Sys, p: nat, s': Sys)
    requires SysInv(s) && p in s.procs && Holds(s.procs[p])
    requires s' == Leave(s, p).(rows := FinishRun(s.rows, s.procs[p].run))
          || (s.procs[p].Working? && s' == Move(s, p, Looking).(rows := FinishRun(s.rows, s.procs[p].run)))
          || (s.procs[p].Cleaning? && s' == Move(s, p, Withdrawing(s.procs[p].message)).(rows := FinishRun(s.rows, s.procs[p].run)))
    ensures SysInv(s') && s'.rows.live.None?
  {
    assert ProcOk(s, p);
    forall q ensures ProcOk(s', q) { assert ProcOk(s, q) && OneHolder(s, p, q); }
    forall q, r ensures OneHolder(s', q, r) { assert OneHolder(s, q, r); }
  }

  lemma AdvanceKeeps(s: Sys, p: nat)
    requires SysInv(s) && p in s.procs
    ensures SysInv(DoAdvance(s, p))
  {
    var s' := DoAdvance(s, p);
    assert ProcOk(s, p);
    match s.procs[p]
    case Persisted(m) => InsertKeeps(s, p, Inserted(m, s.nextRun));
    case Inserted(m, run) => PromoteKeeps(s, p, run, Cleaning(m, run));
    case Trying => InsertKeeps(s, p, NextInserted(s.nextRun));
    case NextInserted(run) => PromoteKeeps(s, p, run, NextCleaning(run));
    case Cleaning(_, _) => FinishKeeps(s, p, s');
    case Working(_) => FinishKeeps(s, p, s');
    case NextCleaning(_) => FinishKeeps(s, p, s');
    case Withdrawing(m) =>
      WithdrawalIsIdle(s, m);
      SameRowsKeep(s, s', p);
    case Starting(_) => SameRowsKeep(s, s', p);
    case Looking => SameRowsKeep(s, s', p);
  }

  lemma SameRowsKeep(s: Sys, s': Sys, p: nat)
    requires SysInv(s) && p in s.procs && s'.rows == s.rows && s'.sent == s.sent && s'.emptied == s.emptied && s'.nextProc == s.nextProc
    requires s' == s.(procs := s'.procs)
    requires (s'.procs == s.procs - {p} && !Holds(s.procs[p]))
          || (s.procs[p].Starting? && s'.procs == s.procs[p := Working(s.procs[p].run)])
          || (s.procs[p].Looking? && s'.procs == s.procs[p := Trying])
    ensures SysInv(s')
  {
    forall q ensures ProcOk(s', q) { assert ProcOk(s, q); }
    forall q, r ensures OneHolder(s', q, r) { assert OneHolder(s, q, r); }
    if Held(s) {
      var q :| q in s.procs && Holds(s.procs[q]);
      HeldAfter(s, s', q);
    }
  }

  lemma SendKeeps(s: Sys)
    requires SysInv(s)
    ensures SysInv(Apply(s, Send))
  {
    var s' := Apply(s, Send);
    assert ProcOk(s, s.nextProc);
    forall q ensures ProcOk(s', q) { assert ProcOk(s, q); }
    forall q, r ensures OneHolder(s', q, r) { assert OneHolder(s, q, r); }
    if Held(s) {
      var q :| q in s.procs && Holds(s.procs[q]);
      HeldAfter(s, s', q);
    }
    assert s'.rows.answered + s'.rows.queue == s.rows.answered + s.rows.queue + [|s.sent|];
  }

  lemma PauseSteps(s: Sys, step: Step)
    requires SysInv(s) && (step.Pause? || step.Resume? || step.CancelPaused?)
    ensures SysInv(Apply(s, step))
  {
    var s' := Apply(s, step);
    assert ProcOk(s, s.nextProc);
    forall q ensures ProcOk(s', q) {
      assert ProcOk(s, q);
      if step.Pause? { assert OneHolder(s, step.p, q); }
    }
    forall q, r ensures OneHolder(s', q, r) { assert OneHolder(s, q, r) && ProcOk(s, q) && ProcOk(s, r); }
    if step.Resume? && s' != s {
      HeldAfter(s, s', s.nextProc);
    }
  }

  lemma ApplyKeeps(s: Sys, step: Step)
    requires SysInv(s)
    ensures SysInv(Apply(s, step))
  {
    match step
    case Send => SendKeeps(s);
    case Advance(p) => if p in s.procs { AdvanceKeeps(s, p); }
    case _ => PauseSteps(s, step);
  }

  lemma {:induction false} Invariant(schedule: seq<Step>)
    ensures SysInv(Exec(schedule))
  {
    if schedule != [] {
      Invariant(schedule[..|schedule| - 1]);
      ApplyKeeps(Exec(schedule[..|schedule| - 1]), schedule[|schedule| - 1]);
    }
  }
}
