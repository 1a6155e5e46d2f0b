/** What the queue protocol guarantees over every interleaving, and the one way it loses a wake-up. */
module RunQueueTheorems {
  import opened Wrappers
  import opened RunQueue

  /** Every message is answered or still queued, never both, and messages are answered in the order sent. */
  lemma AnsweredInOrder(schedule: seq<Step>)
    ensures var s := Exec(schedule);
            && |s.rows.answered| <= |s.sent|
            && s.rows.answered == seq(|s.rows.answered|, i => i)
            && s.rows.queue == seq(|s.sent| - |s.rows.answered|, i => |s.rows.answered| + i)
  {
    Invariant(schedule);
    var s := Exec(schedule);
    var n := |s.rows.answered|;
    assert |s.sent| == n + |s.rows.queue|;
    forall i | 0 <= i < n ensures s.rows.answered[i] == i { assert s.sent[i] == s.rows.answered[i]; }
    forall i | 0 <= i < |s.rows.queue| ensures s.rows.queue[i] == n + i { assert s.sent[n + i] == s.rows.queue[i]; }
  }

  /** At most one goroutine works for the thread, it holds the live run, and a run not paused has its goroutine. */
  lemma OneRunAtATime(schedule: seq<Step>)
    ensures var s := Exec(schedule);
            && (forall p, q :: p in s.procs && q in s.procs && Holds(s.procs[p]) && Holds(s.procs[q]) ==> p == q)
            && (forall p :: p in s.procs && Holds(s.procs[p]) ==> s.rows.live == Some(Live(s.procs[p].run, false)))
            && (s.rows.live.Some? && !s.rows.live.value.paused ==> exists p :: p in s.procs && Holds(s.procs[p]))
  {
    Invariant(schedule);
    var s := Exec(schedule);
    forall p, q | p in s.procs && q in s.procs && Holds(s.procs[p]) && Holds(s.procs[q]) ensures p == q {
      assert OneHolder(s, p, q);
    }
    forall p | p in s.procs && Holds(s.procs[p]) ensures s.rows.live == Some(Live(s.procs[p].run, false)) {
      assert ProcOk(s, p);
    }
  }

  // ---- wake-ups --------------------------------------------------------------

  ghost predicate Tried(s: Sys) {
    exists p :: p in s.procs && Tries(s.procs[p])
  }

  /** A message waits, no run is live and nobody will try to start one: the wake-up is lost. */
  ghost predicate Stranded(s: Sys) {
    s.rows.queue != [] && s.rows.live.None? && !Tried(s)
  }

  /** A clean-up after an empty promotion frees the thread while a newer message waits and nobody else will try. */
  ghost predicate CleanupLeaves(s: Sys, step: Step) {
    && step.Advance? && step.p in s.procs
    && (s.procs[step.p].Cleaning? || s.procs[step.p].NextCleaning?)
    && s.rows.queue != [] && !Tried(s)
  }

  lemma TriedAfter(s: Sys, p: nat)
    requires p in s.procs && Tries(s.procs[p])
    ensures Tried(s)
  {
  }

  /** Another goroutine's step leaves a trier where it was. */
  lemma TriedKeeps(s: Sys, s': Sys, p: nat)
    requires Tried(s)
    requires forall q :: q in s.procs && q != p ==> q in s'.procs && s'.procs[q] == s.procs[q]
    requires p in s.procs ==> !Tries(s.procs[p]) || (p in s'.procs && Tries(s'.procs[p]))
    ensures Tried(s')
  {
    var q :| q in s.procs && Tries(s.procs[q]);
    TriedAfter(s', q);
  }

  /** The clean-up of a holder strands the queue exactly when a message waits and nobody tries. */
  lemma CleanupExact(s: Sys, p: nat)
    requires SysInv(s) && p in s.procs && (s.procs[p].Cleaning? || s.procs[p].NextCleaning?)
    ensures Stranded(DoAdvance(s, p)) <==> CleanupLeaves(s, Advance(p))
  {
    var s' := DoAdvance(s, p);
    assert ProcOk(s, p);
    if Tried(s) { TriedKeeps(s, s', p); }
    if Tried(s') {
      var q :| q in s'.procs && Tries(s'.procs[q]);
      TriedAfter(s, q);
    }
  }

  lemma AdvanceStrands(s: Sys, p: nat)
    requires SysInv(s) && p in s.procs && !Stranded(s)
    ensures Stranded(DoAdvance(s, p)) <==> CleanupLeaves(s, Advance(p))
  {
    var s' := DoAdvance(s, p);
    assert ProcOk(s, p);
    match s.procs[p]
    case Cleaning(_, _) => CleanupExact(s, p);
    case NextCleaning(_) => CleanupExact(s, p);
    case Working(_) => TriedAfter(s', p);
    case Looking => if s.rows.queue != [] { TriedAfter(s', p); }
    case Withdrawing(m) =>
      WithdrawalIsIdle(s, m);
      if Tried(s) { TriedKeeps(s, s', p); }
    case _ =>
  }

  /** Step by step: a thread that is not stranded becomes stranded exactly by a clean-up that leaves a message. */
  lemma StepStrands(s: Sys, step: Step)
    requires SysInv(s) && !Stranded(s)
    ensures Stranded(Apply(s, step)) <==> CleanupLeaves(s, step)
  {
    var s' := Apply(s, step);
    match step
    case Advance(p) => if p in s.procs { AdvanceStrands(s, p); }
    case Send => TriedAfter(s', s.nextProc);
    case CancelPaused => if s' != s { TriedAfter(s', s.nextProc); }
    case _ =>
  }

  /** Over a whole run: no wake-up is ever lost if and only if no clean-up leaves a message behind. */
  lemma {:induction false} NoLostWakeUp(schedule: seq<Step>)
    ensures (forall k :: 0 <= k <= |schedule| ==> !Stranded(Exec(schedule[..k])))
       <==> (forall k :: 0 <= k < |schedule| ==> !CleanupLeaves(Exec(schedule[..k]), schedule[k]))
  {
    if forall k :: 0 <= k <= |schedule| ==> !Stranded(Exec(schedule[..k])) {
      forall k | 0 <= k < |schedule| ensures !CleanupLeaves(Exec(schedule[..k]), schedule[k]) {
        PrefixStep(schedule, k);
        Invariant(schedule[..k]);
        StepStrands(Exec(schedule[..k]), schedule[k]);
        assert !Stranded(Exec(schedule[..k + 1]));
      }
    }
    if forall k :: 0 <= k < |schedule| ==> !CleanupLeaves(Exec(schedule[..k]), schedule[k]) {
      forall k | 0 <= k <= |schedule| ensures !Stranded(Exec(schedule[..k])) {
        NotStrandedBy(schedule, k);
      }
    }
  }

  lemma PrefixStep(schedule: seq<Step>, k: nat)
    requires k < |schedule|
    ensures Exec(schedule[..k + 1]) == Apply(Exec(schedule[..k]), schedule[k])
  {
    assert schedule[..k + 1][..k] == schedule[..k];
  }

  lemma {:induction false} NotStrandedBy(schedule: seq<Step>, k: nat)
    requires k <= |schedule|
    requires forall j :: 0 <= j < |schedule| ==> !CleanupLeaves(Exec(schedule[..j]), schedule[j])
    ensures !Stranded(Exec(schedule[..k]))
  {
    if k > 0 {
      NotStrandedBy(schedule, k - 1);
      PrefixStep(schedule, k - 1);
      Invariant(schedule[..k - 1]);
      StepStrands(Exec(schedule[..k - 1]), schedule[k - 1]);
    }
  }

  lemma {:induction false} EmptiedGrows(schedule: seq<Step>, k: nat)
    requires k <= |schedule|
    ensures Exec(schedule[..k]).emptied <= Exec(schedule).emptied
    decreases |schedule| - k
  {
    if k == |schedule| {
      assert schedule[..k] == schedule;
    } else {
      PrefixStep(schedule, k);
      EmptiedGrows(schedule, k + 1);
    }
  }

  /** When no promotion ever finds the queue empty, no wake-up is lost at any point of the run. */
  lemma NoEmptyPromotionNoLoss(schedule: seq<Step>, k: nat)
    requires k <= |schedule| && Exec(schedule).emptied == 0
    ensures !Stranded(Exec(schedule[..k]))
  {
    forall j | 0 <= j < |schedule| ensures !CleanupLeaves(Exec(schedule[..j]), schedule[j]) {
      EmptiedGrows(schedule, j);
      Invariant(schedule[..j]);
      if schedule[j].Advance? { assert ProcOk(Exec(schedule[..j]), schedule[j].p); }
    }
    NoLostWakeUp(schedule);
  }

  /** Then a quiescent thread has answered everything ever sent to it, in order. */
  lemma QuiescentMeansAnswered(schedule: seq<Step>)
    requires Exec(schedule).emptied == 0
    requires Exec(schedule).procs == map[] && !(Exec(schedule).rows.live.Some? && Exec(schedule).rows.live.value.paused)
    ensures Exec(schedule).rows.queue == [] && Exec(schedule).rows.answered == Exec(schedule).sent
  {
    var s := Exec(schedule);
    NoEmptyPromotionNoLoss(schedule, |schedule|);
    assert schedule[..|schedule|] == schedule;
    Invariant(schedule);
    assert !Tried(s) && !Held(s);
  }

  // ---- a thread can come to rest -----------------------------------------------

  /** How far a goroutine is from its end, when nobody interferes with the queue. */
  function Rank(pc: Pc): nat {
    match pc
    case Persisted(_) => 5
    case Inserted(_, _) => 4
    case Cleaning(_, _) => 3
    case Withdrawing(_) => 2
    case Starting(_) => 7
    case Working(_) => 6
    case Looking => 5
    case Trying => 4
    case NextInserted(_) => 3
    case NextCleaning(_) => 2
  }

  /** Every step of a goroutine brings it nearer to its end, or answers a message. */
  lemma AdvanceProgresses(s: Sys, p: nat)
    requires SysInv(s) && p in s.procs
    ensures var s' := Apply(s, Advance(p));
            && s'.procs.Keys <= s.procs.Keys && (forall q :: q in s.procs && q != p ==> q in s'.procs && s'.procs[q] == s.procs[q])
            && s'.sent == s.sent && |s'.rows.queue| <= |s.rows.queue|
            && (|s'.rows.queue| < |s.rows.queue| || p !in s'.procs || Rank(s'.procs[p]) < Rank(s.procs[p]))
  {
    assert ProcOk(s, p);
    if s.procs[p].Withdrawing? { WithdrawalIsIdle(s, s.procs[p].message); }
  }

  /** Only goroutines that are there take steps. */
  predicate Advances(steps: seq<Step>) {
    forall k :: 0 <= k < |steps| ==> steps[k].Advance?
  }

  /** The steps taken one after the other from s. */
  function After(s: Sys, steps: seq<Step>): Sys
    decreases |steps|
  {
    if steps == [] then s else After(Apply(s, steps[0]), steps[1..])
  }

  lemma {:induction false} AfterTwo(s: Sys, first: seq<Step>, second: seq<Step>)
    ensures After(s, first + second) == After(After(s, first), second)
    decreases |first|
  {
    if first == [] {
      assert first + second == second;
    } else {
      AfterTwo(Apply(s, first[0]), first[1..], second);
      assert (first + second)[0] == first[0] && (first + second)[1..] == first[1..] + second;
    }
  }

  lemma {:induction false} AfterExec(schedule: seq<Step>, steps: seq<Step>)
    ensures Exec(schedule + steps) == After(Exec(schedule), steps)
    decreases |steps|
  {
    if steps == [] {
      assert schedule + steps == schedule;
    } else {
      AfterExec(schedule + [steps[0]], steps[1..]);
      assert schedule + [steps[0]] + steps[1..] == schedule + steps;
      assert (schedule + [steps[0]])[..|schedule|] == schedule;
    }
  }

  /** What a goroutine's steps may leave: fewer goroutines, no more to answer, and nothing sent. */
  ghost predicate Onward(s: Sys, t: Sys) {
    SysInv(t) && t.procs.Keys <= s.procs.Keys && t.sent == s.sent && |t.rows.queue| <= |s.rows.queue|
  }

  lemma AdvanceIsOnward(s: Sys, p: nat)
    requires SysInv(s) && p in s.procs
    ensures Onward(s, Apply(s, Advance(p)))
  {
    ApplyKeeps(s, Advance(p));
    AdvanceProgresses(s, p);
  }

  function Left(s: Sys, p: nat): nat {
    if p in s.procs then Rank(s.procs[p]) + 1 else 0
  }

  lemma AdvanceIsNearer(s: Sys, p: nat)
    requires SysInv(s) && p in s.procs
    ensures var s' := Apply(s, Advance(p));
            |s'.rows.queue| < |s.rows.queue| || (|s'.rows.queue| == |s.rows.queue| && Left(s', p) < Left(s, p))
  {
    AdvanceProgresses(s, p);
  }

  lemma AdvancesMore(p: nat, rest: seq<Step>)
    requires Advances(rest)
    ensures Advances([Advance(p)] + rest)
    ensures forall s :: After(s, [Advance(p)] + rest) == After(Apply(s, Advance(p)), rest)
  {
    assert ([Advance(p)] + rest)[1..] == rest;
  }

  /** A goroutine that is left to itself comes to its end. */
  lemma {:induction false} GoroutineEnds(s: Sys, p: nat) returns (steps: seq<Step>)
    requires SysInv(s)
    ensures Advances(steps) && Onward(s, After(s, steps)) && p !in After(s, steps).procs
    decreases |s.rows.queue|, Left(s, p)
  {
    steps := [];
    if p in s.procs {
      AdvanceIsOnward(s, p);
      AdvanceIsNearer(s, p);
      var rest := GoroutineEnds(Apply(s, Advance(p)), p);
      AdvancesMore(p, rest);
      steps := [Advance(p)] + rest;
    }
  }

  lemma AdvancesConcat(first: seq<Step>, second: seq<Step>)
    requires Advances(first) && Advances(second)
    ensures Advances(first + second)
  {
  }

  /** So from every state the goroutines that are there can all come to their ends. */
  lemma {:induction false} AllEnd(s: Sys) returns (steps: seq<Step>)
    requires SysInv(s)
    ensures Advances(steps) && Onward(s, After(s, steps)) && After(s, steps).procs == map[]
    decreases |s.procs|
  {
    steps := [];
    if s.procs != map[] {
      var p :| p in s.procs;
      var first := GoroutineEnds(s, p);
      Fewer(s.procs, After(s, first).procs, p);
      var rest := AllEnd(After(s, first));
      AfterTwo(s, first, rest);
      AdvancesConcat(first, rest);
      steps := first + rest;
    }
  }

  lemma Fewer(m: map<nat, Pc>, m': map<nat, Pc>, p: nat)
    requires p in m && p !in m' && m'.Keys <= m.Keys
    ensures |m'| < |m|
  {
    assert m'.Keys <= m.Keys - {p};
    SubsetSize(m'.Keys, m.Keys - {p});
    assert |m.Keys - {p}| == |m.Keys| - 1;
  }

  lemma {:induction false} SubsetSize(a: set<nat>, b: set<nat>)
    requires a <= b
    ensures |a| <= |b|
  {
    if a != {} {
      var x :| x in a;
      SubsetSize(a - {x}, b - {x});
    }
  }

  /**
   A thread whose run is not paused can always come to rest, and unless a promotion finds the queue
   empty on the way, everything sent has then been answered.
   */
  lemma CanComeToRest(schedule: seq<Step>) returns (steps: seq<Step>)
    ensures Advances(steps) && Exec(schedule + steps).procs == map[] && Exec(schedule + steps).sent == Exec(schedule).sent
    ensures var t := Exec(schedule + steps);
            t.emptied == 0 && !(t.rows.live.Some? && t.rows.live.value.paused) ==> t.rows.queue == [] && t.rows.answered == t.sent
  {
    Invariant(schedule);
    steps := AllEnd(Exec(schedule));
    AfterExec(schedule, steps);
    var t := Exec(schedule + steps);
    if t.emptied == 0 && !(t.rows.live.Some? && t.rows.live.value.paused) { QuiescentMeansAnswered(schedule + steps); }
  }

  /** And a paused one can be taken up again, or cancelled; either way somebody works on or looks at the queue next. */
  lemma PauseCanEnd(s: Sys)
    requires s.rows.live.Some? && s.rows.live.value.paused && s.nextProc !in s.procs
    ensures Apply(s, Resume).rows.live == Some(Live(s.rows.live.value.run, false))
            && Apply(s, Resume).procs == s.procs[s.nextProc := Working(s.rows.live.value.run)]
    ensures Apply(s, CancelPaused).rows.live.None? && Apply(s, CancelPaused).procs == s.procs[s.nextProc := Looking]
  {
  }

  /** A working run can be paused by its goroutine, and nothing but its resume or its cancellation ends the pause. */
  lemma PausedUntilTaken(s: Sys, step: Step)
    requires SysInv(s)
    ensures step.Pause? && step.p in s.procs && s.procs[step.p].Working? ==>
              Apply(s, step).rows.live == Some(Live(s.procs[step.p].run, true)) && step.p !in Apply(s, step).procs
    ensures s.rows.live.Some? && s.rows.live.value.paused && !step.Resume? && !step.CancelPaused? ==> Apply(s, step).rows.live == s.rows.live
  {
    if step.Pause? || step.Advance? { assert ProcOk(s, step.p); }
  }

  // ---- the lost wake-up ------------------------------------------------------

  /** Two sends, a third between the finisher's empty promotion and its clean-up. */
  const Race := [
    Send, Advance(0), Send, Advance(0), Advance(0), Advance(0), Advance(0),
    Advance(1), Advance(1), Advance(1), Advance(1), Advance(1),
    Advance(0), Advance(0), Send, Advance(2), Advance(0)
  ]

  function Three(s: Sys, a: Step, b: Step, c: Step): Sys {
    Apply(Apply(Apply(s, a), b), c)
  }

  lemma ThreeSteps(schedule: seq<Step>, k: nat)
    requires k + 3 <= |schedule|
    ensures Exec(schedule[..k + 3]) == Three(Exec(schedule[..k]), schedule[k], schedule[k + 1], schedule[k + 2])
  {
    PrefixStep(schedule, k);
    PrefixStep(schedule, k + 1);
    PrefixStep(schedule, k + 2);
  }

  /** Sender 0 holds the thread for message 0 while message 1 is persisted and waits. */
  lemma RaceSends()
    ensures Three(Three(Init, Send, Advance(0), Send), Advance(0), Advance(0), Advance(0))
         == Sys(Rows([1], [0], None), map[0 := Looking, 1 := Persisted(1)], [0, 1], 2, 1, 0)
  {
    var s := Three(Init, Send, Advance(0), Send);
    assert s == Sys(Rows([0, 1], [], Some(Live(0, false))), map[0 := Inserted(0, 0), 1 := Persisted(1)], [0, 1], 2, 1, 0);
    var s1 := Apply(s, Advance(0));
    assert s1 == Sys(Rows([1], [0], Some(Live(0, false))), map[0 := Starting(0), 1 := Persisted(1)], [0, 1], 2, 1, 0);
  }

  /** Goroutine 0 sees message 1 waiting, but sender 1 answers it and finds the queue empty. */
  lemma RaceLook(s: Sys)
    requires s == Sys(Rows([1], [0], None), map[0 := Looking, 1 := Persisted(1)], [0, 1], 2, 1, 0)
    ensures Three(Three(s, Advance(0), Advance(1), Advance(1)), Advance(1), Advance(1), Advance(1))
         == Sys(Rows([], [0, 1], None), map[0 := Trying], [0, 1], 2, 2, 0)
  {
    var t := Three(s, Advance(0), Advance(1), Advance(1));
    assert t == Sys(Rows([], [0, 1], Some(Live(1, false))), map[0 := Trying, 1 := Starting(1)], [0, 1], 2, 2, 0);
    var t1 := Apply(Apply(t, Advance(1)), Advance(1));
    assert t1 == Sys(Rows([], [0, 1], None), map[0 := Trying, 1 := Looking], [0, 1], 2, 2, 0);
  }

  /** Goroutine 0 takes the thread for nothing; message 2 is refused because of it; then the clean-up looks at no queue. */
  lemma RaceLoses(s: Sys)
    requires s == Sys(Rows([], [0, 1], None), map[0 := Trying], [0, 1], 2, 2, 0)
    ensures Three(Apply(Apply(s, Advance(0)), Advance(0)), Send, Advance(2), Advance(0))
         == Sys(Rows([2], [0, 1], None), map[], [0, 1, 2], 3, 3, 1)
  {
    var t := Apply(Apply(s, Advance(0)), Advance(0));
    assert t == Sys(Rows([], [0, 1], Some(Live(2, false))), map[0 := NextCleaning(2)], [0, 1], 2, 3, 1);
    var t1 := Apply(Apply(t, Send), Advance(2));
    assert t1 == Sys(Rows([2], [0, 1], Some(Live(2, false))), map[0 := NextCleaning(2)], [0, 1, 2], 3, 3, 1);
  }

  lemma ThreeFrom(schedule: seq<Step>, k: nat, s: Sys)
    requires k + 3 <= |schedule| && Exec(schedule[..k]) == s
    ensures Exec(schedule[..k + 3]) == Three(s, schedule[k], schedule[k + 1], schedule[k + 2])
  {
    ThreeSteps(schedule, k);
  }

  lemma Start(schedule: seq<Step>)
    ensures Exec(schedule[..0]) == Init
  {
  }

  lemma SixSteps(schedule: seq<Step>)
    requires 6 <= |schedule|
    ensures Exec(schedule[..6]) == Three(Three(Init, schedule[0], schedule[1], schedule[2]), schedule[3], schedule[4], schedule[5])
  {
    Start(schedule);
    ThreeFrom(schedule, 0, Init);
    ThreeFrom(schedule, 3, Three(Init, schedule[0], schedule[1], schedule[2]));
  }

  lemma RaceFirst(schedule: seq<Step>)
    requires |schedule| == 17
    requires schedule[0] == Send && schedule[1] == Advance(0) && schedule[2] == Send
    requires schedule[3] == Advance(0) && schedule[4] == Advance(0) && schedule[5] == Advance(0)
    ensures Exec(schedule[..6]) == Sys(Rows([1], [0], None), map[0 := Looking, 1 := Persisted(1)], [0, 1], 2, 1, 0)
  {
    SixSteps(schedule);
    RaceSends();
  }

  lemma RaceSecond(schedule: seq<Step>)
    requires |schedule| == 17
    requires Exec(schedule[..6]) == Sys(Rows([1], [0], None), map[0 := Looking, 1 := Persisted(1)], [0, 1], 2, 1, 0)
    requires schedule[6] == Advance(0) && schedule[7] == Advance(1) && schedule[8] == Advance(1)
    requires schedule[9] == Advance(1) && schedule[10] == Advance(1) && schedule[11] == Advance(1)
    ensures Exec(schedule[..12]) == Sys(Rows([], [0, 1], None), map[0 := Trying], [0, 1], 2, 2, 0)
  {
    ThreeSteps(schedule, 6);
    ThreeSteps(schedule, 9);
    RaceLook(Exec(schedule[..6]));
  }

  lemma RaceThird(schedule: seq<Step>)
    requires |schedule| == 17
    requires Exec(schedule[..12]) == Sys(Rows([], [0, 1], None), map[0 := Trying], [0, 1], 2, 2, 0)
    requires schedule[12] == Advance(0) && schedule[13] == Advance(0) && schedule[14] == Send
    requires schedule[15] == Advance(2) && schedule[16] == Advance(0)
    ensures Exec(schedule) == Sys(Rows([2], [0, 1], None), map[], [0, 1, 2], 3, 3, 1)
  {
    PrefixStep(schedule, 12);
    PrefixStep(schedule, 13);
    ThreeSteps(schedule, 14);
    RaceLoses(Exec(schedule[..12]));
    assert schedule[..17] == schedule;
  }

  /** A clean-up after an empty promotion can lose a wake-up: message 2 is stranded. */
  lemma WakeUpCanBeLost()
    ensures exists schedule :: Stranded(Exec(schedule))
  {
    var schedule :| schedule == Race;
    RaceFirst(schedule);
    RaceSecond(schedule);
    RaceThird(schedule);
    LastIsStranded(schedule);
  }

  lemma LastIsStranded(schedule: seq<Step>)
    requires Exec(schedule) == Sys(Rows([2], [0, 1], None), map[], [0, 1, 2], 3, 3, 1)
    ensures Stranded(Exec(schedule))
  {
  }
}
