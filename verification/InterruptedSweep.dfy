/**
 The expiry sweep as it runs: each candidate is a transaction of its own, and between the query
 and each candidate every other goroutine may take any steps. Its claims become goroutines only
 when the sweep has come to its end; until then nobody acts on them.
 */
module InterruptedSweep {
  import opened Wrappers
  import opened ToolGate
  import opened ApprovalStore
  import opened StoreInvariants
  import opened ApprovalTables
  import opened ApprovalSweep
  import opened ApprovalProtocol
  import opened ApprovalSafety
  import opened ApprovalTheorems
  import opened ApprovalTiming
  import opened ApprovalOrphans
  import opened ApprovalRuns

  /**
   A sweep under way: the state its query read, the candidates, and for each candidate it has come
   to, the steps others took just before and the state they left.
   */
  datatype Sweeping = Sweeping(start: Sys, ids: seq<nat>, steps: seq<seq<Step>>, befores: seq<Sys>)

  /** Candidate j's transaction claims a resume. */
  predicate Claims(w: Sweeping, j: nat)
    requires j < |w.ids| && j < |w.befores|
  {
    DoSweep(w.befores[j], w.ids[j]).nextProc > w.befores[j].nextProc
  }

  /** The claims the sweep holds when it comes to candidate k, by the numbers of their goroutines to be. */
  function Held(w: Sweeping, k: nat): set<nat>
    requires k <= |w.ids| && k <= |w.befores|
  {
    if k == 0 then {} else Held(w, k - 1) + if Claims(w, k - 1) then {w.befores[k - 1].nextProc} else {}
  }

  /** Others came between, acting on no claim the sweep holds and leaving the process alive. */
  ghost predicate Follows(reg: Registry, w: Sweeping, k: nat)
    requires k < |w.befores| == |w.steps| <= |w.ids| + 1
  {
    && w.befores[k] == From(reg, if k == 0 then w.start else DoSweep(w.befores[k - 1], w.ids[k - 1]), w.steps[k])
    && Foreign(w.steps[k], Held(w, k))
  }

  ghost predicate Sweeps(reg: Registry, w: Sweeping) {
    && 0 < |w.befores| == |w.steps| <= |w.ids| + 1
    && Candidates(w.start.st, w.start.now, w.ids)
    && forall k {:trigger Follows(reg, w, k)} :: 0 <= k < |w.befores| ==> Follows(reg, w, k)
  }

  /** a is pending, and no other action of r is. */
  ghost predicate LastPending(st: Store, a: nat, r: nat) {
    && a in st.actions && st.actions[a].run == r && st.actions[a].status.Pending?
    && forall b :: b in st.actions && st.actions[b].run == r && st.actions[b].status.Pending? ==> b == a
  }

  // ---- one candidate ---------------------------------------------------------

  /** Nothing happened, as far as runs and goroutines go. */
  ghost predicate NoClaim(b: Sys, t: Sys) {
    t.procs == b.procs && t.nextProc == b.nextProc
  }

  /** One resume of run r was claimed. */
  ghost predicate OneClaim(b: Sys, t: Sys, r: nat) {
    t.nextProc == b.nextProc + 1 && t.procs.Keys == b.procs.Keys + {b.nextProc}
    && t.procs[b.nextProc].run == r && t.procs[b.nextProc].pc.Claimed?
    && forall p :: p in b.procs ==> t.procs[p] == b.procs[p]
  }

  lemma AwaitsOther(st: Store, id: nat, a: Action)
    requires id in st.actions && id in st.audit && st.actions[id].status.Pending? && !a.status.Pending? && a.run == st.actions[id].run
    ensures AwaitsDecision(WithAction(st, id, a, Became(a.status)), a.run) <==> !LastPending(st, id, a.run)
  {
    var st' := WithAction(st, id, a, Became(a.status));
    if AwaitsDecision(st', a.run) {
      var b :| b in st'.actions && st'.actions[b].run == a.run && st'.actions[b].status.Pending?;
      assert b in st.actions && b != id;
    }
    if !LastPending(st, id, a.run) {
      var b :| b in st.actions && st.actions[b].run == a.run && st.actions[b].status.Pending? && b != id;
      assert b in st'.actions && st'.actions[b].status.Pending?;
    }
  }

  /** A candidate claims the resume of its run exactly when it is the last pending action there. */
  lemma CandidateClaims(reg: Registry, b: Sys, id: nat)
    requires SysInv(reg, b) && id in b.st.actions && b.st.actions[id].expiresAt <= b.now
    ensures var t := DoSweep(b, id); var r := b.st.actions[id].run;
            if LastPending(b.st, id, r) then OneClaim(b, t, r) else NoClaim(b, t)
    ensures SysInv(reg, DoSweep(b, id)) && LeavesMine(b, DoSweep(b, id), b.procs.Keys)
  {
    SparedStep(reg, b, Step.Sweep(id), b.procs.Keys);
    FreshProc(reg, b);
    if b.st.actions[id].status.Pending? {
      assert RowOk(b.st, id);
      var x := b.st.actions[id];
      var a := Decided(x, x.creator, "", Expired, Absent, false, b.now);
      AwaitsOther(b.st, id, a);
      TransitionKeeps(b.st, x.creator, "", id, Expired, Absent, false, b.now);
    }
  }

  // ---- on the way to candidate k ---------------------------------------------

  /** The claims held are goroutines that nobody has touched. */
  ghost predicate HoldsClaims(b: Sys, held: set<nat>) {
    forall p :: p in held ==> p in b.procs && p < b.nextProc
  }

  /** The candidates are still there and overdue. */
  ghost predicate StillDue(b: Sys, ids: seq<nat>) {
    forall k :: 0 <= k < |ids| ==> ids[k] in b.st.actions && b.st.actions[ids[k]].expiresAt <= b.now
  }

  ghost predicate OnTheWay(reg: Registry, b: Sys, ids: seq<nat>, held: set<nat>) {
    Reachable(reg, b) && HoldsClaims(b, held) && StillDue(b, ids)
  }

  lemma DueStays(b: Sys, t: Sys, ids: seq<nat>, mine: set<nat>)
    requires StillDue(b, ids) && LeavesMine(b, t, mine)
    ensures StillDue(t, ids)
  {
    forall k | 0 <= k < |ids| ensures ids[k] in t.st.actions && t.st.actions[ids[k]].expiresAt <= t.now {
      assert Stays(b.st, t.st, ids[k]);
    }
  }

  lemma OthersKeepTheWay(reg: Registry, b: Sys, ids: seq<nat>, held: set<nat>, steps: seq<Step>)
    requires OnTheWay(reg, b, ids, held) && Foreign(steps, held)
    ensures OnTheWay(reg, From(reg, b, steps), ids, held) && LeavesMine(b, From(reg, b, steps), held)
  {
    ReachedInv(reg, b);
    SparedSteps(reg, b, steps, held);
    StaysReachable(reg, b, steps);
    DueStays(b, From(reg, b, steps), ids, held);
  }

  lemma CandidateKeepsTheWay(reg: Registry, b: Sys, ids: seq<nat>, held: set<nat>, k: nat)
    requires OnTheWay(reg, b, ids, held) && k < |ids|
    ensures var t := DoSweep(b, ids[k]);
            OnTheWay(reg, t, ids, held + if t.nextProc > b.nextProc then {b.nextProc} else {}) && LeavesMine(b, t, held)
  {
    ReachedInv(reg, b);
    CandidateClaims(reg, b, ids[k]);
    StepReachable(reg, b, Step.Sweep(ids[k]));
    DueStays(b, DoSweep(b, ids[k]), ids, b.procs.Keys);
  }

  lemma HeldNext(w: Sweeping, k: nat)
    requires k < |w.ids| && k < |w.befores|
    ensures Held(w, k + 1) == Held(w, k) + if Claims(w, k) then {w.befores[k].nextProc} else {}
  {
  }

  /** One candidate, and the steps of others after it. */
  lemma WayOne(reg: Registry, w: Sweeping, k: nat)
    requires Sweeps(reg, w) && k + 1 < |w.befores| && OnTheWay(reg, w.befores[k], w.ids, Held(w, k))
    ensures OnTheWay(reg, w.befores[k + 1], w.ids, Held(w, k + 1))
    ensures LeavesMine(DoSweep(w.befores[k], w.ids[k]), w.befores[k + 1], Held(w, k + 1))
    ensures LeavesMine(w.befores[k], DoSweep(w.befores[k], w.ids[k]), Held(w, k))
  {
    assert Follows(reg, w, k + 1);
    CandidateKeepsTheWay(reg, w.befores[k], w.ids, Held(w, k), k);
    HeldNext(w, k);
    OthersKeepTheWay(reg, DoSweep(w.befores[k], w.ids[k]), w.ids, Held(w, k + 1), w.steps[k + 1]);
  }

  lemma WayStart(reg: Registry, w: Sweeping)
    requires Reachable(reg, w.start) && Sweeps(reg, w)
    ensures OnTheWay(reg, w.befores[0], w.ids, Held(w, 0))
  {
    assert Follows(reg, w, 0);
    OthersKeepTheWay(reg, w.start, w.ids, {}, w.steps[0]);
  }

  lemma WayNext(reg: Registry, w: Sweeping, k: nat)
    requires Sweeps(reg, w) && k + 1 < |w.befores| && OnTheWay(reg, w.befores[k], w.ids, Held(w, k))
    ensures OnTheWay(reg, w.befores[k + 1], w.ids, Held(w, k + 1))
  {
    WayOne(reg, w, k);
  }

  lemma {:induction false} Way(reg: Registry, w: Sweeping, k: nat)
    requires Reachable(reg, w.start) && Sweeps(reg, w) && k < |w.befores|
    ensures OnTheWay(reg, w.befores[k], w.ids, Held(w, k))
  {
    if k == 0 {
      WayStart(reg, w);
    } else {
      Way(reg, w, k - 1);
      WayNext(reg, w, k - 1);
    }
  }

  /** Candidate k is the last pending action of r when the sweep comes to it. */
  ghost predicate Empties(w: Sweeping, k: nat, r: nat)
    requires k < |w.ids| && k < |w.befores|
  {
    LastPending(w.befores[k].st, w.ids[k], r)
  }

  /** A claim made at candidate k is, when the sweep comes to candidate n, what it was. */
  ghost predicate StillHeld(w: Sweeping, k: nat, n: nat, r: nat)
    requires k < n < |w.befores| && n <= |w.ids|
  {
    var p := w.befores[k].nextProc;
    p in Held(w, n) && p in w.befores[n].procs && w.befores[n].procs[p].run == r
  }

  lemma ClaimMade(reg: Registry, w: Sweeping, k: nat, r: nat)
    requires Reachable(reg, w.start) && Sweeps(reg, w) && k + 1 < |w.befores| && Empties(w, k, r)
    ensures StillHeld(w, k, k + 1, r)
  {
    Way(reg, w, k);
    ReachedInv(reg, w.befores[k]);
    CandidateClaims(reg, w.befores[k], w.ids[k]);
    HeldNext(w, k);
    WayOne(reg, w, k);
  }

  lemma ClaimStays(reg: Registry, w: Sweeping, k: nat, n: nat, r: nat)
    requires Reachable(reg, w.start) && Sweeps(reg, w) && k < n && n + 1 < |w.befores| && StillHeld(w, k, n, r)
    ensures StillHeld(w, k, n + 1, r)
  {
    Way(reg, w, n);
    WayOne(reg, w, n);
    HeldNext(w, n);
  }

  lemma ClaimIsHeld(reg: Registry, w: Sweeping, k: nat, n: nat, r: nat)
    requires Reachable(reg, w.start) && Sweeps(reg, w) && k < n < |w.befores| && Empties(w, k, r)
    ensures StillHeld(w, k, n, r)
  {
    ClaimMade(reg, w, k, r);
    for m := k + 1 to n
      invariant StillHeld(w, k, m, r)
    {
      ClaimStays(reg, w, k, m, r);
    }
  }

  lemma {:induction false} HeldFrom(w: Sweeping, n: nat, p: nat) returns (k: nat)
    requires n <= |w.ids| && n <= |w.befores| && p in Held(w, n)
    ensures k < n && Claims(w, k) && w.befores[k].nextProc == p
  {
    if p in Held(w, n - 1) { k := HeldFrom(w, n - 1, p); } else { k := n - 1; }
  }

  /** Whatever the sweep holds, it claimed by emptying that run. */
  lemma HeldByEmptying(reg: Registry, w: Sweeping, n: nat, p: nat) returns (k: nat)
    requires Reachable(reg, w.start) && Sweeps(reg, w) && n < |w.befores| && p in Held(w, n)
    ensures p in w.befores[n].procs && k < n && p == w.befores[k].nextProc && Empties(w, k, w.befores[n].procs[p].run)
  {
    k := HeldFrom(w, n, p);
    Way(reg, w, k);
    ReachedInv(reg, w.befores[k]);
    CandidateClaims(reg, w.befores[k], w.ids[k]);
    ClaimIsHeld(reg, w, k, n, w.befores[k].st.actions[w.ids[k]].run);
  }

  // ---- a sweep that fails ----------------------------------------------------

  /** The sweep fails at candidate n: that transaction is rolled back, and what was claimed is told to nobody. */
  function Discarded(w: Sweeping): Sys
    requires 0 < |w.befores| <= |w.ids| + 1
  {
    var n := |w.befores| - 1;
    w.befores[n].(procs := w.befores[n].procs - Held(w, n))
  }

  /** The failure itself takes the goroutine-to-be of r away. */
  ghost predicate StrandsNow(w: Sweeping, r: nat)
    requires 0 < |w.befores| <= |w.ids| + 1
  {
    Orphaned(Discarded(w), r) && !Orphaned(w.befores[|w.befores| - 1], r)
  }

  /** What the failure strands was tended by a claim. */
  lemma HeldTends(w: Sweeping, r: nat) returns (p: nat)
    requires 0 < |w.befores| <= |w.ids| + 1 && StrandsNow(w, r)
    ensures p in Held(w, |w.befores| - 1) && p in w.befores[|w.befores| - 1].procs && w.befores[|w.befores| - 1].procs[p].run == r
  {
    var b := w.befores[|w.befores| - 1];
    p :| p in b.procs && b.procs[p].run == r;
    if p !in Held(w, |w.befores| - 1) { TendedBy(Discarded(w), p); }
  }

  /** No other goroutine tends the run of a claim. */
  lemma DiscardOrphans(reg: Registry, w: Sweeping, p: nat)
    requires 0 < |w.befores| <= |w.ids| + 1 && SysInv(reg, w.befores[|w.befores| - 1])
    requires p in Held(w, |w.befores| - 1) && p in w.befores[|w.befores| - 1].procs
    ensures StrandsNow(w, w.befores[|w.befores| - 1].procs[p].run)
  {
    var b := w.befores[|w.befores| - 1];
    assert ProcOk(b, p);
    TendedBy(b, p);
    forall q | q in Discarded(w).procs ensures Discarded(w).procs[q].run != b.procs[p].run { assert Apart(b, p, q); }
  }

  lemma StrandedWasEmptied(reg: Registry, w: Sweeping, r: nat) returns (k: nat)
    requires Reachable(reg, w.start) && Sweeps(reg, w) && |w.befores| <= |w.ids| && StrandsNow(w, r)
    ensures k < |w.befores| - 1 && Empties(w, k, r)
  {
    var p := HeldTends(w, r);
    k := HeldByEmptying(reg, w, |w.befores| - 1, p);
  }

  lemma EmptiedIsStranded(reg: Registry, w: Sweeping, k: nat, r: nat)
    requires Reachable(reg, w.start) && Sweeps(reg, w) && |w.befores| <= |w.ids| && k < |w.befores| - 1 && Empties(w, k, r)
    ensures StrandsNow(w, r)
  {
    Way(reg, w, |w.befores| - 1);
    ReachedInv(reg, w.befores[|w.befores| - 1]);
    ClaimIsHeld(reg, w, k, |w.befores| - 1, r);
    DiscardOrphans(reg, w, w.befores[k].nextProc);
  }

  /**
   A sweep that fails at candidate n strands r exactly when some candidate before n was, in the
   state just before its own transaction, the last pending action of r.
   */
  lemma InterruptedSweepStrandsExactly(reg: Registry, w: Sweeping, r: nat)
    requires Reachable(reg, w.start) && Sweeps(reg, w) && |w.befores| <= |w.ids|
    ensures StrandsNow(w, r) <==> exists k :: 0 <= k < |w.befores| - 1 && Empties(w, k, r)
  {
    if StrandsNow(w, r) {
      var k := StrandedWasEmptied(reg, w, r);
    }
    forall k | 0 <= k < |w.befores| - 1 && Empties(w, k, r) ensures StrandsNow(w, r) {
      EmptiedIsStranded(reg, w, k, r);
    }
  }

  // ---- it is all a run of the protocol ---------------------------------------

  lemma {:induction false} LoseAll(reg: Registry, s: Sys, held: set<nat>) returns (steps: seq<Step>)
    ensures From(reg, s, steps) == s.(procs := s.procs - held)
    decreases |held|
  {
    if held == {} {
      steps := [];
      assert s.procs - held == s.procs;
    } else {
      var p :| p in held;
      var front := LoseAll(reg, s, held - {p});
      steps := front + [Vanish(p)];
      FromStep(reg, s, front, Vanish(p));
      assert s.procs - held == s.procs - (held - {p}) - {p};
    }
  }

  /** A failing sweep, with the losses it means, is a run of the protocol. */
  lemma DiscardedIsReachable(reg: Registry, w: Sweeping)
    requires Reachable(reg, w.start) && Sweeps(reg, w)
    ensures Reachable(reg, Discarded(w))
  {
    var n := |w.befores| - 1;
    Way(reg, w, n);
    var steps := LoseAll(reg, w.befores[n], Held(w, n));
    StaysReachable(reg, w.befores[n], steps);
  }

  // ---- the stranding input is reached ----------------------------------------

  function Parks(st: Store, run: nat): Store
    requires run in st.runs
  {
    var mid := ParkedRun(st, run, [Asked]);
    mid.(actions := mid.actions[mid.nextId := Overslept(run, st.nextId)], audit := mid.audit[mid.nextId := [Created]], nextId := mid.nextId + 1)
  }

  lemma OneParked(reg: Registry, now: int)
    requires reg == map["pause" := Tool("pause", Consequential, "")]
    ensures Requests(reg, "owner", [Asked], now) == [Request(Asked, now + ApprovalWindow)]
  {
    assert [Asked][..0] == [];
    assert Requests(reg, "owner", [], now) == [];
    assert Parked(reg, "owner", "pause");
  }

  lemma TurnParks(reg: Registry, s: Sys, p: nat, run: nat)
    requires reg == map["pause" := Tool("pause", Consequential, "")] && s.now == 0
    requires p in s.procs && s.procs[p] == Proc(run, 7, "owner", Looping(0)) && run in s.st.runs && s.st.runs[run].status.Running?
    requires forall a :: a in s.st.actions ==> s.st.actions[a].run != run
    ensures var t := Apply(reg, s, Turn(p, [Asked], false));
            t.st == Parks(s.st, run) && t.procs == s.procs - {p} && t.now == 0
  {
    OneParked(reg, 0);
    var mid := ParkedRun(s.st, run, [Asked]);
    var request := Request(Asked, ApprovalWindow);
    assert [request][..0] == [];
    assert InsertActions(mid, 7, "owner", run, s.st.nextId, []) == Success(mid);
    assert HasPart(mid.messages[s.st.nextId].calls, Asked.id) by { assert [Asked][0].id == Asked.id; }
    assert !CallTaken(mid, run, Asked.id);
    assert Pause(s.st, 7, "owner", run, [Asked], [request]) == InsertAction(mid, 7, "owner", run, s.st.nextId, request);
    assert DistinctIds([Asked]);
  }

  const TwoRunning := Store(map[0 := Run(7, Running), 1 := Run(7, Running)], map[], map[], map[], 2)

  lemma TwoBegins(reg: Registry) returns (s: Sys)
    ensures Reachable(reg, s) && s.st == TwoRunning && s.now == 0
    ensures s.procs == map[0 := Proc(0, 7, "owner", Looping(0)), 1 := Proc(1, 7, "owner", Looping(0))]
  {
    assert Reachable(reg, Init) by { assert Exec(reg, []) == Init; }
    StepReachable(reg, Init, Begin(7, "owner"));
    s := DoBegin(Init, 7, "owner");
    assert s.st == Store(map[0 := Run(7, Running)], map[], map[], map[], 1);
    StepReachable(reg, s, Begin(7, "owner"));
    s := DoBegin(s, 7, "owner");
  }

  /** The first run is parked, the second still running. */
  const OnePaused := Store(
    map[0 := Run(7, PausedApproval), 1 := Run(7, Running)],
    map[2 := Message(0, [Asked])], map[3 := Overslept(0, 2)], map[3 := [Created]], 4)

  lemma FirstParks()
    ensures Parks(TwoRunning, 0) == OnePaused
  {
  }

  lemma SecondParks()
    ensures Parks(OnePaused, 1) == TwoPaused
  {
  }

  lemma FirstTurn(reg: Registry, s: Sys) returns (t: Sys)
    requires reg == map["pause" := Tool("pause", Consequential, "")]
    requires Reachable(reg, s) && s.st == TwoRunning && s.now == 0
    requires s.procs == map[0 := Proc(0, 7, "owner", Looping(0)), 1 := Proc(1, 7, "owner", Looping(0))]
    ensures Reachable(reg, t) && t.st == OnePaused && t.now == 0 && t.procs == map[1 := Proc(1, 7, "owner", Looping(0))]
  {
    t := Apply(reg, s, Turn(0, [Asked], false));
    StepReachable(reg, s, Turn(0, [Asked], false));
    TurnParks(reg, s, 0, 0);
    FirstParks();
  }

  lemma SecondTurn(reg: Registry, s: Sys) returns (t: Sys)
    requires reg == map["pause" := Tool("pause", Consequential, "")]
    requires Reachable(reg, s) && s.st == OnePaused && s.now == 0 && s.procs == map[1 := Proc(1, 7, "owner", Looping(0))]
    ensures Reachable(reg, t) && t.st == TwoPaused && t.now == 0
  {
    t := Apply(reg, s, Turn(1, [Asked], false));
    StepReachable(reg, s, Turn(1, [Asked], false));
    TurnParks(reg, s, 1, 1);
    SecondParks();
  }

  /** Two runs pause, and a day passes. */
  lemma TwoPauses(reg: Registry) returns (s: Sys)
    requires reg == map["pause" := Tool("pause", Consequential, "")]
    ensures Reachable(reg, s) && s.st == TwoPaused && s.now == ApprovalWindow
  {
    s := TwoBegins(reg);
    s := FirstTurn(reg, s);
    s := SecondTurn(reg, s);
    StepReachable(reg, s, Tick(ApprovalWindow));
    s := Apply(reg, s, Tick(ApprovalWindow));
  }

  /** A sweep nobody interrupts that has settled 3 and come to 5. */
  function SecondFails(s: Sys): Sweeping {
    Sweeping(s, [3, 5], [[], []], [s, DoSweep(s, 3)])
  }

  lemma SecondFailsSweeps(reg: Registry, s: Sys)
    requires s.st == TwoPaused && s.now == ApprovalWindow && OldestOverdue(s.st, s.now, 100, [3, 5])
    ensures Sweeps(reg, SecondFails(s)) && Empties(SecondFails(s), 0, 0)
  {
    var w := SecondFails(s);
    assert Follows(reg, w, 0) && Follows(reg, w, 1);
    assert LastPending(s.st, 3, 0);
  }

  /** A reachable state whose sweep, failing at its second candidate, strands a run. */
  lemma ReachedSweepCanStrand(reg: Registry) returns (s: Sys)
    requires reg == map["pause" := Tool("pause", Consequential, "")]
    ensures Reachable(reg, s) && s.st == TwoPaused && OldestOverdue(s.st, s.now, 100, [3, 5])
    ensures Sweeps(reg, SecondFails(s)) && StrandsNow(SecondFails(s), 0)
  {
    s := TwoPauses(reg);
    SweepCanStrandARun();
    SecondFailsSweeps(reg, s);
    InterruptedSweepStrandsExactly(reg, SecondFails(s), 0);
  }
}
