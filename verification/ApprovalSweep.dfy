/** The expiry sweep: exactly which runs it lets go, who is told, and which of them it strands. */
module ApprovalSweep {
  import opened Wrappers
  import opened ToolGate
  import opened ApprovalStore
  import opened StoreInvariants
  import opened ApprovalTables

  /** What the query of a sweep returns: distinct overdue actions. */
  ghost predicate Candidates(st: Store, now: int, ids: seq<nat>) {
    && (forall k :: 0 <= k < |ids| ==> Overdue(st, now, ids[k]))
    && (forall j, k :: 0 <= j < k < |ids| ==> ids[j] != ids[k])
  }

  ghost predicate NoFault(faults: set<nat>, n: nat) {
    forall k :: 0 <= k < n ==> k !in faults
  }

  /** Every pending action of the run is among these. */
  ghost predicate AllPendingIn(st: Store, r: nat, ids: seq<nat>) {
    forall a :: a in st.actions && st.actions[a].run == r && st.actions[a].status.Pending? ==> a in ids
  }

  /** The run is paused, and settling these actions settles the last of its pending ones. */
  ghost predicate Emptied(st: Store, r: nat, ids: seq<nat>) {
    r in st.runs && st.runs[r].status.PausedApproval? && AllPendingIn(st, r, ids)
  }

  function ExpiredRow(a: Action): Action {
    a.(status := Expired, edited := Absent, decidedBy := None)
  }

  ghost predicate RowSwept(st: Store, st': Store, ids: seq<nat>, a: nat) {
    && (a in st'.actions <==> a in st.actions)
    && (a in st.actions ==> st'.actions[a] == if a in ids then ExpiredRow(st.actions[a]) else st.actions[a])
  }

  ghost predicate RunSwept(st: Store, st': Store, ids: seq<nat>, r: nat) {
    && (r in st'.runs <==> r in st.runs)
    && (r in st.runs ==> st'.runs[r] == if Emptied(st, r, ids) then st.runs[r].(status := Running) else st.runs[r])
  }

  /** The tables after a sweep over these: each expired, and each run they emptied let go. */
  ghost predicate Swept(st: Store, st': Store, ids: seq<nat>) {
    && StoreInv(st')
    && (forall a {:trigger RowSwept(st, st', ids, a)} :: RowSwept(st, st', ids, a))
    && (forall r {:trigger RunSwept(st, st', ids, r)} :: RunSwept(st, st', ids, r))
  }

  lemma NothingSwept(st: Store)
    requires StoreInv(st)
    ensures Swept(st, st, [])
  {
    forall r ensures RunSwept(st, st, [], r) {
      assert RunOk(st, r);
    }
  }

  /** One more candidate expires. */
  lemma SweptOneMore(st: Store, mid: Store, ids: seq<nat>, id: nat, now: int)
    requires StoreInv(st) && Swept(st, mid, ids) && id !in ids && Overdue(st, now, id)
    ensures id in mid.actions
    ensures var t := Transition(mid, mid.actions[id].creator, "", id, Expired, Absent, false, now);
            && t.Success? && Swept(st, t.value.0, ids + [id])
            && (t.value.1.Some? <==> Emptied(st, st.actions[id].run, ids + [id]))
            && (t.value.1.Some? ==> t.value.1.value.run == st.actions[id].run)
  {
    assert RowSwept(st, mid, ids, id) && RowOk(mid, id);
    var t := Transition(mid, mid.actions[id].creator, "", id, Expired, Absent, false, now);
    TransitionKeeps(mid, mid.actions[id].creator, "", id, Expired, Absent, false, now);
    var st' := t.value.0;
    var all := ids + [id];
    forall a ensures RowSwept(st, st', all, a) { assert RowSwept(st, mid, ids, a); }
    PendingLeft(st, mid, st', ids, id);
    forall r ensures RunSwept(st, st', all, r) {
      assert RunSwept(st, mid, ids, r) && RunSwept(st, mid, ids, st.actions[id].run);
      assert id in all;
      EmptiedByOne(st, ids, id, r);
    }
  }

  /** What is pending after the sweep is what was pending and not swept. */
  lemma PendingLeft(st: Store, mid: Store, st': Store, ids: seq<nat>, id: nat)
    requires Swept(st, mid, ids) && id in st.actions
    requires forall a {:trigger RowSwept(st, st', ids + [id], a)} :: RowSwept(st, st', ids + [id], a)
    ensures AwaitsDecision(st', st.actions[id].run) <==> !AllPendingIn(st, st.actions[id].run, ids + [id])
  {
    var r, all := st.actions[id].run, ids + [id];
    if AwaitsDecision(st', r) {
      var a :| a in st'.actions && st'.actions[a].run == r && st'.actions[a].status.Pending?;
      assert RowSwept(st, st', all, a);
    }
    if !AllPendingIn(st, r, all) {
      var a :| a in st.actions && st.actions[a].run == r && st.actions[a].status.Pending? && a !in all;
      assert RowSwept(st, st', all, a);
    }
  }

  /** Another run's actions do not change what empties a run; its own pending action was missing before. */
  lemma EmptiedByOne(st: Store, ids: seq<nat>, id: nat, r: nat)
    requires id in st.actions && st.actions[id].status.Pending? && id !in ids
    ensures r != st.actions[id].run ==> (AllPendingIn(st, r, ids + [id]) <==> AllPendingIn(st, r, ids))
    ensures r == st.actions[id].run ==> !AllPendingIn(st, r, ids)
  {
    assert forall a :: a in ids + [id] <==> a in ids || a == id;
  }

  ghost predicate NamesRun(starts: seq<Start>, r: nat) {
    exists k :: 0 <= k < |starts| && starts[k].run == r
  }

  /** The resumes name exactly the runs emptied. */
  ghost predicate TellsAll(st: Store, starts: seq<Start>, ids: seq<nat>) {
    forall r :: NamesRun(starts, r) <==> Emptied(st, r, ids)
  }

  lemma NamesAppend(starts: seq<Start>, start: Start)
    ensures forall r :: NamesRun(starts + [start], r) <==> NamesRun(starts, r) || r == start.run
  {
    forall r ensures NamesRun(starts + [start], r) <==> NamesRun(starts, r) || r == start.run {
      assert (starts + [start])[|starts|] == start;
      if NamesRun(starts, r) {
        var k :| 0 <= k < |starts| && starts[k].run == r;
        assert (starts + [start])[k].run == r;
      }
    }
  }

  lemma TellsNext(st: Store, starts: seq<Start>, ids: seq<nat>, id: nat, start: Option<Start>)
    requires TellsAll(st, starts, ids)
    requires id in st.actions && st.actions[id].status.Pending? && id !in ids
    requires start.Some? <==> Emptied(st, st.actions[id].run, ids + [id])
    requires start.Some? ==> start.value.run == st.actions[id].run
    ensures TellsAll(st, starts + if start.Some? then [start.value] else [], ids + [id])
  {
    var after := starts + if start.Some? then [start.value] else [];
    if start.Some? { NamesAppend(starts, start.value); } else { assert after == starts; }
    forall r ensures NamesRun(after, r) <==> Emptied(st, r, ids + [id]) {
      EmptiedByOne(st, ids, id, r);
    }
  }

  /** A sweep that meets no failure expires its candidates, lets go exactly the runs they empty, and tells exactly those. */
  lemma {:induction false} CleanSweep(st: Store, ids: seq<nat>, faults: set<nat>, now: int)
    requires StoreInv(st) && Candidates(st, now, ids) && NoFault(faults, |ids|)
    ensures var (st', starts) := Sweep(st, ids, faults, now);
            Swept(st, st', ids) && starts.Some? && TellsAll(st, starts.value, ids)
  {
    if ids == [] {
      NothingSwept(st);
      forall r ensures !Emptied(st, r, []) { assert RunOk(st, r); }
    } else {
      var front, id := ids[..|ids| - 1], ids[|ids| - 1];
      CleanSweep(st, front, faults, now);
      var (mid, starts) := Sweep(st, front, faults, now);
      SweptOneMore(st, mid, front, id, now);
      var t := Transition(mid, mid.actions[id].creator, "", id, Expired, Absent, false, now).value;
      TellsNext(st, starts.value, front, id, t.1);
      assert ids == front + [id];
    }
  }

  // ---- who is told, and who is not --------------------------------------------

  /** The runs a sweep let go. */
  ghost predicate Released(st: Store, st': Store, r: nat) {
    r in st.runs && r in st'.runs && st.runs[r].status.PausedApproval? && !st'.runs[r].status.PausedApproval?
  }

  ghost predicate FirstFault(faults: set<nat>, ids: seq<nat>, n: nat) {
    n < |ids| && n in faults && NoFault(faults, n)
  }

  lemma {:induction false} FaultOrNone(faults: set<nat>, ids: seq<nat>, k: nat)
    requires k <= |ids|
    ensures NoFault(faults, k) || exists n: nat :: FirstFault(faults, ids, n)
  {
    if k > 0 {
      FaultOrNone(faults, ids, k - 1);
      if NoFault(faults, k - 1) && k - 1 in faults { assert FirstFault(faults, ids, k - 1); }
    }
  }

  /** A sweep stops at its first failure: what it settled before stays, and nobody is told. */
  lemma FaultySweep(st: Store, ids: seq<nat>, faults: set<nat>, now: int, n: nat)
    requires StoreInv(st) && Candidates(st, now, ids) && FirstFault(faults, ids, n)
    ensures var (st', starts) := Sweep(st, ids, faults, now);
            Swept(st, st', ids[..n]) && starts.None?
  {
    CleanSweep(st, ids[..n], faults, now);
    assert ids[..n + 1][..n] == ids[..n];
    assert Sweep(st, ids[..n + 1], faults, now) == (Sweep(st, ids[..n], faults, now).0, None);
    SweepFails(st, ids, faults, now, n + 1);
  }

  lemma SweptReleases(st: Store, st': Store, ids: seq<nat>, r: nat)
    requires Swept(st, st', ids)
    ensures Released(st, st', r) <==> Emptied(st, r, ids)
  {
    assert RunSwept(st, st', ids, r);
  }

  /** A run is let go and nobody is told: it reads as running and no goroutine will run it. */
  ghost predicate Strands(st: Store, ids: seq<nat>, faults: set<nat>, now: int, r: nat) {
    Released(st, Sweep(st, ids, faults, now).0, r) &&
    (Sweep(st, ids, faults, now).1.None? || !NamesRun(Sweep(st, ids, faults, now).1.value, r))
  }

  /** Exactly the runs emptied by the candidates before the first store failure are stranded. */
  lemma SweepStrandsExactly(st: Store, ids: seq<nat>, faults: set<nat>, now: int, r: nat)
    requires StoreInv(st) && Candidates(st, now, ids)
    ensures Strands(st, ids, faults, now, r) <==> exists n: nat :: FirstFault(faults, ids, n) && Emptied(st, r, ids[..n])
  {
    FaultOrNone(faults, ids, |ids|);
    if NoFault(faults, |ids|) {
      CleanSweep(st, ids, faults, now);
      SweptReleases(st, Sweep(st, ids, faults, now).0, ids, r);
    } else {
      var n: nat :| FirstFault(faults, ids, n);
      FaultySweep(st, ids, faults, now, n);
      SweptReleases(st, Sweep(st, ids, faults, now).0, ids[..n], r);
      forall m: nat | FirstFault(faults, ids, m) ensures m == n { }
    }
  }

  // ---- a sweep that strands a run --------------------------------------------

  const Asked := Call("call-1", "pause", Object("{}"))

  function Overslept(run: nat, message: nat): Action {
    Action(run, message, 7, "owner", Asked, Absent, Pending, None, 86400)
  }

  /** Two runs of one user, both paused at the clock's zero with one action each, whose deadlines have passed a day later. */
  const TwoPaused := Store(
    map[0 := Run(7, PausedApproval), 1 := Run(7, PausedApproval)],
    map[2 := Message(0, [Asked]), 4 := Message(1, [Asked])],
    map[3 := Overslept(0, 2), 5 := Overslept(1, 4)],
    map[3 := [Created], 5 := [Created]], 6)

  lemma TwoPausedIsSound()
    ensures StoreInv(TwoPaused)
  {
    ReplayStep([], Created);
    assert [] + [Created] == [Created];
    assert TwoPaused.actions[3].run == 0 && TwoPaused.actions[5].run == 1;
  }

  /** The store fails at the second of two candidates: the first run is let go, and nobody is told. */
  lemma SweepCanStrandARun()
    ensures StoreInv(TwoPaused) && OldestOverdue(TwoPaused, 86400, 100, [3, 5])
    ensures Strands(TwoPaused, [3, 5], {1}, 86400, 0)
  {
    TwoPausedIsSound();
    assert [3, 5][..1] == [3];
    assert FirstFault({1}, [3, 5], 1);
    assert Emptied(TwoPaused, 0, [3, 5][..1]);
    SweepStrandsExactly(TwoPaused, [3, 5], {1}, 86400, 0);
  }
}
