/** The expiry sweep against the real tables, with any steps of others before each of its transactions. */
module SweepLoop {
  import opened Wrappers
  import opened ToolGate
  import opened ApprovalStore
  import opened ApprovalTables
  import opened ApprovalSweep
  import opened ApprovalProtocol
  import opened ApprovalTheorems
  import opened ApprovalRuns
  import opened InterruptedSweep

  /** One candidate's transaction: the resume it claims, if it emptied its run. */
  method SettleCandidate(reg: Registry, store: PgStore, b: Sys, id: nat) returns (t: Sys, start: Option<Start>)
    requires Reachable(reg, b) && store.State() == b.st && id in b.st.actions && b.st.actions[id].expiresAt <= b.now
    modifies store
    ensures t == DoSweep(b, id) && store.State() == t.st
    ensures start.Some? <==> LastPending(b.st, id, b.st.actions[id].run)
    ensures start.Some? ==> start.value.run == b.st.actions[id].run
  {
    ReachedInv(reg, b);
    CandidateClaims(reg, b, id);
    ClaimNames(reg, b, id);
    t := DoSweep(b, id);
    var r := store.TransitionPendingAction(store.actions[id].creator, "", id, Expired, Absent, false, b.now);
    start := if r.Success? then r.value else None;
  }

  /** The transaction and the protocol's step agree on what was claimed. */
  lemma ClaimNames(reg: Registry, b: Sys, id: nat)
    requires Reachable(reg, b) && id in b.st.actions && b.st.actions[id].expiresAt <= b.now
    ensures var r := Transition(b.st, b.st.actions[id].creator, "", id, Expired, Absent, false, b.now);
            && (DoSweep(b, id).st == if r.Success? then r.value.0 else b.st)
            && (r.Success? && r.value.1.Some? <==> LastPending(b.st, id, b.st.actions[id].run))
            && (r.Success? && r.value.1.Some? ==> r.value.1.value.run == b.st.actions[id].run)
  {
    ReachedInv(reg, b);
    CandidateClaims(reg, b, id);
  }

  /** The sweep has come to candidate `|w.befores| - 1` by the steps `others` gives. */
  ghost predicate ByOthers(w: Sweeping, s: Sys, others: nat -> seq<Step>) {
    w.start == s && |w.steps| == |w.befores| && forall j :: 0 <= j < |w.steps| ==> w.steps[j] == others(j)
  }

  /** Whatever the sweep holds when it has settled a candidate, the next steps of others leave alone. */
  ghost predicate Fair(reg: Registry, w: Sweeping, s: Sys, others: nat -> seq<Step>) {
    Sweeps(reg, w) && ByOthers(w, s, others) && |w.befores| <= |w.ids| ==> Foreign(others(|w.befores|), Held(w, |w.befores|))
  }

  /** Exactly the runs the sweep emptied are told. */
  ghost predicate TellsEmptied(w: Sweeping, starts: seq<Start>, n: nat)
    requires n <= |w.ids| && n <= |w.befores|
  {
    forall r :: NamesRun(starts, r) <==> exists k :: 0 <= k < n && Empties(w, k, r)
  }

  /** The sweep one candidate further. */
  function Further(reg: Registry, w: Sweeping, t: Sys, steps: seq<Step>): Sweeping {
    w.(steps := w.steps + [steps], befores := w.befores + [From(reg, t, steps)])
  }

  lemma {:induction false} HeldSame(w: Sweeping, v: Sweeping, k: nat)
    requires k <= |w.ids| && k <= |w.befores| <= |v.befores| && v.ids == w.ids
    requires forall j :: 0 <= j < |w.befores| ==> v.befores[j] == w.befores[j]
    ensures Held(v, k) == Held(w, k)
  {
    if k > 0 { HeldSame(w, v, k - 1); }
  }

  lemma FurtherSweeps(reg: Registry, w: Sweeping, s: Sys, others: nat -> seq<Step>)
    requires Sweeps(reg, w) && ByOthers(w, s, others) && |w.befores| <= |w.ids| && Fair(reg, w, s, others)
    ensures var n := |w.befores| - 1;
            var v := Further(reg, w, DoSweep(w.befores[n], w.ids[n]), others(n + 1));
            Sweeps(reg, v) && ByOthers(v, s, others)
  {
    var n := |w.befores| - 1;
    var v := Further(reg, w, DoSweep(w.befores[n], w.ids[n]), others(n + 1));
    forall k {:trigger Follows(reg, v, k)} | 0 <= k < |v.befores| ensures Follows(reg, v, k) {
      if k <= n { assert Follows(reg, w, k); }
      HeldSame(w, v, k);
    }
  }

  lemma FurtherTells(w: Sweeping, v: Sweeping, starts: seq<Start>, n: nat, start: Option<Start>)
    requires n < |w.ids| && n + 1 == |w.befores| && v.ids == w.ids && |v.befores| == n + 2
    requires forall j :: 0 <= j <= n ==> v.befores[j] == w.befores[j]
    requires TellsEmptied(w, starts, n) && w.ids[n] in w.befores[n].st.actions
    requires start.Some? <==> Empties(w, n, w.befores[n].st.actions[w.ids[n]].run)
    requires start.Some? ==> start.value.run == w.befores[n].st.actions[w.ids[n]].run
    ensures TellsEmptied(v, starts + if start.Some? then [start.value] else [], n + 1)
  {
    var after := starts + if start.Some? then [start.value] else [];
    if start.Some? { NamesAppend(starts, start.value); } else { assert after == starts; }
    forall r ensures NamesRun(after, r) <==> exists k :: 0 <= k < n + 1 && Empties(v, k, r) {
      assert forall k :: 0 <= k <= n ==> (Empties(v, k, r) <==> Empties(w, k, r));
      assert NamesRun(starts, r) <==> exists k :: 0 <= k < n && Empties(w, k, r);
    }
  }

  /** The sweep has come to candidate n in state t and gathered these resumes. */
  ghost predicate Standing(reg: Registry, w: Sweeping, s: Sys, others: nat -> seq<Step>, n: nat, t: Sys, gathered: seq<Start>) {
    && Sweeps(reg, w) && ByOthers(w, s, others) && |w.befores| == n + 1 && n <= |w.ids|
    && t == w.befores[n] && TellsEmptied(w, gathered, n)
  }

  /** One candidate, and then the others. */
  method NextCandidate(reg: Registry, store: PgStore, ghost s: Sys, others: nat -> seq<Step>, n: nat, id: nat, t: Sys, gathered: seq<Start>, ghost w: Sweeping)
    returns (t': Sys, gathered': seq<Start>, ghost w': Sweeping)
    requires Reachable(reg, s) && store.State() == t.st && Standing(reg, w, s, others, n, t, gathered)
    requires n < |w.ids| && id == w.ids[n] && Fair(reg, w, s, others)
    modifies store
    ensures store.State() == t'.st && Standing(reg, w', s, others, n + 1, t', gathered') && w'.ids == w.ids
  {
    Way(reg, w, n);
    FurtherSweeps(reg, w, s, others);
    var start;
    t', start := SettleCandidate(reg, store, t, id);
    w' := Further(reg, w, t', others(n + 1));
    FurtherTells(w, w', gathered, n, start);
    gathered' := gathered + if start.Some? then [start.value] else [];
    t' := From(reg, t', others(n + 1));
    store.Commit(t'.st);
  }

  lemma SweepStarts(reg: Registry, s: Sys, ids: seq<nat>, limit: nat, others: nat -> seq<Step>)
    requires Reachable(reg, s) && OldestOverdue(s.st, s.now, limit, ids) && Foreign(others(0), {})
    ensures Standing(reg, Sweeping(s, ids, [others(0)], [From(reg, s, others(0))]), s, others, 0, From(reg, s, others(0)), [])
  {
    assert Follows(reg, Sweeping(s, ids, [others(0)], [From(reg, s, others(0))]), 0);
  }

  /**
   `ExpirePendingActions`. `readable` says whether the query succeeds, `faults` at which candidates
   the store fails, `others(k)` what others do just before the sweep comes to candidate k.
   */
  method ExpirePendingActions(reg: Registry, store: PgStore, s: Sys, limit: nat, readable: bool, faults: set<nat>, others: nat -> seq<Step>)
    returns (starts: Option<seq<Start>>, t: Sys, ghost w: Sweeping)
    requires Reachable(reg, s) && store.State() == s.st
    requires Foreign(others(0), {}) && forall w {:trigger Fair(reg, w, s, others)} :: Fair(reg, w, s, others)
    modifies store
    ensures store.State() == t.st
    ensures !readable ==> t == s && starts == None
    ensures readable ==>
              && Sweeps(reg, w) && ByOthers(w, s, others) && OldestOverdue(s.st, s.now, limit, w.ids)
              && t == w.befores[|w.befores| - 1] && NoFault(faults, |w.befores| - 1)
              && (starts.None? ==> |w.befores| <= |w.ids| && |w.befores| - 1 in faults)
              && (starts.Some? ==> |w.befores| == |w.ids| + 1 && TellsEmptied(w, starts.value, |w.ids|))
  {
    t := s;
    w := Sweeping(s, [], [], []);
    if !readable { return None, t, w; }
    var ids := store.OverdueActions(s.now, limit);
    t := From(reg, s, others(0));
    store.Commit(t.st);
    w := Sweeping(s, ids, [others(0)], [t]);
    SweepStarts(reg, s, ids, limit, others);
    var gathered: seq<Start> := [];
    for i := 0 to |ids|
      invariant Standing(reg, w, s, others, i, t, gathered) && w.ids == ids
      invariant store.State() == t.st && NoFault(faults, i)
    {
      if i in faults { return None, t, w; }
      assert Fair(reg, w, s, others);
      t, gathered, w := NextCandidate(reg, store, s, others, i, ids[i], t, gathered, w);
    }
    starts := Some(gathered);
  }
}
