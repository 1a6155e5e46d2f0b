/** The protocol from a given state on, and what the steps of others leave alone. */
module ApprovalRuns {
  import opened ToolGate
  import opened ApprovalStore
  import opened ApprovalProtocol
  import opened ApprovalSafety
  import opened ApprovalTheorems
  import opened ApprovalTiming

  function From(reg: Registry, s: Sys, schedule: seq<Step>): Sys {
    if schedule == [] then s else Apply(reg, From(reg, s, schedule[..|schedule| - 1]), schedule[|schedule| - 1])
  }

  lemma FromStep(reg: Registry, s: Sys, schedule: seq<Step>, step: Step)
    ensures From(reg, s, schedule + [step]) == Apply(reg, From(reg, s, schedule), step)
  {
    assert (schedule + [step])[..|schedule|] == schedule;
  }

  lemma {:induction false} FromConcat(reg: Registry, s: Sys, first: seq<Step>, second: seq<Step>)
    ensures From(reg, s, first + second) == From(reg, From(reg, s, first), second)
    decreases |second|
  {
    if second == [] {
      assert first + second == first;
    } else {
      var front, step := second[..|second| - 1], second[|second| - 1];
      FromConcat(reg, s, first, front);
      FromStep(reg, s, first + front, step);
      assert first + second == (first + front) + [step];
    }
  }

  /** Schedules compose. */
  lemma {:induction false} FromExec(reg: Registry, first: seq<Step>, second: seq<Step>)
    ensures Exec(reg, first + second) == From(reg, Exec(reg, first), second)
  {
    if second == [] {
      assert first + second == first;
    } else {
      var last := |second| - 1;
      FromExec(reg, first, second[..last]);
      assert (first + second)[..|first + second| - 1] == first + second[..last];
    }
  }

  /** So what is promised of every reachable state holds wherever a schedule leads from one. */
  lemma StaysReachable(reg: Registry, s: Sys, schedule: seq<Step>)
    requires Reachable(reg, s)
    ensures Reachable(reg, From(reg, s, schedule))
  {
    var first: seq<Step> :| s == Exec(reg, first);
    FromExec(reg, first, schedule);
    assert From(reg, s, schedule) == Exec(reg, first + schedule);
  }

  lemma StepReachable(reg: Registry, s: Sys, step: Step)
    requires Reachable(reg, s)
    ensures Reachable(reg, Apply(reg, s, step))
  {
    FromStep(reg, s, [], step);
    StaysReachable(reg, s, [] + [step]);
  }

  /** The schedule leads from s0 to s. */
  ghost predicate Led(reg: Registry, s0: Sys, schedule: seq<Step>, s: Sys) {
    From(reg, s0, schedule) == s
  }

  lemma LedBy(reg: Registry, s0: Sys, schedule: seq<Step>, s: Sys, step: Step)
    requires Led(reg, s0, schedule, s)
    ensures Led(reg, s0, schedule + [step], Apply(reg, s, step))
  {
    FromStep(reg, s0, schedule, step);
  }

  lemma LedOn(reg: Registry, s0: Sys, schedule: seq<Step>, s: Sys, steps: seq<Step>)
    requires Led(reg, s0, schedule, s)
    ensures Led(reg, s0, schedule + steps, From(reg, s, steps))
  {
    FromConcat(reg, s0, schedule, steps);
  }

  // ---- the steps of others ---------------------------------------------------

  /** The step is not taken by one of these goroutines, and does not end the process they belong to. */
  predicate Spares(step: Step, mine: set<nat>) {
    match step
    case Begin(_, _) => true
    case Tick(_) => true
    case Decide(_, _, _, _, _) => true
    case Sweep(_) => true
    case CancelRun(_, _) => true
    case Restart => false
    case _ => step.p !in mine
  }

  predicate Foreign(steps: seq<Step>, mine: set<nat>) {
    forall k :: 0 <= k < |steps| ==> Spares(steps[k], mine)
  }

  /** What others cannot change: my goroutines, the rows there are and their deadlines, and the clock's direction. */
  ghost predicate LeavesMine(s: Sys, t: Sys, mine: set<nat>) {
    && s.now <= t.now && s.nextProc <= t.nextProc
    && (forall p :: p in mine && p in s.procs ==> p in t.procs && t.procs[p] == s.procs[p])
    && (forall a {:trigger Stays(s.st, t.st, a)} :: Stays(s.st, t.st, a))
  }

  lemma SparedTransition(s: Sys, user: nat, role: string, id: nat, verdict: Status, edited: Json, human: bool, q: nat)
    requires q in s.procs && q < s.nextProc
    ensures var t := DoTransition(s, user, role, id, verdict, edited, human);
            s.nextProc <= t.nextProc && q in t.procs && t.procs[q] == s.procs[q]
  {
  }

  lemma SparedProcStep(reg: Registry, s: Sys, p: nat, step: Step, q: nat)
    requires p in s.procs && q in s.procs && q != p
    ensures var t := ProcStep(reg, s, p, step); t.nextProc == s.nextProc && q in t.procs && t.procs[q] == s.procs[q]
  {
  }

  lemma SparedProc(reg: Registry, s: Sys, step: Step, mine: set<nat>, q: nat)
    requires SysInv(reg, s) && Spares(step, mine) && q in mine && q in s.procs
    ensures var t := Apply(reg, s, step); q in t.procs && t.procs[q] == s.procs[q]
  {
    assert ProcOk(s, q);
    match step
    case Begin(_, _) =>
    case Tick(_) =>
    case Decide(user, role, id, approve, edited) => SparedTransition(s, user, role, id, if approve then Approved else Rejected, edited, true, q);
    case Sweep(id) => if id in s.st.actions { SparedTransition(s, s.st.actions[id].creator, "", id, Expired, Absent, false, q); }
    case CancelRun(_, _) =>
    case Restart =>
    case _ => if step.p in s.procs { SparedProcStep(reg, s, step.p, step, q); }
  }

  lemma NumbersGrow(reg: Registry, s: Sys, step: Step)
    ensures s.nextProc <= Apply(reg, s, step).nextProc
  {
  }

  lemma SparedStep(reg: Registry, s: Sys, step: Step, mine: set<nat>)
    requires SysInv(reg, s) && Spares(step, mine)
    ensures SysInv(reg, Apply(reg, s, step)) && LeavesMine(s, Apply(reg, s, step), mine)
  {
    ApplyKeeps(reg, s, step);
    ClockStep(reg, s, step);
    NumbersGrow(reg, s, step);
    forall q | q in mine && q in s.procs ensures q in Apply(reg, s, step).procs && Apply(reg, s, step).procs[q] == s.procs[q] {
      SparedProc(reg, s, step, mine, q);
    }
    forall a ensures Stays(s.st, Apply(reg, s, step).st, a) { RowStaysPut(reg, s, step, a); }
  }

  lemma LeavesTwice(s: Sys, t: Sys, u: Sys, mine: set<nat>)
    requires LeavesMine(s, t, mine) && LeavesMine(t, u, mine)
    ensures LeavesMine(s, u, mine)
  {
    forall a ensures Stays(s.st, u.st, a) { assert Stays(s.st, t.st, a) && Stays(t.st, u.st, a); }
  }

  lemma {:induction false} SparedSteps(reg: Registry, s: Sys, steps: seq<Step>, mine: set<nat>)
    requires SysInv(reg, s) && Foreign(steps, mine)
    ensures SysInv(reg, From(reg, s, steps)) && LeavesMine(s, From(reg, s, steps), mine)
  {
    if steps != [] {
      var front := steps[..|steps| - 1];
      SparedSteps(reg, s, front, mine);
      SparedStep(reg, From(reg, s, front), steps[|steps| - 1], mine);
      LeavesTwice(s, From(reg, s, front), From(reg, s, steps), mine);
    }
  }
}
