/**
 What the book of a schedule proves of it: a dispatched call was asked for, its arguments are those
 its approval fixed, a recorded outcome is what the tool came to, and decisions stick.
 */
module ApprovalAccounts {
  import opened Wrappers
  import opened ToolGate
  import opened ApprovalStore
  import opened StoreInvariants
  import opened ApprovalProtocol
  import opened ApprovalSafety
  import opened ApprovalTheorems
  import opened ApprovalRows
  import opened ApprovalMoves
  import opened ApprovalLedger

  // ---- the step that runs a call ----------------------------------------------

  /** Step n runs the call that event k records. */
  ghost predicate RunAt(reg: Registry, schedule: seq<Step>, n: nat, k: nat) {
    && n < |schedule| && k < |Exec(reg, schedule).history|
    && |Exec(reg, schedule[..n]).history| == k
    && Runs(reg, Exec(reg, schedule[..n]), schedule[n]) == Some(Exec(reg, schedule).history[k])
  }

  lemma {:induction false} WhenRun(reg: Registry, schedule: seq<Step>, k: nat) returns (n: nat)
    requires k < |Exec(reg, schedule).history| && Exec(reg, schedule).history[k].DispatchedEvent?
    ensures RunAt(reg, schedule, n, k)
  {
    var m := |schedule| - 1;
    var front, step := schedule[..m], schedule[m];
    var h, h' := Exec(reg, front).history, Exec(reg, schedule).history;
    Invariant(reg, front);
    LogFollows(reg, Exec(reg, front), step);
    if k < |h| {
      assert h'[..|h|][k] == h[k];
      n := WhenRun(reg, front, k);
      assert front[..n] == schedule[..n];
    } else {
      n := m;
    }
  }

  // ---- where a call comes from ------------------------------------------------

  /** Step t is the model's request for c, by the goroutine of this run. */
  ghost predicate AskedAt(reg: Registry, schedule: seq<Step>, t: nat, run: nat, message: nat, c: Call) {
    && t < |schedule| && schedule[t].Turn? && !schedule[t].cutOff && c in schedule[t].calls
    && var s := Exec(reg, schedule[..t]);
       schedule[t].p in s.procs && s.procs[schedule[t].p].run == run && s.st.nextId == message
  }

  /** Step j brings this user in this role: a run is begun or an action decided. */
  ghost predicate PresentedAt(schedule: seq<Step>, j: nat, user: nat, role: string) {
    && j < |schedule| && (schedule[j].Begin? || schedule[j].Decide?)
    && schedule[j].user == user && schedule[j].role == role
  }

  /** Step i is the owner's approval of the action, in time, with these edits. */
  ghost predicate ApprovedAt(reg: Registry, schedule: seq<Step>, i: nat, id: nat, user: nat, edited: Json) {
    && i < |schedule| && schedule[i].Decide? && schedule[i].id == id && schedule[i].user == user && schedule[i].approve && schedule[i].edited == edited
    && var s := Exec(reg, schedule[..i]);
       id in s.st.actions && s.st.actions[id].status.Pending? && s.now < s.st.actions[id].expiresAt
  }

  lemma WhenAsked(reg: Registry, schedule: seq<Step>, run: nat, message: nat, calls: seq<Call>, c: Call) returns (t: nat)
    requires Asked(run, message, calls) in Book(reg, schedule) && c in calls
    ensures AskedAt(reg, schedule, t, run, message, c)
  {
    t := WhenEntered(reg, schedule, Asked(run, message, calls));
  }

  lemma WhenPresented(reg: Registry, schedule: seq<Step>, user: nat, role: string) returns (j: nat)
    requires Presented(user, role) in Book(reg, schedule)
    ensures PresentedAt(schedule, j, user, role)
  {
    j := WhenEntered(reg, schedule, Presented(user, role));
  }

  lemma WhenApproved(reg: Registry, schedule: seq<Step>, id: nat, user: nat, edited: Json) returns (i: nat)
    requires Granted(id, user, edited) in Book(reg, schedule)
    ensures ApprovedAt(reg, schedule, i, id, user, edited)
  {
    i := WhenEntered(reg, schedule, Granted(id, user, edited));
  }

  lemma PrefixExec(reg: Registry, schedule: seq<Step>, n: nat, k: nat)
    requires k <= n <= |schedule|
    ensures schedule[..n][..k] == schedule[..k]
  {
  }

  /** What step n runs is backed by the book of the steps before it. */
  lemma BackedBefore(reg: Registry, schedule: seq<Step>, n: nat, k: nat) returns (calls: seq<Call>, c: Call, role: string)
    requires RunAt(reg, schedule, n, k)
    ensures CallBacked(reg, Book(reg, schedule[..n]), calls, c, role, Exec(reg, schedule).history[k])
  {
    var s := Exec(reg, schedule[..n]);
    Invariant(reg, schedule[..n]);
    BookBacks(reg, schedule[..n]);
    RunsAreBacked(reg, s, schedule[n], Book(reg, schedule[..n]));
    calls, c, role :| CallBacked(reg, Book(reg, schedule[..n]), calls, c, role, Exec(reg, schedule).history[k]);
  }

  /**
   Whatever is run was asked for: before the step that runs it the model requested this very call
   in this message, and its user had come in a role that is shown the tool. Without an approval it
   runs with the arguments of that request.
   */
  lemma DispatchWasAsked(reg: Registry, schedule: seq<Step>, k: nat) returns (n: nat, t: nat, j: nat, c: Call, role: string)
    requires k < |Exec(reg, schedule).history| && Exec(reg, schedule).history[k].DispatchedEvent?
    ensures var e := Exec(reg, schedule).history[k];
            && RunAt(reg, schedule, n, k) && t < n && j < n
            && AskedAt(reg, schedule, t, e.run, e.message, c) && c.id == e.call && c.tool == e.tool
            && PresentedAt(schedule, j, e.user, role) && Visible(reg, role, e.tool)
            && (e.consent.None? ==> e.args == c.arguments)
  {
    var e := Exec(reg, schedule).history[k];
    n := WhenRun(reg, schedule, k);
    var calls;
    calls, c, role := BackedBefore(reg, schedule, n, k);
    t := WhenAsked(reg, schedule[..n], e.run, e.message, calls, c);
    j := WhenPresented(reg, schedule[..n], e.user, role);
    PrefixExec(reg, schedule, n, t);
  }

  /**
   A call run under an approval runs with the arguments that approval fixed: an earlier step is the
   owner's own approval of it, and the arguments are the edits made there, or, where there were
   none, those the model asked with.
   */
  lemma ArgumentsAreApproved(reg: Registry, schedule: seq<Step>, k: nat, id: nat) returns (n: nat, i: nat, t: nat, c: Call, edited: Json)
    requires k < |Exec(reg, schedule).history| && Exec(reg, schedule).history[k].DispatchedEvent?
    requires Exec(reg, schedule).history[k].consent == Some(id)
    ensures var e := Exec(reg, schedule).history[k];
            && RunAt(reg, schedule, n, k) && i < n && t < n
            && ApprovedAt(reg, schedule, i, id, e.user, edited)
            && AskedAt(reg, schedule, t, e.run, e.message, c) && c.id == e.call && c.tool == e.tool
            && e.args == if edited == Absent then c.arguments else edited
  {
    var e := Exec(reg, schedule).history[k];
    n := WhenRun(reg, schedule, k);
    var calls, role;
    calls, c, role := BackedBefore(reg, schedule, n, k);
    t := WhenAsked(reg, schedule[..n], e.run, e.message, calls, c);
    edited :| Granted(id, e.user, edited) in Book(reg, schedule[..n]) && e.args == if edited == Absent then c.arguments else edited;
    i := WhenApproved(reg, schedule[..n], id, e.user, edited);
    PrefixExec(reg, schedule, n, t);
    PrefixExec(reg, schedule, n, i);
  }

  // ---- what a tool came to ----------------------------------------------------

  /** Step n runs the tool of the action, and the world answers this. */
  ghost predicate AnsweredAt(reg: Registry, schedule: seq<Step>, n: nat, id: nat, outcome: Outcome) {
    && n < |schedule| && schedule[n].RunApproved? && schedule[n].outcome == outcome
    && var e := Runs(reg, Exec(reg, schedule[..n]), schedule[n]); e.Some? && e.value.consent == Some(id)
  }

  lemma WhenAnswered(reg: Registry, schedule: seq<Step>, id: nat, outcome: Outcome) returns (n: nat)
    requires Answered(id, outcome) in Book(reg, schedule)
    ensures AnsweredAt(reg, schedule, n, id, outcome)
  {
    n := WhenEntered(reg, schedule, Answered(id, outcome));
  }

  /** An action recorded as executed ran without error; one recorded as failed ran and reported an error. */
  lemma OutcomeIsTold(reg: Registry, schedule: seq<Step>, a: nat) returns (n: nat)
    requires a in Exec(reg, schedule).st.actions
    requires var x := Exec(reg, schedule).st.actions[a]; x.status.Executed? || x.status.Failed?
    ensures AnsweredAt(reg, schedule, n, a, if Exec(reg, schedule).st.actions[a].status.Executed? then Ran else ReportedError)
  {
    BookBacks(reg, schedule);
    assert RowBacked(Exec(reg, schedule), Book(reg, schedule), a);
    n := WhenAnswered(reg, schedule, a, if Exec(reg, schedule).st.actions[a].status.Executed? then Ran else ReportedError);
  }

  /** What a row is about never changes. */
  ghost predicate SameAction(x: Action, y: Action) {
    x.run == y.run && x.message == y.message && x.creator == y.creator && x.call == y.call && x.expiresAt == y.expiresAt
  }

  lemma {:induction false} ActionStays(reg: Registry, schedule: seq<Step>, n: nat, a: nat)
    requires n <= |schedule| && a in Exec(reg, schedule[..n]).st.actions
    ensures a in Exec(reg, schedule).st.actions && SameAction(Exec(reg, schedule[..n]).st.actions[a], Exec(reg, schedule).st.actions[a])
  {
    if n == |schedule| {
      assert schedule[..n] == schedule;
    } else {
      var front := schedule[..|schedule| - 1];
      PrefixExec(reg, schedule, |schedule| - 1, n);
      ActionStays(reg, front, n, a);
      Invariant(reg, front);
      assert RowOk(Exec(reg, front).st, a);
      RowFollows(reg, Exec(reg, front), schedule[|schedule| - 1], a);
    }
  }

  /** Which row and which call a step that answers an action is about. */
  lemma AnswerIsOf(reg: Registry, schedule: seq<Step>, n: nat, id: nat, outcome: Outcome)
    requires AnsweredAt(reg, schedule, n, id, outcome)
    ensures var e := Runs(reg, Exec(reg, schedule[..n]), schedule[n]).value; var st := Exec(reg, schedule[..n]).st;
            && id in st.actions && e.run == st.actions[id].run && e.message == st.actions[id].message && e.call == st.actions[id].call.id
            && e.DispatchedEvent?
  {
    var s := Exec(reg, schedule[..n]);
    Invariant(reg, schedule[..n]);
    var q := s.procs[schedule[n].p];
    assert ProcOk(s, schedule[n].p) && LinkOk(s.st, q.run, q.pc.message, q.pc.batch[q.pc.i]);
  }

  lemma {:induction false} HistoryKept(reg: Registry, schedule: seq<Step>, n: nat)
    requires n <= |schedule|
    ensures Exec(reg, schedule[..n]).history <= Exec(reg, schedule).history
  {
    if n == |schedule| {
      assert schedule[..n] == schedule;
    } else {
      var front := schedule[..|schedule| - 1];
      PrefixExec(reg, schedule, |schedule| - 1, n);
      HistoryKept(reg, front, n);
      Invariant(reg, front);
      LogFollows(reg, Exec(reg, front), schedule[|schedule| - 1]);
    }
  }

  /** Step n leaves its event where the log stood before it. */
  lemma RanAt(reg: Registry, schedule: seq<Step>, n: nat)
    requires n < |schedule| && Runs(reg, Exec(reg, schedule[..n]), schedule[n]).Some?
    ensures var k := |Exec(reg, schedule[..n]).history|;
            && |Exec(reg, schedule[..n + 1]).history| == k + 1 && k < |Exec(reg, schedule).history|
            && Exec(reg, schedule).history[k] == Runs(reg, Exec(reg, schedule[..n]), schedule[n]).value
  {
    NextState(reg, schedule, n);
    Invariant(reg, schedule[..n]);
    LogFollows(reg, Exec(reg, schedule[..n]), schedule[n]);
    HistoryKept(reg, schedule, n + 1);
    assert Exec(reg, schedule[..n + 1]).history[|Exec(reg, schedule[..n]).history|] == Runs(reg, Exec(reg, schedule[..n]), schedule[n]).value;
  }

  lemma LaterIsLonger(reg: Registry, schedule: seq<Step>, m: nat, n: nat)
    requires m <= n <= |schedule|
    ensures |Exec(reg, schedule[..m]).history| <= |Exec(reg, schedule[..n]).history|
  {
    HistoryKept(reg, schedule[..n], m);
    PrefixExec(reg, schedule, n, m);
  }

  /** An action's tool answers once. */
  lemma OneAnswer(reg: Registry, schedule: seq<Step>, m: nat, n: nat, id: nat, first: Outcome, second: Outcome)
    requires AnsweredAt(reg, schedule, m, id, first) && AnsweredAt(reg, schedule, n, id, second)
    ensures m == n && first == second
  {
    if m < n {
      AnswersOnce(reg, schedule, m, n, id, first, second);
    } else if n < m {
      AnswersOnce(reg, schedule, n, m, id, second, first);
    }
  }

  lemma AnswersOnce(reg: Registry, schedule: seq<Step>, m: nat, n: nat, id: nat, first: Outcome, second: Outcome)
    requires m < n && AnsweredAt(reg, schedule, m, id, first)
    ensures !AnsweredAt(reg, schedule, n, id, second)
  {
    if AnsweredAt(reg, schedule, n, id, second) {
      AnswerIsOf(reg, schedule, m, id, first);
      AnswerIsOf(reg, schedule, n, id, second);
      ActionStays(reg, schedule, m, id);
      ActionStays(reg, schedule, n, id);
      RanAt(reg, schedule, m);
      RanAt(reg, schedule, n);
      LaterIsLonger(reg, schedule, m + 1, n);
      assert Reachable(reg, Exec(reg, schedule));
      AtMostOnce(reg, Exec(reg, schedule), |Exec(reg, schedule[..m]).history|, |Exec(reg, schedule[..n]).history|);
    }
  }

  /** So once an action is settled, its row says what its tool answered. */
  lemma RowTellsAnswer(reg: Registry, schedule: seq<Step>, n: nat, a: nat, outcome: Outcome)
    requires AnsweredAt(reg, schedule, n, a, outcome)
    requires a in Exec(reg, schedule).st.actions
    ensures Exec(reg, schedule).st.actions[a].status.Executed? ==> outcome == Ran
    ensures Exec(reg, schedule).st.actions[a].status.Failed? ==> outcome == ReportedError
  {
    var status := Exec(reg, schedule).st.actions[a].status;
    if status.Executed? || status.Failed? {
      var m := OutcomeIsTold(reg, schedule, a);
      OneAnswer(reg, schedule, m, n, a, if status.Executed? then Ran else ReportedError, outcome);
    }
  }
}
