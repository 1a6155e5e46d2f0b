/** What holds in every state that any schedule of the approval protocol reaches. */
module ApprovalSafety {
  import opened Wrappers
  import opened ToolGate
  import opened ApprovalStore
  import opened StoreInvariants
  import opened ApprovalProtocol

  // ---- histories -------------------------------------------------------------

  ghost predicate Sent(h: seq<Event>, run: nat, message: nat, call: string) {
    exists k :: 0 <= k < |h| && h[k].DispatchedEvent? && h[k].run == run && h[k].message == message && h[k].call == call
  }

  ghost predicate AnySent(h: seq<Event>, run: nat, message: nat) {
    exists k :: 0 <= k < |h| && h[k].DispatchedEvent? && h[k].run == run && h[k].message == message
  }

  ghost predicate ResumeClaimed(h: seq<Event>, run: nat, message: nat) {
    ClaimedEvent(run, message) in h
  }

  /** `h'` continues `h` and the continuation dispatches nothing for this run. */
  ghost predicate Quiet(h: seq<Event>, h': seq<Event>, run: nat) {
    h <= h' && forall k :: |h| <= k < |h'| ==> !(h'[k].DispatchedEvent? && h'[k].run == run)
  }

  lemma QuietSent(h: seq<Event>, h': seq<Event>, run: nat, message: nat, call: string)
    requires Quiet(h, h', run)
    ensures Sent(h', run, message, call) <==> Sent(h, run, message, call)
    ensures AnySent(h', run, message) <==> AnySent(h, run, message)
  {
    if Sent(h, run, message, call) {
      var k :| 0 <= k < |h| && h[k].DispatchedEvent? && h[k].run == run && h[k].message == message && h[k].call == call;
      assert h'[k] == h[k];
    }
    if AnySent(h, run, message) {
      var k :| 0 <= k < |h| && h[k].DispatchedEvent? && h[k].run == run && h[k].message == message;
      assert h'[k] == h[k];
    }
  }

  /** A decision allows a dispatch: its actor's own approval, of this tool and these arguments, checked in time. */
  ghost predicate Grants(d: Event, e: Event) {
    && d.DecidedEvent? && e.DispatchedEvent? && e.consent == Some(d.id)
    && d.verdict.Approved? && d.decider == Some(e.user) && d.tool == e.tool && d.args == e.args
    && d.at <= e.checkedAt <= e.at && e.checkedAt < d.expiresAt
  }

  ghost predicate EventOk(reg: Registry, h: seq<Event>, k: nat, nextId: nat) {
    k < |h| ==>
      match h[k]
      case ParkedEvent(_, m) => m < nextId
      case ClaimedEvent(r, m) => m < nextId && exists j :: 0 <= j < k && h[j] == ParkedEvent(r, m)
      case DecidedEvent(_, _, _, _, _, _, _) => true
      case DispatchedEvent(_, _, m, _, tool, _, consent, _, _) =>
        && m < nextId
        && (consent.None? ==> tool in reg && !reg[tool].risk.NeedsApproval())
        && (consent.Some? ==> exists j :: 0 <= j < k && Grants(h[j], h[k]))
  }

  /** No call is dispatched twice and no pause is resumed twice. */
  ghost predicate OnceEach(h: seq<Event>, j: nat, k: nat) {
    j < k < |h| ==>
      && (h[j].DispatchedEvent? && h[k].DispatchedEvent? ==>
            h[j].run != h[k].run || h[j].message != h[k].message || h[j].call != h[k].call)
      && (h[j].ClaimedEvent? && h[k].ClaimedEvent? ==> h[j] != h[k])
  }

  ghost predicate HistoryInv(reg: Registry, h: seq<Event>, nextId: nat) {
    && (forall k: nat {:trigger EventOk(reg, h, k, nextId)} :: EventOk(reg, h, k, nextId))
    && (forall j: nat, k: nat {:trigger OnceEach(h, j, k)} :: OnceEach(h, j, k))
  }

  // ---- goroutines ------------------------------------------------------------

  predicate Decision(s: Status) {
    s.Approved? || s.Rejected? || s.Expired?
  }

  /** The row a resume read is still the row in the table, decided and not yet settled. */
  ghost predicate LinkOk(st: Store, run: nat, message: nat, b: BatchCall) {
    b.action.Some? ==>
      var l := b.action.value;
      && l.id in st.actions && st.actions[l.id] == l.row
      && l.row.run == run && l.row.message == message && l.row.call == b.call && Decision(l.row.status)
  }

  ghost predicate BatchOk(st: Store, run: nat, message: nat, batch: seq<BatchCall>, i: nat) {
    && i <= |batch|
    && (forall j, k :: 0 <= j < k < |batch| ==> batch[j].call.id != batch[k].call.id)
    && (forall j {:trigger batch[j]} :: i <= j < |batch| ==> LinkOk(st, run, message, batch[j]))
  }

  ghost predicate NoneSent(h: seq<Event>, run: nat, message: nat, batch: seq<BatchCall>, i: nat) {
    forall j {:trigger batch[j]} :: i <= j < |batch| ==> !Sent(h, run, message, batch[j].call.id)
  }

  ghost predicate ReadyToResume(st: Store, run: nat, message: nat) {
    && message in st.messages && st.messages[message].run == run && DistinctIds(st.messages[message].calls)
    && (exists a :: a in st.actions && st.actions[a].run == run && st.actions[a].message == message)
    && (forall a :: a in st.actions && st.actions[a].run == run && st.actions[a].message == message ==> Decision(st.actions[a].status))
  }

  ghost predicate PcOk(st: Store, h: seq<Event>, run: nat, pc: Pc) {
    match pc
    case Claimed(m) => ReadyToResume(st, run, m) && !AnySent(h, run, m)
    case Looping(_) => true
    case Dispatching(_, m, calls, i) =>
      i <= |calls| && DistinctIds(calls) && m < st.nextId && forall j {:trigger calls[j]} :: i <= j < |calls| ==> !Sent(h, run, m, calls[j].id)
    case Resuming(m, batch, i) => m < st.nextId && BatchOk(st, run, m, batch, i) && NoneSent(h, run, m, batch, i)
    case Cleared(m, batch, i, t) =>
      && m < st.nextId && BatchOk(st, run, m, batch, i) && NoneSent(h, run, m, batch, i)
      && i < |batch| && batch[i].action.Some? && batch[i].action.value.row.status.Approved?
      && t < batch[i].action.value.row.expiresAt
    case Settling(m, batch, i, outcome) =>
      && m < st.nextId && BatchOk(st, run, m, batch, i) && NoneSent(h, run, m, batch, i + 1)
      && i < |batch| && batch[i].action.Some? && batch[i].action.value.row.status.Approved?
      && (outcome.Executed? || outcome.Failed? || outcome.Expired?)
    case Finishing(status) => status.Done? || status.RunFailed? || status.Cancelled?
  }

  /** A deadline check lies in the past, and the approval it cleared lies before it. */
  ghost predicate ClearedInTime(s: Sys, pc: Pc) {
    pc.Cleared? ==>
      && pc.checkedAt <= s.now
      && (pc.i < |pc.batch| && pc.batch[pc.i].action.Some? ==>
            HasConsent(s.history, pc.batch[pc.i].action.value.id, pc.batch[pc.i].action.value.row, pc.checkedAt))
  }

  ghost predicate ProcOk(s: Sys, p: nat) {
    p in s.procs ==>
      var q := s.procs[p];
      && p < s.nextProc && q.run in s.st.runs && s.st.runs[q.run].status.Running? && q.user == s.st.runs[q.run].owner
      && PcOk(s.st, s.history, q.run, q.pc) && ClearedInTime(s, q.pc)
  }

  /** Never two goroutines, nor a goroutine and an unclaimed resume, for one run. */
  ghost predicate Apart(s: Sys, p: nat, q: nat) {
    p in s.procs && q in s.procs && p != q ==> s.procs[p].run != s.procs[q].run
  }

  // ---- actions ---------------------------------------------------------------

  /** An action that still awaits its decision: nothing of its message ran, and its pause was not resumed. */
  ghost predicate WaitOk(s: Sys, a: nat) {
    a in s.st.actions && s.st.actions[a].status.Pending? ==>
      var x := s.st.actions[a];
      && !AnySent(s.history, x.run, x.message) && !ResumeClaimed(s.history, x.run, x.message)
      && ParkedEvent(x.run, x.message) in s.history
      && forall b :: b in s.st.actions && s.st.actions[b].run == x.run && s.st.actions[b].message == x.message ==>
           Decision(s.st.actions[b].status) || s.st.actions[b].status.Pending?
  }

  ghost predicate HasConsent(h: seq<Event>, id: nat, x: Action, now: int) {
    exists j :: 0 <= j < |h| && h[j].DecidedEvent? && h[j].id == id && h[j].verdict.Approved?
                && h[j].decider == Some(x.creator) && h[j].tool == x.call.tool && h[j].args == x.EffectiveArguments()
                && h[j].expiresAt == x.expiresAt && h[j].at < x.expiresAt && h[j].at <= now
  }

  ghost predicate ConsentOk(s: Sys, a: nat) {
    a in s.st.actions && (s.st.actions[a].status.Approved? || s.st.actions[a].status.Executed? || s.st.actions[a].status.Failed?) ==>
      HasConsent(s.history, a, s.st.actions[a], s.now)
  }

  ghost predicate StillParked(st: Store, run: nat, message: nat) {
    exists a :: a in st.actions && st.actions[a].run == run && st.actions[a].message == message && st.actions[a].status.Pending?
  }

  /** A pause that is over was either resumed or its run was cancelled. */
  ghost predicate PauseOk(s: Sys, k: nat) {
    k < |s.history| && s.history[k].ParkedEvent? ==>
      var e := s.history[k];
      && e.run in s.st.runs
      && (StillParked(s.st, e.run, e.message) || ResumeClaimed(s.history, e.run, e.message) || s.st.runs[e.run].status.Cancelled?)
  }

  ghost predicate CallsOk(s: Sys, m: nat) {
    m in s.st.messages ==> DistinctIds(s.st.messages[m].calls)
  }

  ghost predicate SysInv(reg: Registry, s: Sys) {
    && StoreInv(s.st) && HistoryInv(reg, s.history, s.st.nextId)
    && (forall p {:trigger ProcOk(s, p)} :: ProcOk(s, p))
    && (forall p, q {:trigger Apart(s, p, q)} :: Apart(s, p, q))
    && (forall a {:trigger WaitOk(s, a)} :: WaitOk(s, a))
    && (forall a {:trigger ConsentOk(s, a)} :: ConsentOk(s, a))
    && (forall m {:trigger CallsOk(s, m)} :: CallsOk(s, m))
    && (forall k: nat {:trigger PauseOk(s, k)} :: PauseOk(s, k))
  }

  // ---- frames ----------------------------------------------------------------

  /** Nothing about this run's rows changed, and no message was lost. */
  ghost predicate SameRows(st: Store, st': Store, run: nat) {
    && st.nextId <= st'.nextId
    && (forall a {:trigger a in st'.actions} {:trigger a in st.actions} ::
          (a in st.actions && st.actions[a].run == run) <==> (a in st'.actions && st'.actions[a].run == run))
    && (forall a {:trigger st'.actions[a]} {:trigger st.actions[a]} :: a in st.actions && a in st'.actions && st.actions[a].run == run ==> st'.actions[a] == st.actions[a])
    && (forall m {:trigger m in st.messages} :: m in st.messages ==> m in st'.messages && st'.messages[m] == st.messages[m])
  }

  lemma BatchFrame(st: Store, st': Store, h: seq<Event>, h': seq<Event>, run: nat, m: nat, batch: seq<BatchCall>, i: nat, n: nat)
    requires BatchOk(st, run, m, batch, i) && NoneSent(h, run, m, batch, n) && SameRows(st, st', run) && Quiet(h, h', run)
    ensures BatchOk(st', run, m, batch, i) && NoneSent(h', run, m, batch, n)
  {
    forall j | i <= j < |batch| ensures LinkOk(st', run, m, batch[j]) {
      assert LinkOk(st, run, m, batch[j]);
    }
    forall j | n <= j < |batch| ensures !Sent(h', run, m, batch[j].call.id) {
      QuietSent(h, h', run, m, batch[j].call.id);
    }
  }

  lemma PcFrame(st: Store, st': Store, h: seq<Event>, h': seq<Event>, run: nat, pc: Pc)
    requires PcOk(st, h, run, pc) && SameRows(st, st', run) && Quiet(h, h', run)
    ensures PcOk(st', h', run, pc)
  {
    match pc
    case Claimed(m) =>
      QuietSent(h, h', run, m, "");
      var a :| a in st.actions && st.actions[a].run == run && st.actions[a].message == m;
      assert a in st'.actions && st'.actions[a] == st.actions[a];
    case Looping(_) =>
    case Dispatching(_, m, calls, i) =>
      forall j | i <= j < |calls| ensures !Sent(h', run, m, calls[j].id) { QuietSent(h, h', run, m, calls[j].id); }
    case Resuming(m, batch, i) => BatchFrame(st, st', h, h', run, m, batch, i, i);
    case Cleared(m, batch, i, _) => BatchFrame(st, st', h, h', run, m, batch, i, i);
    case Settling(m, batch, i, _) => BatchFrame(st, st', h, h', run, m, batch, i, i + 1);
    case Finishing(_) =>
  }

  lemma ConsentMono(h: seq<Event>, h': seq<Event>, id: nat, x: Action, y: Action, now: int, now': int)
    requires HasConsent(h, id, x, now) && h <= h' && now <= now'
    requires y.creator == x.creator && y.call == x.call && y.edited == x.edited && y.expiresAt == x.expiresAt
    ensures HasConsent(h', id, y, now')
  {
    var j :| 0 <= j < |h| && h[j].DecidedEvent? && h[j].id == id && h[j].verdict.Approved?
                && h[j].decider == Some(x.creator) && h[j].tool == x.call.tool && h[j].args == x.EffectiveArguments()
                && h[j].expiresAt == x.expiresAt && h[j].at < x.expiresAt && h[j].at <= now;
    assert h'[j] == h[j];
  }

  lemma ProcFrame(s: Sys, s': Sys, p: nat)
    requires ProcOk(s, p) && p in s.procs && p in s'.procs && s'.procs[p] == s.procs[p] && s.nextProc <= s'.nextProc
    requires var run := s.procs[p].run;
             && run in s'.st.runs && run in s.st.runs && s'.st.runs[run] == s.st.runs[run] && s.now <= s'.now
             && SameRows(s.st, s'.st, run) && Quiet(s.history, s'.history, run)
    ensures ProcOk(s', p)
  {
    var q := s.procs[p];
    PcFrame(s.st, s'.st, s.history, s'.history, q.run, q.pc);
    if q.pc.Cleared? {
      var l := q.pc.batch[q.pc.i].action.value;
      ConsentMono(s.history, s'.history, l.id, l.row, l.row, q.pc.checkedAt, q.pc.checkedAt);
    }
  }

  lemma WaitFrame(s: Sys, s': Sys, a: nat)
    requires WaitOk(s, a)
    requires a in s'.st.actions && s'.st.actions[a].status.Pending? ==>
               var run := s'.st.actions[a].run;
               && a in s.st.actions && s.st.actions[a] == s'.st.actions[a]
               && SameRows(s.st, s'.st, run) && Quiet(s.history, s'.history, run)
               && forall k :: |s.history| <= k < |s'.history| ==> !s'.history[k].ClaimedEvent? || s'.history[k].run != run
    ensures WaitOk(s', a)
  {
    if a in s'.st.actions && s'.st.actions[a].status.Pending? {
      var x := s'.st.actions[a];
      QuietSent(s.history, s'.history, x.run, x.message, "");
      var j :| 0 <= j < |s.history| && s.history[j] == ParkedEvent(x.run, x.message);
      assert s'.history[j] == s.history[j];
    }
  }

  lemma PauseFrame(s: Sys, s': Sys, k: nat)
    requires k < |s.history| && PauseOk(s, k) && s.history <= s'.history
    requires s.history[k].ParkedEvent? ==>
               var r := s.history[k].run;
               && (r in s.st.runs ==> r in s'.st.runs && (s.st.runs[r].status.Cancelled? ==> s'.st.runs[r].status.Cancelled?))
               && (forall a {:trigger s.st.actions[a]} :: a in s.st.actions && s.st.actions[a].run == r && s.st.actions[a].status.Pending? ==>
                     a in s'.st.actions && s'.st.actions[a] == s.st.actions[a])
    ensures PauseOk(s', k)
  {
    if s.history[k].ParkedEvent? {
      var e := s.history[k];
      assert s'.history[k] == e;
      if StillParked(s.st, e.run, e.message) {
        var a :| a in s.st.actions && s.st.actions[a].run == e.run && s.st.actions[a].message == e.message && s.st.actions[a].status.Pending?;
        assert s'.st.actions[a] == s.st.actions[a];
      } else if ResumeClaimed(s.history, e.run, e.message) {
        var j :| 0 <= j < |s.history| && s.history[j] == ClaimedEvent(e.run, e.message);
        assert s'.history[j] == ClaimedEvent(e.run, e.message);
      }
    }
  }

  /** An event that is in order once it is appended leaves the whole history in order. */
  lemma HistoryFrame(reg: Registry, h: seq<Event>, e: Event, n: nat, n': nat)
    requires HistoryInv(reg, h, n) && n <= n' && EventOk(reg, h + [e], |h|, n')
    requires e.DispatchedEvent? ==> !Sent(h, e.run, e.message, e.call)
    requires e.ClaimedEvent? ==> !ResumeClaimed(h, e.run, e.message)
    ensures HistoryInv(reg, h + [e], n')
  {
    var h' := h + [e];
    forall k: nat ensures EventOk(reg, h', k, n') {
      assert EventOk(reg, h, k, n);
      if k < |h| {
        assert h'[k] == h[k];
        if h[k].ClaimedEvent? {
          var j :| 0 <= j < k && h[j] == ParkedEvent(h[k].run, h[k].message);
          assert h'[j] == h[j];
        } else if h[k].DispatchedEvent? && h[k].consent.Some? {
          var j :| 0 <= j < k && Grants(h[j], h[k]);
          assert h'[j] == h[j];
        }
      }
    }
    forall j: nat, k: nat ensures OnceEach(h', j, k) {
      assert OnceEach(h, j, k);
    }
  }

  lemma HistoryGrowsIds(reg: Registry, h: seq<Event>, n: nat, n': nat)
    requires HistoryInv(reg, h, n) && n <= n'
    ensures HistoryInv(reg, h, n')
  {
    forall k: nat ensures EventOk(reg, h, k, n') { assert EventOk(reg, h, k, n); }
  }

  // ---- steps of one goroutine ------------------------------------------------

  /** What a step of goroutine `p` may touch while its run stays running. */
  ghost predicate OwnStep(s: Sys, s': Sys, p: nat) {
    && p in s.procs && s'.now == s.now && s'.nextProc == s.nextProc
    && s'.procs.Keys <= s.procs.Keys
    && (forall q {:trigger s'.procs[q]} :: q in s'.procs && q != p ==> s'.procs[q] == s.procs[q])
    && (p in s'.procs ==> s'.procs[p].run == s.procs[p].run)
    && s'.st.runs == s.st.runs && s'.st.messages == s.st.messages && s.st.nextId <= s'.st.nextId
    && s'.st.actions.Keys == s.st.actions.Keys
    && (forall a {:trigger s'.st.actions[a]} :: a in s.st.actions && s'.st.actions[a] != s.st.actions[a] ==>
          && s.st.actions[a].run == s.procs[p].run && s.st.actions[a].status.Approved? && !s'.st.actions[a].status.Pending?
          && s'.st.actions[a] == s.st.actions[a].(status := s'.st.actions[a].status))
  }

  /** At most one event is recorded: a dispatch of a call of the goroutine's own run that was not dispatched before. */
  ghost predicate OwnEvent(reg: Registry, s: Sys, s': Sys, p: nat) {
    && p in s.procs
    && (s'.history == s.history ||
        (|s'.history| == |s.history| + 1 && s'.history[..|s.history|] == s.history
         && var e := s'.history[|s.history|];
            e.DispatchedEvent? && e.run == s.procs[p].run && !Sent(s.history, e.run, e.message, e.call)
            && EventOk(reg, s'.history, |s.history|, s'.st.nextId)))
  }

  lemma OwnEventHistory(reg: Registry, s: Sys, s': Sys, p: nat)
    requires SysInv(reg, s) && OwnStep(s, s', p) && OwnEvent(reg, s, s', p)
    ensures HistoryInv(reg, s'.history, s'.st.nextId)
    ensures forall r {:trigger Quiet(s.history, s'.history, r)} :: r != s.procs[p].run ==> Quiet(s.history, s'.history, r)
    ensures s.history <= s'.history
  {
    if s'.history == s.history {
      HistoryGrowsIds(reg, s.history, s.st.nextId, s'.st.nextId);
    } else {
      var e := s'.history[|s.history|];
      assert s'.history == s.history + [e];
      HistoryFrame(reg, s.history, e, s.st.nextId, s'.st.nextId);
    }
  }

  lemma OwnStepRows(s: Sys, s': Sys, p: nat, r: nat)
    requires OwnStep(s, s', p) && r != s.procs[p].run
    ensures SameRows(s.st, s'.st, r)
  {
  }

  /** A row that is pending after the step was so before, and is of another run. */
  lemma OwnStepPending(s: Sys, s': Sys, p: nat, a: nat)
    requires OwnStep(s, s', p) && ProcOk(s, p)
    requires a in s'.st.actions && s'.st.actions[a].status.Pending?
    requires RunOk(s.st, s'.st.actions[a].run) && RowOk(s.st, a)
    ensures a in s.st.actions && s.st.actions[a] == s'.st.actions[a] && s'.st.actions[a].run != s.procs[p].run
  {
    assert s.st.actions[a] == s'.st.actions[a];
    assert AwaitsDecision(s.st, s.st.actions[a].run);
  }

  lemma OwnStepWait(reg: Registry, s: Sys, s': Sys, p: nat, a: nat)
    requires SysInv(reg, s) && OwnStep(s, s', p) && OwnEvent(reg, s, s', p)
    ensures WaitOk(s', a)
  {
    assert WaitOk(s, a) && ProcOk(s, p) && RowOk(s.st, a);
    if a in s'.st.actions && s'.st.actions[a].status.Pending? {
      var run := s'.st.actions[a].run;
      assert RunOk(s.st, run);
      OwnStepPending(s, s', p, a);
      OwnStepRows(s, s', p, run);
      OwnEventHistory(reg, s, s', p);
      WaitFrame(s, s', a);
    }
  }

  lemma OwnStepOther(reg: Registry, s: Sys, s': Sys, p: nat, q: nat)
    requires SysInv(reg, s) && OwnStep(s, s', p) && OwnEvent(reg, s, s', p) && q != p
    ensures ProcOk(s', q)
  {
    OwnEventHistory(reg, s, s', p);
    if q in s'.procs {
      assert ProcOk(s, q) && Apart(s, p, q);
      OwnStepRows(s, s', p, s.procs[q].run);
      ProcFrame(s, s', q);
    }
  }

  lemma OwnStepConsent(reg: Registry, s: Sys, s': Sys, p: nat, a: nat)
    requires SysInv(reg, s) && OwnStep(s, s', p) && OwnEvent(reg, s, s', p)
    ensures ConsentOk(s', a)
  {
    OwnEventHistory(reg, s, s', p);
    assert ConsentOk(s, a);
    if a in s.st.actions && HasConsent(s.history, a, s.st.actions[a], s.now) {
      ConsentMono(s.history, s'.history, a, s.st.actions[a], s'.st.actions[a], s.now, s'.now);
    }
  }

  lemma OwnStepKeeps(reg: Registry, s: Sys, s': Sys, p: nat)
    requires SysInv(reg, s) && OwnStep(s, s', p) && OwnEvent(reg, s, s', p) && StoreInv(s'.st) && ProcOk(s', p)
    ensures SysInv(reg, s')
  {
    OwnEventHistory(reg, s, s', p);
    forall q ensures ProcOk(s', q) { if q != p { OwnStepOther(reg, s, s', p, q); } }
    forall q, r ensures Apart(s', q, r) { assert Apart(s, q, r); }
    forall a ensures WaitOk(s', a) { OwnStepWait(reg, s, s', p, a); }
    forall a ensures ConsentOk(s', a) { OwnStepConsent(reg, s, s', p, a); }
    forall m ensures CallsOk(s', m) { assert CallsOk(s, m); }
    forall k: nat ensures PauseOk(s', k) {
      assert PauseOk(s, k);
      if k < |s.history| { PauseFrame(s, s', k); }
    }
  }

  /** Moving one program counter to a place that is in order. */
  lemma GotoKeeps(reg: Registry, s: Sys, p: nat, pc: Pc)
    requires SysInv(reg, s) && p in s.procs && PcOk(s.st, s.history, s.procs[p].run, pc) && ClearedInTime(s, pc)
    ensures SysInv(reg, Goto(s, p, pc))
  {
    assert ProcOk(s, p);
    OwnStepKeeps(reg, s, Goto(s, p, pc), p);
  }

  lemma DropKeeps(reg: Registry, s: Sys, p: nat)
    requires SysInv(reg, s) && p in s.procs
    ensures SysInv(reg, Drop(s, p))
  {
    OwnStepKeeps(reg, s, Drop(s, p), p);
  }

  // ---- dispatching -----------------------------------------------------------

  /** One call down the ordinary path keeps everything, wherever the goroutine goes next. */
  lemma OrdinaryKeeps(reg: Registry, s: Sys, p: nat, message: nat, call: Call, ok: bool, after: Pc)
    requires SysInv(reg, s) && p in s.procs && message < s.st.nextId && !after.Cleared?
    requires !Sent(s.history, s.procs[p].run, message, call.id)
    requires forall h :: PcOk(s.st, s.history, s.procs[p].run, s.procs[p].pc) && AfterSend(s.history, h, s.procs[p].run, message, call.id) ==>
               PcOk(s.st, h, s.procs[p].run, after)
    ensures SysInv(reg, DoOrdinary(reg, s, p, message, call, ok, after))
  {
    var q, s' := s.procs[p], DoOrdinary(reg, s, p, message, call, ok, after);
    assert ProcOk(s, p);
    assert AfterSend(s.history, s.history, q.run, message, call.id);
    match OrdinaryRoute(reg, q.role, call.tool, call.arguments)
    case Fault => GotoKeeps(reg, s, p, Finishing(RunFailed));
    case Refused => GotoKeeps(reg, s, p, after);
    case Reach =>
      assert s'.history[..|s.history|] == s.history;
      assert AfterSend(s.history, s'.history, q.run, message, call.id);
      OwnStepKeeps(reg, s, s', p);
  }

  /** `h'` is `h`, or `h` with a dispatch of this one call. */
  ghost predicate AfterSend(h: seq<Event>, h': seq<Event>, run: nat, message: nat, call: string) {
    h' == h || (|h'| == |h| + 1 && h'[..|h|] == h && h'[|h|].DispatchedEvent?
                && h'[|h|].run == run && h'[|h|].message == message && h'[|h|].call == call)
  }

  lemma AfterSendOthers(h: seq<Event>, h': seq<Event>, run: nat, message: nat, call: string, other: string)
    requires AfterSend(h, h', run, message, call) && !Sent(h, run, message, other) && other != call
    ensures !Sent(h', run, message, other)
  {
    if h' != h {
      assert forall k :: 0 <= k < |h| ==> h'[k] == h[k];
    }
  }

  lemma BatchAdvances(st: Store, h: seq<Event>, h': seq<Event>, run: nat, m: nat, batch: seq<BatchCall>, i: nat)
    requires i < |batch| && BatchOk(st, run, m, batch, i) && NoneSent(h, run, m, batch, i)
    requires AfterSend(h, h', run, m, batch[i].call.id)
    ensures BatchOk(st, run, m, batch, i + 1) && NoneSent(h', run, m, batch, i + 1)
  {
    forall j | i + 1 <= j < |batch| ensures !Sent(h', run, m, batch[j].call.id) {
      AfterSendOthers(h, h', run, m, batch[i].call.id, batch[j].call.id);
    }
  }

  lemma DispatchKeeps(reg: Registry, s: Sys, p: nat, ok: bool)
    requires SysInv(reg, s) && p in s.procs && s.procs[p].pc.Dispatching?
    ensures SysInv(reg, ProcStep(reg, s, p, Dispatch(p, ok)))
  {
    var run, pc := s.procs[p].run, s.procs[p].pc;
    var m, calls, i := pc.message, pc.calls, pc.i;
    assert ProcOk(s, p);
    if i < |calls| {
      var after := Dispatching(pc.turn, m, calls, i + 1);
      forall h | AfterSend(s.history, h, run, m, calls[i].id) ensures PcOk(s.st, h, run, after) {
        forall j | i + 1 <= j < |calls| ensures !Sent(h, run, m, calls[j].id) {
          AfterSendOthers(s.history, h, run, m, calls[i].id, calls[j].id);
        }
      }
      OrdinaryKeeps(reg, s, p, m, calls[i], ok, after);
    } else {
      GotoKeeps(reg, s, p, if ok then Looping(pc.turn + 1) else Finishing(RunFailed));
    }
  }

  // ---- resuming --------------------------------------------------------------

  lemma LoadKeeps(reg: Registry, s: Sys, p: nat)
    requires SysInv(reg, s) && p in s.procs && s.procs[p].pc.Claimed?
    ensures LoadBatch(s.st, s.procs[p].run, s.procs[p].pc.message).Success?
    ensures SysInv(reg, ProcStep(reg, s, p, Load(p)))
  {
    var run, m := s.procs[p].run, s.procs[p].pc.message;
    assert ProcOk(s, p) && MessageOk(s.st, m);
    var batch := LoadBatch(s.st, run, m).value;
    forall j | 0 <= j < |batch| ensures LinkOk(s.st, run, m, batch[j]) && !Sent(s.history, run, m, batch[j].call.id) {
      if batch[j].action.Some? {
        LinkedCall(s.st, run, m, batch[j]);
      }
    }
    GotoKeeps(reg, s, p, Resuming(m, batch, 0));
  }

  /** The action paired with a call by its id is the action of that very call. */
  lemma LinkedCall(st: Store, run: nat, m: nat, b: BatchCall)
    requires StoreInv(st) && m in st.messages && DistinctIds(st.messages[m].calls) && b.call in st.messages[m].calls
    requires b.action == Link(st, run, m, b.call.id) && b.action.Some?
    ensures b.action.value.row.call == b.call
  {
    assert RowOk(st, b.action.value.id);
    var calls := st.messages[m].calls;
    var j :| 0 <= j < |calls| && calls[j] == b.call;
    var k :| 0 <= k < |calls| && calls[k] == b.action.value.row.call;
  }

  /** The branch for an action that is still pending, or already settled, is never taken. */
  lemma ResumeCallKeeps(reg: Registry, s: Sys, p: nat, ok: bool)
    requires SysInv(reg, s) && p in s.procs && s.procs[p].pc.Resuming?
    ensures SysInv(reg, ProcStep(reg, s, p, ResumeCall(p, ok)))
  {
    var run, pc := s.procs[p].run, s.procs[p].pc;
    var m, batch, i := pc.message, pc.batch, pc.i;
    assert ProcOk(s, p);
    if i < |batch| {
      var after := Resuming(m, batch, i + 1);
      forall h | AfterSend(s.history, h, run, m, batch[i].call.id) ensures PcOk(s.st, h, run, after) {
        BatchAdvances(s.st, s.history, h, run, m, batch, i);
      }
      assert AfterSend(s.history, s.history, run, m, batch[i].call.id);
      assert LinkOk(s.st, run, m, batch[i]);
      if batch[i].action.None? {
        OrdinaryKeeps(reg, s, p, m, batch[i].call, ok, after);
      } else {
        var l := batch[i].action.value;
        assert ConsentOk(s, l.id);
        if l.row.status.Approved? && s.now < l.row.expiresAt {
          GotoKeeps(reg, s, p, Cleared(m, batch, i, s.now));
        } else if l.row.status.Approved? {
          GotoKeeps(reg, s, p, Settling(m, batch, i, Expired));
        } else {
          GotoKeeps(reg, s, p, after);
        }
      }
    }
  }

  /** The tool of a cleared approval runs with the arguments the decision fixed. */
  lemma RunApprovedKeeps(reg: Registry, s: Sys, p: nat, outcome: Outcome)
    requires SysInv(reg, s) && p in s.procs && s.procs[p].pc.Cleared?
    ensures SysInv(reg, ProcStep(reg, s, p, RunApproved(p, outcome)))
  {
    var q, pc := s.procs[p], s.procs[p].pc;
    var m, batch, i := pc.message, pc.batch, pc.i;
    assert ProcOk(s, p) && LinkOk(s.st, q.run, m, batch[i]);
    var l, call := batch[i].action.value, batch[i].call;
    assert RowOk(s.st, l.id);
    var s' := DoRunApproved(reg, s, p, m, batch, i, pc.checkedAt, outcome);
    assert AfterSend(s.history, s.history, q.run, m, call.id);
    match ApprovedRoute(reg, q.role, call.tool, l.row.EffectiveArguments())
    case Fault => GotoKeeps(reg, s, p, Finishing(RunFailed));
    case Refused =>
      BatchAdvances(s.st, s.history, s.history, q.run, m, batch, i);
      GotoKeeps(reg, s, p, Settling(m, batch, i, Failed));
    case Reach =>
      assert s'.history[..|s.history|] == s.history;
      assert AfterSend(s.history, s'.history, q.run, m, call.id);
      BatchAdvances(s.st, s.history, s'.history, q.run, m, batch, i);
      ConsentGrants(s.history, s'.history, l, q.user, pc.checkedAt);
      assert ProcOk(s', p);
      OwnStepKeeps(reg, s, s', p);
  }

  lemma ConsentGrants(h: seq<Event>, h': seq<Event>, l: Linked, user: nat, checkedAt: int)
    requires HasConsent(h, l.id, l.row, checkedAt) && l.row.creator == user && checkedAt < l.row.expiresAt
    requires |h'| == |h| + 1 && h'[..|h|] == h
    requires var e := h'[|h|];
             && e.DispatchedEvent? && e.user == user && e.consent == Some(l.id) && e.tool == l.row.call.tool
             && e.args == l.row.EffectiveArguments() && e.checkedAt == checkedAt <= e.at
    ensures exists j :: 0 <= j < |h| && Grants(h'[j], h'[|h|]) && h'[j].expiresAt == l.row.expiresAt
  {
    var j :| 0 <= j < |h| && h[j].DecidedEvent? && h[j].id == l.id && h[j].verdict.Approved?
             && h[j].decider == Some(l.row.creator) && h[j].tool == l.row.call.tool && h[j].args == l.row.EffectiveArguments()
             && h[j].expiresAt == l.row.expiresAt && h[j].at < l.row.expiresAt && h[j].at <= checkedAt;
    assert h'[j] == h[j];
    assert Grants(h'[j], h'[|h|]);
  }

  /** The goroutine that settled a call may go on with the rest of its batch. */
  lemma SettledProc(reg: Registry, s: Sys, p: nat, s': Sys)
    requires SysInv(reg, s) && p in s.procs && s.procs[p].pc.Settling?
    requires var pc := s.procs[p].pc;
             pc.i < |pc.batch| && pc.batch[pc.i].action.Some? && s' == DoSettle(s, p, pc.message, pc.batch, pc.i, pc.outcome, true)
    ensures ProcOk(s', p)
  {
    var q, pc := s.procs[p], s.procs[p].pc;
    assert ProcOk(s, p) && LinkOk(s.st, q.run, pc.message, pc.batch[pc.i]);
    assert RowOk(s.st, pc.batch[pc.i].action.value.id);
    forall j | pc.i + 1 <= j < |pc.batch| ensures LinkOk(s'.st, q.run, pc.message, pc.batch[j]) {
      assert LinkOk(s.st, q.run, pc.message, pc.batch[j]);
      assert pc.batch[pc.i].call.id != pc.batch[j].call.id;
    }
  }

  /** What is being settled is an approved action, so the guarded update of `RecordApprovalOutcome` always hits its row. */
  lemma SettlingIsApproved(reg: Registry, s: Sys, p: nat)
    requires SysInv(reg, s) && p in s.procs && s.procs[p].pc.Settling?
    ensures var pc := s.procs[p].pc;
            && pc.i < |pc.batch| && pc.batch[pc.i].action.Some? && pc.batch[pc.i].action.value.id in s.st.actions
            && s.st.actions[pc.batch[pc.i].action.value.id].status.Approved?
  {
    var q, pc := s.procs[p], s.procs[p].pc;
    assert ProcOk(s, p) && LinkOk(s.st, q.run, pc.message, pc.batch[pc.i]);
    assert RowOk(s.st, pc.batch[pc.i].action.value.id);
  }

  lemma SettleKeeps(reg: Registry, s: Sys, p: nat, ok: bool)
    requires SysInv(reg, s) && p in s.procs && s.procs[p].pc.Settling?
    ensures SysInv(reg, ProcStep(reg, s, p, Settle(p, ok)))
  {
    SettlingIsApproved(reg, s, p);
    if ok {
      SettledKeeps(reg, s, p);
    } else {
      GotoKeeps(reg, s, p, Finishing(RunFailed));
    }
  }

  lemma SettledKeeps(reg: Registry, s: Sys, p: nat)
    requires SysInv(reg, s) && p in s.procs && s.procs[p].pc.Settling?
    ensures SysInv(reg, ProcStep(reg, s, p, Settle(p, true)))
  {
    SettlingIsApproved(reg, s, p);
    var pc := s.procs[p].pc;
    assert ProcOk(s, p) && LinkOk(s.st, s.procs[p].run, pc.message, pc.batch[pc.i]);
    var id := pc.batch[pc.i].action.value.id;
    assert RowOk(s.st, id);
    var s' := DoSettle(s, p, pc.message, pc.batch, pc.i, pc.outcome, true);
    RecordKeeps(s.st, id, pc.outcome);
    SettledProc(reg, s, p, s');
    OwnStepKeeps(reg, s, s', p);
  }

  // ---- the run table ---------------------------------------------------------

  /** Steps that change which runs are live, and no action. */
  ghost predicate RunStep(s: Sys, s': Sys) {
    && s'.history == s.history && s.now <= s'.now && s.nextProc <= s'.nextProc
    && s'.st.messages == s.st.messages && s'.st.actions == s.st.actions && s.st.nextId <= s'.st.nextId
    && (forall q {:trigger s'.procs[q]} {:trigger q in s'.procs} :: q in s'.procs && q in s.procs ==>
          s'.procs[q] == s.procs[q] && s.procs[q].run in s'.st.runs
          && (s.procs[q].run in s.st.runs ==> s'.st.runs[s.procs[q].run] == s.st.runs[s.procs[q].run]))
    && (forall r {:trigger s'.st.runs[r]} {:trigger r in s'.st.runs} :: r in s.st.runs ==>
          r in s'.st.runs && (s.st.runs[r].status.Cancelled? ==> s'.st.runs[r].status.Cancelled?))
  }

  lemma RunStepKeeps(reg: Registry, s: Sys, s': Sys)
    requires SysInv(reg, s) && RunStep(s, s') && StoreInv(s'.st)
    requires forall q {:trigger ProcOk(s', q)} :: q !in s.procs ==> ProcOk(s', q)
    requires forall q, r {:trigger Apart(s', q, r)} :: q !in s.procs || r !in s.procs ==> Apart(s', q, r)
    ensures SysInv(reg, s')
  {
    HistoryGrowsIds(reg, s.history, s.st.nextId, s'.st.nextId);
    forall q ensures ProcOk(s', q) {
      if q in s.procs && q in s'.procs {
        assert ProcOk(s, q);
        ProcFrame(s, s', q);
      }
    }
    forall q, r ensures Apart(s', q, r) { assert Apart(s, q, r); }
    forall a ensures WaitOk(s', a) {
      assert WaitOk(s, a);
      WaitFrame(s, s', a);
    }
    forall a ensures ConsentOk(s', a) {
      assert ConsentOk(s, a);
      if a in s.st.actions && HasConsent(s.history, a, s.st.actions[a], s.now) {
        ConsentMono(s.history, s'.history, a, s.st.actions[a], s.st.actions[a], s.now, s'.now);
      }
    }
    forall m ensures CallsOk(s', m) { assert CallsOk(s, m); }
    forall k: nat ensures PauseOk(s', k) {
      assert PauseOk(s, k);
      if k < |s.history| { PauseFrame(s, s', k); }
    }
  }

  lemma EndRunKeeps(reg: Registry, s: Sys, p: nat)
    requires SysInv(reg, s) && p in s.procs && s.procs[p].pc.Finishing?
    ensures SysInv(reg, ProcStep(reg, s, p, EndRun(p)))
  {
    var s' := ProcStep(reg, s, p, EndRun(p));
    assert ProcOk(s, p);
    RunChangeKeeps(s.st, s'.st);
    forall q | q in s'.procs ensures s.procs[q].run != s.procs[p].run { assert Apart(s, p, q); }
    forall q | q in s'.procs ensures s.procs[q].run in s.st.runs { assert ProcOk(s, q); }
    RunStepKeeps(reg, s, s');
  }

  lemma BeginKeeps(reg: Registry, s: Sys, user: nat, role: string)
    requires SysInv(reg, s)
    ensures SysInv(reg, DoBegin(s, user, role))
  {
    var s' := DoBegin(s, user, role);
    assert RunOk(s.st, s.st.nextId) && ProcOk(s, s.nextProc);
    forall q | q in s.procs ensures s.procs[q].run in s.st.runs && s.procs[q].run != s.st.nextId { assert ProcOk(s, q); }
    RunChangeKeeps(s.st, s'.st);
    RunStepKeeps(reg, s, s');
  }

  lemma RestartKeeps(reg: Registry, s: Sys)
    requires SysInv(reg, s)
    ensures SysInv(reg, Apply(reg, s, Restart))
  {
    var s' := Apply(reg, s, Restart);
    RunChangeKeeps(s.st, s'.st);
    RunStepKeeps(reg, s, s');
  }

  // ---- pausing ---------------------------------------------------------------

  /** The requests of a turn are exactly its gated calls, in order, each with the full window to decide. */
  lemma {:induction false} RequestsFrom(reg: Registry, role: string, calls: seq<Call>, now: int)
    ensures forall k :: 0 <= k < |Requests(reg, role, calls, now)| ==>
              var r := Requests(reg, role, calls, now)[k];
              r.call in calls && Parked(reg, role, r.call.tool) && r.expiresAt == now + ApprovalWindow
    ensures forall j :: 0 <= j < |calls| && Parked(reg, role, calls[j].tool) ==>
              Request(calls[j], now + ApprovalWindow) in Requests(reg, role, calls, now)
  {
    if calls != [] {
      RequestsFrom(reg, role, calls[..|calls| - 1], now);
    }
  }

  lemma NewMessageUnused(reg: Registry, s: Sys, run: nat)
    requires SysInv(reg, s)
    ensures !AnySent(s.history, run, s.st.nextId) && !ResumeClaimed(s.history, run, s.st.nextId)
    ensures forall a :: a in s.st.actions ==> s.st.actions[a].message < s.st.nextId
  {
    forall k: nat | k < |s.history| ensures !s.history[k].DecidedEvent? ==> s.history[k].message < s.st.nextId {
      assert EventOk(reg, s.history, k, s.st.nextId);
    }
    forall a | a in s.st.actions ensures s.st.actions[a].message < s.st.nextId {
      assert RowOk(s.st, a) && MessageOk(s.st, s.st.actions[a].message);
    }
  }

  ghost predicate PauseStep(s: Sys, s': Sys, p: nat, calls: seq<Call>, requests: seq<Request>) {
    && p in s.procs && p !in s'.procs && s'.now == s.now && s'.nextProc == s.nextProc
    && s'.procs == s.procs - {p} && DistinctIds(calls)
    && PauseEffect(s.st, s'.st, s.procs[p].user, s.procs[p].role, s.procs[p].run, calls, requests)
    && s'.history == s.history + [ParkedEvent(s.procs[p].run, s.st.nextId)]
  }

  lemma PauseRowsOfOthers(s: Sys, s': Sys, p: nat, calls: seq<Call>, requests: seq<Request>, r: nat)
    requires PauseStep(s, s', p, calls, requests) && r != s.procs[p].run
    requires forall m :: m in s.st.messages ==> m < s.st.nextId
    ensures SameRows(s.st, s'.st, r)
  {
  }

  lemma PauseWait(reg: Registry, s: Sys, s': Sys, p: nat, calls: seq<Call>, requests: seq<Request>, a: nat)
    requires SysInv(reg, s) && PauseStep(s, s', p, calls, requests)
    ensures WaitOk(s', a)
  {
    var run, m := s.procs[p].run, s.st.nextId;
    NewMessageUnused(reg, s, run);
    assert ProcOk(s, p) && WaitOk(s, a) && RunOk(s.st, run);
    forall k | k in s.st.messages ensures k < s.st.nextId { assert MessageOk(s.st, k); }
    if a in s.st.actions && s.st.actions[a].status.Pending? {
      assert s.st.actions[a].run != run;
      PauseRowsOfOthers(s, s', p, calls, requests, s.st.actions[a].run);
      WaitFrame(s, s', a);
    } else if a in s'.st.actions && s'.st.actions[a].status.Pending? {
      assert a !in s.st.actions && s'.st.actions[a].run == run && s'.st.actions[a].message == m;
      assert s'.history[|s.history|] == ParkedEvent(run, m);
      QuietSent(s.history, s'.history, run, m, "");
      assert !ResumeClaimed(s'.history, run, m);
      forall b | b in s'.st.actions && s'.st.actions[b].message == m ensures s'.st.actions[b].status.Pending? {
        assert b !in s.st.actions;
      }
    }
  }

  lemma PauseStepKeeps(reg: Registry, s: Sys, s': Sys, p: nat, calls: seq<Call>, requests: seq<Request>)
    requires SysInv(reg, s) && PauseStep(s, s', p, calls, requests) && StoreInv(s'.st)
    ensures SysInv(reg, s')
  {
    forall k | k in s.st.messages ensures k < s.st.nextId { assert MessageOk(s.st, k); }
    HistoryFrame(reg, s.history, ParkedEvent(s.procs[p].run, s.st.nextId), s.st.nextId, s'.st.nextId);
    forall q ensures ProcOk(s', q) {
      if q in s'.procs {
        assert ProcOk(s, q) && Apart(s, p, q);
        PauseRowsOfOthers(s, s', p, calls, requests, s.procs[q].run);
        ProcFrame(s, s', q);
      }
    }
    forall q, r ensures Apart(s', q, r) { assert Apart(s, q, r); }
    forall a ensures WaitOk(s', a) { PauseWait(reg, s, s', p, calls, requests, a); }
    forall a ensures ConsentOk(s', a) {
      assert ConsentOk(s, a);
      if a in s.st.actions && HasConsent(s.history, a, s.st.actions[a], s.now) {
        ConsentMono(s.history, s'.history, a, s.st.actions[a], s.st.actions[a], s.now, s'.now);
      }
    }
    forall m ensures CallsOk(s', m) { assert CallsOk(s, m); }
    forall k: nat ensures PauseOk(s', k) { PausePauses(reg, s, s', p, calls, requests, k); }
  }

  lemma PausePauses(reg: Registry, s: Sys, s': Sys, p: nat, calls: seq<Call>, requests: seq<Request>, k: nat)
    requires SysInv(reg, s) && PauseStep(s, s', p, calls, requests)
    ensures PauseOk(s', k)
  {
    assert PauseOk(s, k) && ProcOk(s, p);
    if k < |s.history| {
      PauseFrame(s, s', k);
    } else if k == |s.history| {
      var run, m := s.procs[p].run, s.st.nextId;
      assert FreshRow(s'.st.actions[m + 1], s.procs[p].user, s.procs[p].role, run, m, requests[0]);
    }
  }

  lemma TurnKeeps(reg: Registry, s: Sys, p: nat, calls: seq<Call>, cutOff: bool)
    requires SysInv(reg, s) && p in s.procs && s.procs[p].pc.Looping? && DistinctIds(calls)
    ensures SysInv(reg, DoTurn(reg, s, p, s.procs[p].pc.turn, calls, cutOff))
  {
    var q, turn := s.procs[p], s.procs[p].pc.turn;
    var s' := DoTurn(reg, s, p, turn, calls, cutOff);
    var requests := Requests(reg, q.role, calls, s.now);
    assert ProcOk(s, p);
    if turn >= MaxSteps || calls == [] || cutOff {
      GotoKeeps(reg, s, p, if turn < MaxSteps && calls == [] then Finishing(Done) else Finishing(RunFailed));
    } else if requests == [] {
      NewMessageUnused(reg, s, q.run);
      RunChangeKeeps(s.st, s'.st);
      OwnStepKeeps(reg, s, s', p);
    } else {
      RequestsFrom(reg, q.role, calls, s.now);
      if Pause(s.st, q.user, q.role, q.run, calls, requests).Success? {
        PauseKeeps(s.st, q.user, q.role, q.run, calls, requests);
        PauseStepKeeps(reg, s, s', p, calls, requests);
      } else {
        GotoKeeps(reg, s, p, Finishing(RunFailed));
      }
    }
  }

  // ---- deciding --------------------------------------------------------------

  /** A committed transition of one action: its row, the events it records, and the goroutine it may start. */
  ghost predicate DecideStep(s: Sys, s': Sys, id: nat, start: Option<Start>) {
    && id in s.st.actions && id in s'.st.actions && s.st.actions[id].status.Pending?
    && LawfulChange(s.st, id, s'.st.actions[id])
    && Decision(s'.st.actions[id].status)
    && s'.now == s.now && s'.st.nextId == s.st.nextId && s'.st.messages == s.st.messages
    && s'.st.actions == s.st.actions[id := s'.st.actions[id]]
    && var x, y := s.st.actions[id], s'.st.actions[id];
       var d := DecidedEvent(id, y.status, y.decidedBy, y.call.tool, y.EffectiveArguments(), y.expiresAt, s.now);
       && x.run in s.st.runs && s.st.runs[x.run].status.PausedApproval?
       && (start.Some? <==> !AwaitsDecision(s'.st, x.run))
       && (start.None? ==> s'.st.runs == s.st.runs && s'.procs == s.procs && s'.nextProc == s.nextProc
                           && s'.history == s.history + [d])
       && (start.Some? ==>
             && start.value.run == x.run && start.value.message == x.message && start.value.user == s.st.runs[x.run].owner
             && s'.st.runs == s.st.runs[x.run := s.st.runs[x.run].(status := Running)]
             && s'.procs == s.procs[s.nextProc := Proc(x.run, start.value.user, start.value.role, Claimed(x.message))]
             && s'.nextProc == s.nextProc + 1
             && s'.history == s.history + [d] + [ClaimedEvent(x.run, x.message)])
  }

  lemma DecideHistory(reg: Registry, s: Sys, s': Sys, id: nat, start: Option<Start>)
    requires SysInv(reg, s) && DecideStep(s, s', id, start)
    ensures HistoryInv(reg, s'.history, s'.st.nextId) && s.history <= s'.history
    ensures forall r :: Quiet(s.history, s'.history, r)
    ensures s'.history[|s.history|].DecidedEvent?
  {
    var x, d := s.st.actions[id], s'.history[|s.history|];
    var n := s.st.nextId;
    assert WaitOk(s, id) && RowOk(s.st, id) && MessageOk(s.st, x.message);
    HistoryFrame(reg, s.history, d, n, n);
    if start.Some? {
      var h := s.history + [d];
      var j :| 0 <= j < |s.history| && s.history[j] == ParkedEvent(x.run, x.message);
      assert (h + [ClaimedEvent(x.run, x.message)])[j] == ParkedEvent(x.run, x.message);
      HistoryFrame(reg, h, ClaimedEvent(x.run, x.message), n, n);
    }
  }

  lemma DecideRows(s: Sys, s': Sys, id: nat, start: Option<Start>, r: nat)
    requires DecideStep(s, s', id, start) && r != s.st.actions[id].run
    ensures SameRows(s.st, s'.st, r)
  {
  }

  lemma DecideClaim(reg: Registry, s: Sys, s': Sys, id: nat, start: Option<Start>)
    requires SysInv(reg, s) && DecideStep(s, s', id, start) && start.Some?
    ensures ProcOk(s', s.nextProc)
  {
    var x := s.st.actions[id];
    DecideHistory(reg, s, s', id, start);
    assert WaitOk(s, id) && RowOk(s.st, id) && CallsOk(s, x.message);
    QuietSent(s.history, s'.history, x.run, x.message, "");
    assert s'.st.actions[id].run == x.run && s'.st.actions[id].message == x.message;
    forall a | a in s'.st.actions && s'.st.actions[a].run == x.run && s'.st.actions[a].message == x.message
      ensures Decision(s'.st.actions[a].status)
    {
      assert !s'.st.actions[a].status.Pending?;
    }
  }

  lemma DecideWait(reg: Registry, s: Sys, s': Sys, id: nat, start: Option<Start>, a: nat)
    requires SysInv(reg, s) && DecideStep(s, s', id, start)
    ensures WaitOk(s', a)
  {
    var x := s.st.actions[id];
    DecideHistory(reg, s, s', id, start);
    assert WaitOk(s, a) && PairOk(s.st, a, id) && WaitOk(s, id);
    if a in s'.st.actions && s'.st.actions[a].status.Pending? {
      var y := s'.st.actions[a];
      if y.run == x.run {
        assert AwaitsDecision(s'.st, x.run);
        assert start.None? && y.message == x.message;
        QuietSent(s.history, s'.history, y.run, y.message, "");
        var j :| 0 <= j < |s.history| && s.history[j] == ParkedEvent(y.run, y.message);
        assert s'.history[j] == s.history[j];
      } else {
        DecideRows(s, s', id, start, y.run);
        WaitFrame(s, s', a);
      }
    }
  }

  lemma DecideConsent(reg: Registry, s: Sys, s': Sys, id: nat, start: Option<Start>, a: nat)
    requires SysInv(reg, s) && DecideStep(s, s', id, start)
    requires var y := s'.st.actions[id]; y.status.Approved? ==> s.now < y.expiresAt && y.decidedBy == Some(y.creator)
    ensures ConsentOk(s', a)
  {
    DecideHistory(reg, s, s', id, start);
    assert ConsentOk(s, a);
    if a == id {
      var d := s'.history[|s.history|];
      assert d.DecidedEvent? && d.id == id;
    } else if a in s.st.actions && HasConsent(s.history, a, s.st.actions[a], s.now) {
      ConsentMono(s.history, s'.history, a, s.st.actions[a], s.st.actions[a], s.now, s'.now);
    }
  }

  lemma DecideStepKeeps(reg: Registry, s: Sys, s': Sys, id: nat, start: Option<Start>)
    requires SysInv(reg, s) && DecideStep(s, s', id, start) && StoreInv(s'.st)
    requires var y := s'.st.actions[id]; y.status.Approved? ==> s.now < y.expiresAt && y.decidedBy == Some(y.creator)
    ensures SysInv(reg, s')
  {
    var x := s.st.actions[id];
    DecideHistory(reg, s, s', id, start);
    assert ProcOk(s, s.nextProc);
    forall q ensures ProcOk(s', q) && (q in s.procs ==> s.procs[q].run != x.run) {
      assert ProcOk(s, q);
      if q in s.procs {
        DecideRows(s, s', id, start, s.procs[q].run);
        ProcFrame(s, s', q);
      } else if q in s'.procs {
        DecideClaim(reg, s, s', id, start);
      }
    }
    forall q, r ensures Apart(s', q, r) { assert Apart(s, q, r) && ProcOk(s', q) && ProcOk(s', r); }
    forall a ensures WaitOk(s', a) { DecideWait(reg, s, s', id, start, a); }
    forall a ensures ConsentOk(s', a) { DecideConsent(reg, s, s', id, start, a); }
    forall m ensures CallsOk(s', m) { assert CallsOk(s, m); }
    forall k: nat ensures PauseOk(s', k) { DecidePauses(reg, s, s', id, start, k); }
  }

  lemma DecidePauses(reg: Registry, s: Sys, s': Sys, id: nat, start: Option<Start>, k: nat)
    requires SysInv(reg, s) && DecideStep(s, s', id, start)
    ensures PauseOk(s', k)
  {
    var x := s.st.actions[id];
    DecideHistory(reg, s, s', id, start);
    assert PauseOk(s, k);
    if k < |s.history| && s.history[k].ParkedEvent? {
      var e := s.history[k];
      assert s'.history[k] == e;
      if e.run != x.run || !StillParked(s.st, e.run, e.message) || e.message != x.message {
        forall a | a in s.st.actions && s.st.actions[a].run == e.run && s.st.actions[a].status.Pending?
          ensures e.run == x.run ==> s.st.actions[a].message == x.message
        {
          assert PairOk(s.st, a, id);
        }
        assert ResumeClaimed(s.history, e.run, e.message) ==> ResumeClaimed(s'.history, e.run, e.message);
        if e.run != x.run { PauseFrame(s, s', k); }
      } else if start.Some? {
        assert s'.history[|s.history| + 1] == ClaimedEvent(x.run, x.message);
      } else {
        var a :| a in s'.st.actions && s'.st.actions[a].run == x.run && s'.st.actions[a].status.Pending?;
        assert PairOk(s.st, a, id);
      }
    }
  }

  lemma TransitionStepKeeps(reg: Registry, s: Sys, user: nat, role: string, id: nat, verdict: Status, edited: Json, human: bool)
    requires SysInv(reg, s) && Decision(verdict) && (verdict.Approved? ==> human)
    ensures SysInv(reg, DoTransition(s, user, role, id, verdict, edited, human))
  {
    var t := Transition(s.st, user, role, id, verdict, edited, human, s.now);
    if t.Success? {
      var s' := DoTransition(s, user, role, id, verdict, edited, human);
      TransitionKeeps(s.st, user, role, id, verdict, edited, human, s.now);
      DecidedIsLawful(s.st, user, role, id, verdict, edited, human, s.now);
      DecideStepKeeps(reg, s, s', id, t.value.1);
    }
  }

  // ---- cancelling ------------------------------------------------------------

  lemma CancelStepKeeps(reg: Registry, s: Sys, user: nat, run: nat)
    requires SysInv(reg, s)
    ensures SysInv(reg, DoCancel(s, user, run))
  {
    if Cancel(s.st, user, run).Success? {
      var s' := DoCancel(s, user, run);
      CancelKeeps(s.st, user, run);
      forall q ensures ProcOk(s', q) {
        assert ProcOk(s, q);
        if q in s.procs { ProcFrame(s, s', q); }
      }
      forall q, r ensures Apart(s', q, r) { assert Apart(s, q, r); }
      forall a ensures WaitOk(s', a) && ConsentOk(s', a) {
        assert WaitOk(s, a) && ConsentOk(s, a) && RowOk(s.st, a);
        if a in s'.st.actions && s'.st.actions[a].status.Pending? {
          assert RunOk(s'.st, s'.st.actions[a].run) && s'.st.actions[a].run != run;
          WaitFrame(s, s', a);
        }
      }
      forall m ensures CallsOk(s', m) { assert CallsOk(s, m); }
      forall k: nat ensures PauseOk(s', k) {
        assert PauseOk(s, k);
        if k < |s.history| && (!s.history[k].ParkedEvent? || s.history[k].run != run) { PauseFrame(s, s', k); }
      }
    }
  }

  // ---- every schedule --------------------------------------------------------

  lemma BatchStepKeeps(reg: Registry, s: Sys, p: nat, step: Step)
    requires SysInv(reg, s) && p in s.procs
    requires step.ResumeCall? || step.RunApproved? || step.Settle? || step.CompleteBatch?
    ensures SysInv(reg, ProcStep(reg, s, p, step))
  {
    assert ProcOk(s, p);
    match (step, s.procs[p].pc)
    case (ResumeCall(_, ok), Resuming(_, _, _)) => ResumeCallKeeps(reg, s, p, ok);
    case (RunApproved(_, outcome), Cleared(_, _, _, _)) => RunApprovedKeeps(reg, s, p, outcome);
    case (Settle(_, ok), Settling(_, _, _, _)) => SettleKeeps(reg, s, p, ok);
    case (CompleteBatch(_, ok), Resuming(_, batch, i)) => if i == |batch| { GotoKeeps(reg, s, p, if ok then Looping(0) else Finishing(RunFailed)); }
    case _ =>
  }

  lemma LastStepKeeps(reg: Registry, s: Sys, p: nat, step: Step)
    requires SysInv(reg, s) && p in s.procs && (step.Abort? || step.EndRun? || step.Vanish?)
    ensures SysInv(reg, ProcStep(reg, s, p, step))
  {
    assert ProcOk(s, p);
    match (step, s.procs[p].pc)
    case (Abort(_, cancelled), pc) => if !pc.Finishing? { GotoKeeps(reg, s, p, Finishing(if cancelled then Cancelled else RunFailed)); }
    case (EndRun(_), Finishing(_)) => EndRunKeeps(reg, s, p);
    case (Vanish(_), _) => DropKeeps(reg, s, p);
    case _ =>
  }

  lemma ProcStepKeeps(reg: Registry, s: Sys, p: nat, step: Step)
    requires SysInv(reg, s) && p in s.procs
    ensures SysInv(reg, ProcStep(reg, s, p, step))
  {
    assert ProcOk(s, p);
    match (step, s.procs[p].pc)
    case (Turn(_, calls, cutOff), Looping(_)) => if DistinctIds(calls) { TurnKeeps(reg, s, p, calls, cutOff); }
    case (Dispatch(_, ok), Dispatching(_, _, _, _)) => DispatchKeeps(reg, s, p, ok);
    case (Load(_), Claimed(_)) => LoadKeeps(reg, s, p);
    case (ResumeCall(_, _), _) => BatchStepKeeps(reg, s, p, step);
    case (RunApproved(_, _), _) => BatchStepKeeps(reg, s, p, step);
    case (Settle(_, _), _) => BatchStepKeeps(reg, s, p, step);
    case (CompleteBatch(_, _), _) => BatchStepKeeps(reg, s, p, step);
    case (Abort(_, _), _) => LastStepKeeps(reg, s, p, step);
    case (EndRun(_), _) => LastStepKeeps(reg, s, p, step);
    case (Vanish(_), _) => LastStepKeeps(reg, s, p, step);
    case _ =>
  }

  lemma ApplyKeeps(reg: Registry, s: Sys, step: Step)
    requires SysInv(reg, s)
    ensures SysInv(reg, Apply(reg, s, step))
  {
    match step
    case Begin(user, role) => BeginKeeps(reg, s, user, role);
    case Tick(_) =>
      forall q | q in s.procs ensures s.procs[q].run in s.st.runs { assert ProcOk(s, q); }
      RunStepKeeps(reg, s, Apply(reg, s, step));
    case Decide(user, role, id, approve, edited) =>
      TransitionStepKeeps(reg, s, user, role, id, if approve then Approved else Rejected, edited, true);
    case Sweep(id) =>
      if id in s.st.actions { TransitionStepKeeps(reg, s, s.st.actions[id].creator, "", id, Expired, Absent, false); }
    case CancelRun(user, run) => CancelStepKeeps(reg, s, user, run);
    case Restart => RestartKeeps(reg, s);
    case _ => if step.p in s.procs { ProcStepKeeps(reg, s, step.p, step); }
  }

  lemma {:induction false} Invariant(reg: Registry, schedule: seq<Step>)
    ensures SysInv(reg, Exec(reg, schedule))
  {
    if schedule == [] {
      assert StoreInv(Empty);
    } else {
      Invariant(reg, schedule[..|schedule| - 1]);
      ApplyKeeps(reg, Exec(reg, schedule[..|schedule| - 1]), schedule[|schedule| - 1]);
    }
  }
}
