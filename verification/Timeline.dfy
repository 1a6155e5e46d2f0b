/**
 One simulated prospect's journey through a campaign. Times and durations are in nanoseconds;
 `percentile` is any function into 0..99.
 */
module Timeline {
  import opened Wrappers

  type Percent = p: int | 0 <= p <= 99
  type Draw = (int, string) -> Percent

  const Second := 1_000_000_000
  const Minute := 60 * Second
  const Hour := 60 * Minute
  const Day := 24 * Hour

  const MinOpen := 3 * Minute
  const MaxOpen := 30 * Hour
  const MinClick := 20 * Second
  const MaxClick := 45 * Minute
  const MinReply := 12 * Minute
  const MaxReply := 40 * Hour
  const MinBounce := 5 * Second
  const MaxBounce := 4 * Minute

  const MaxInt64 := 0x7FFF_FFFF_FFFF_FFFF

  // ---- the source's integers -------------------------------------------------

  /** Two's complement wrap-around to 64 bits. */
  function Wrap64(x: int): int {
    (x + 0x8000_0000_0000_0000) % 0x1_0000_0000_0000_0000 - 0x8000_0000_0000_0000
  }

  /** Division and remainder that truncate toward zero. */
  function Quot(x: int, d: int): int
    requires d > 0
  {
    if x >= 0 then x / d else -((-x) / d)
  }

  function Rem(x: int, d: int): int
    requires d > 0
  {
    x - d * Quot(x, d)
  }

  lemma RemBounds(x: int)
    ensures -Day < Rem(x, Day) < Day
    ensures x >= 0 ==> 0 <= Rem(x, Day) <= x
    ensures x <= 0 ==> Rem(x, Day) <= 0
  {
  }

  // ---- when a journey starts -------------------------------------------------

  function DayOffset(p: Percent, window: int): int {
    var days := window / Day;
    p * (if days < 1 then 1 else days) / 100
  }

  /** The product wraps as a 64-bit duration does. */
  function WithinDay(p: Percent, window: int): int {
    Rem(Quot(Wrap64(p * window), 100), Day)
  }

  function EnrollmentStart(draw: Draw, index: int, now: int, window: int): int {
    if window <= 0 then now
    else now - window + DayOffset(draw(index, "enroll-day"), window) * Day + WithinDay(draw(index, "enroll-hour"), window)
  }

  lemma Scaled(p: Percent, window: int)
    requires window > 0
    ensures 0 <= p * window <= 99 * window
  {
  }

  lemma DayOffsetBounds(p: Percent, window: int)
    requires window > 0
    ensures DayOffset(p, window) >= 0
    ensures window >= Day ==> (DayOffset(p, window) + 1) * Day <= window
    ensures window < Day ==> DayOffset(p, window) == 0
  {
    var days := window / Day;
    if window >= Day {
      Scaled(p, days);
      assert p * days / 100 < days;
      assert days * Day <= window;
    }
  }

  lemma NoWrap(x: int)
    requires 0 <= x <= MaxInt64
    ensures Wrap64(x) == x
  {
  }

  /** As long as the product fits 64 bits, the within-day part is never negative, nor as long as a short window. */
  lemma FittingDraw(p: Percent, window: int)
    requires 0 < window && 99 * window <= MaxInt64
    ensures 0 <= WithinDay(p, window) < Day && WithinDay(p, window) < window
  {
    Scaled(p, window);
    NoWrap(p * window);
    var x := p * window;
    assert Quot(x, 100) == x / 100;
    RemBounds(x / 100);
  }

  lemma WithinDayBounds(p: Percent, window: int)
    requires 0 < window
    ensures -Day < WithinDay(p, window) < Day
    ensures window < Day ==> 0 <= WithinDay(p, window) < window
  {
    RemBounds(Quot(Wrap64(p * window), 100));
    if window < Day { FittingDraw(p, window); }
  }

  /** A start is never after `now`. It lies in the window unless it falls on the first day with a negative within-day part. */
  lemma StartBounds(draw: Draw, index: int, now: int, window: int)
    requires window > 0
    ensures EnrollmentStart(draw, index, now, window) <= now
    ensures now - window <= EnrollmentStart(draw, index, now, window) <==>
            DayOffset(draw(index, "enroll-day"), window) > 0 || WithinDay(draw(index, "enroll-hour"), window) >= 0
  {
    var d, h := draw(index, "enroll-day"), draw(index, "enroll-hour");
    DayOffsetBounds(d, window);
    WithinDayBounds(h, window);
    var offset := DayOffset(d, window);
    assert offset >= 1 ==> offset * Day >= Day;
  }

  const Half := 0x8000_0000_0000_0000
  const Full := 0x1_0000_0000_0000_0000

  /** The p-fold of the window, cut to 64 bits, reads as no negative number, or as one whose hundredth is whole days. */
  predicate SafeDraw(p: Percent, window: int) {
    var cut := p * window % Full;
    cut < Half || (Full - cut) / 100 % Day == 0
  }

  predicate SafeWindow(window: int) {
    forall p: Percent :: SafeDraw(p, window)
  }

  lemma WrapCuts(x: int)
    ensures Wrap64(x) == if x % Full < Half then x % Full else x % Full - Full
  {
  }

  lemma NegativeDay(q: int)
    requires q >= 0
    ensures Rem(-q, Day) == -(q % Day)
  {
    assert q == Day * (q / Day) + q % Day;
  }

  /** Such draws are exactly those with no negative within-day part. */
  lemma SafeDrawExactly(p: Percent, window: int)
    ensures WithinDay(p, window) >= 0 <==> SafeDraw(p, window)
  {
    var x := p * window;
    WrapCuts(x);
    RemBounds(Quot(Wrap64(x), 100));
    if x % Full >= Half {
      NegativeDay((Full - x % Full) / 100);
      assert Quot(Wrap64(x), 100) == -((Full - x % Full) / 100);
    }
  }

  ghost predicate StartsInWindow(window: int) {
    forall draw: Draw, index: int, now: int :: now - window <= EnrollmentStart(draw, index, now, window) <= now
  }

  /** Every start lies in the window, whatever is drawn, if and only if the window is safe. */
  lemma StartsInWindowExactly(window: int)
    requires window > 0
    ensures StartsInWindow(window) <==> SafeWindow(window)
  {
    if SafeWindow(window) {
      forall draw: Draw, index: int, now: int ensures now - window <= EnrollmentStart(draw, index, now, window) <= now {
        StartBounds(draw, index, now, window);
        SafeDrawExactly(draw(index, "enroll-hour"), window);
        assert SafeDraw(draw(index, "enroll-hour"), window);
      }
    }
    if StartsInWindow(window) {
      forall p: Percent ensures SafeDraw(p, window) {
        SafeDrawExactly(p, window);
        var draw: Draw := (i: int, salt: string) => if salt == "enroll-hour" then p else 0;
        assert 0 - window <= EnrollmentStart(draw, 0, 0, window);
        assert draw(0, "enroll-hour") == p && draw(0, "enroll-day") == 0;
        StartBounds(draw, 0, 0, window);
        assert DayOffset(0, window) == 0;
      }
    }
  }

  /** Windows up to about 2.9 years are safe. */
  lemma OrdinaryWindowIsSafe(window: int)
    requires 0 < window && 99 * window <= MaxInt64
    ensures SafeWindow(window)
  {
    forall p: Percent ensures SafeDraw(p, window) {
      FittingDraw(p, window);
      SafeDrawExactly(p, window);
    }
  }

  /** A window of 200 years is not: a draw of 60 makes the product wrap to a negative part. */
  lemma LongWindowIsNotSafe()
    ensures !SafeWindow(200 * 365 * Day)
  {
    assert !SafeDraw(60, 200 * 365 * Day);
  }

  // ---- how starts are spread ----------------------------------------------------

  /** The whole days of a window, one at least. */
  function Days(window: int): int {
    if window < Day then 1 else window / Day
  }

  lemma Hundredth(x: int)
    requires x >= 0
    ensures x / 100 * 100 <= x < (x / 100 + 1) * 100
  {
  }

  lemma SplitOffset(days: int, rest: int)
    requires 0 <= rest < Day
    ensures (days * Day + rest) / Day == days && (days * Day + rest) % Day == rest
  {
  }

  /**
   A start in an ordinary window lies as many whole days into it as the day drawn is per cent of its
   days, rounded down, and that day's clock shows the drawn per cent of the window past whole days.
   */
  lemma StartSplits(draw: Draw, index: int, now: int, window: int)
    requires 0 < window && 99 * window <= MaxInt64
    ensures var offset := EnrollmentStart(draw, index, now, window) - (now - window);
            && offset / Day * 100 <= draw(index, "enroll-day") * Days(window) < (offset / Day + 1) * 100
            && offset % Day == draw(index, "enroll-hour") * window / 100 % Day
  {
    var d, h := draw(index, "enroll-day"), draw(index, "enroll-hour");
    var x := h * window;
    FittingDraw(h, window);
    Scaled(h, window);
    NoWrap(x);
    assert WithinDay(h, window) == x / 100 % Day by { assert Quot(x, 100) == x / 100; }
    SplitOffset(DayOffset(d, window), WithinDay(h, window));
    ScaledDays(d, Days(window));
    Hundredth(d * Days(window));
  }

  lemma ScaledDays(p: Percent, days: int)
    requires days > 0
    ensures 0 <= p * days
  {
  }

  lemma RoundUp(x: int, d: int) returns (q: int)
    requires 0 <= x && d > 0
    ensures x <= q * d < x + d && q >= 0
  {
    q := (x + d - 1) / d;
    assert x + d - 1 == q * d + (x + d - 1) % d;
  }

  /** Every day of a window of up to a hundred is drawn by some percentile. */
  lemma EveryDayIsDrawn(window: int, k: int) returns (p: int)
    requires 0 < window && 0 <= k < Days(window) <= 100
    ensures 0 <= p <= 99 && DayOffset(p, window) == k
  {
    var days := Days(window);
    p := RoundUp(100 * k, days);
    assert p * days < 100 * days by { assert 100 * k + days <= 100 * (k + 1) + days - 100 <= 100 * days + days - 100; }
    assert p <= 99 by { if p >= 100 { TooFar(p, days); } }
    assert p * days / 100 == k;
  }

  lemma TooFar(p: int, days: int)
    requires p >= 100 && days > 0
    ensures p * days >= 100 * days
  {
  }

  // ---- one journey -----------------------------------------------------------

  /** `spread`: a percentile mapped into a range of durations. */
  function Spread(p: Percent, lo: nat, hi: nat): int
    requires lo <= hi
  {
    lo + (hi - lo) * p / 100
  }

  lemma SpreadBounds(p: Percent, lo: nat, hi: nat)
    requires lo <= hi
    ensures lo <= Spread(p, lo, hi) <= hi
  {
    if lo < hi { Scaled(p, hi - lo); }
  }

  /** It lies that many per cent of the way, rounded down. */
  lemma SpreadIsLinear(p: Percent, lo: nat, hi: nat)
    requires lo <= hi
    ensures (Spread(p, lo, hi) - lo) * 100 <= (hi - lo) * p < (Spread(p, lo, hi) - lo + 1) * 100
  {
    if lo < hi { Scaled(p, hi - lo); }
    Hundredth((hi - lo) * p);
  }

  function OpenDelay(draw: Draw, index: int, step: int): int {
    Spread(draw(index * 31 + step, "open-delay"), MinOpen, MaxOpen)
  }

  function ClickDelay(draw: Draw, index: int, step: int): int {
    Spread(draw(index * 37 + step, "click-delay"), MinClick, MaxClick)
  }

  function ReplyDelay(draw: Draw, index: int, step: int): int {
    Spread(draw(index * 41 + step, "reply-delay"), MinReply, MaxReply)
  }

  function BounceDelay(draw: Draw, index: int): int {
    Spread(draw(index, "bounce-delay"), MinBounce, MaxBounce)
  }

  lemma DelaysArePositive(draw: Draw, index: int, step: int)
    ensures OpenDelay(draw, index, step) > 0 && ClickDelay(draw, index, step) > 0
    ensures ReplyDelay(draw, index, step) > 0 && BounceDelay(draw, index) > 0
  {
    SpreadBounds(draw(index * 31 + step, "open-delay"), MinOpen, MaxOpen);
    SpreadBounds(draw(index * 37 + step, "click-delay"), MinClick, MaxClick);
    SpreadBounds(draw(index * 41 + step, "reply-delay"), MinReply, MaxReply);
    SpreadBounds(draw(index, "bounce-delay"), MinBounce, MaxBounce);
  }

  datatype Behavior = Behavior(opens: bool, clicks: bool, replies: bool, bounces: bool)

  datatype StepShape = StepShape(order: int, delaySeconds: int)

  datatype SendEvent = SendEvent(stepOrder: int, sentAt: int, openedAt: Option<int>, clickedAt: Option<int>, bouncedAt: Option<int>)

  datatype ReplyEvent = ReplyEvent(at: int, inReplyToStep: int)

  datatype StopReason = RanItsCourse | Bounced | Replied

  datatype Timeline = Timeline(sends: seq<SendEvent>, reply: Option<ReplyEvent>, stop: StopReason)

  /** What one journey is computed from. */
  datatype Journey = Journey(behavior: Behavior, draw: Draw, index: int, steps: seq<StepShape>, now: int, start: int)

  /** When the k-th step is due: the start and every later delay up to it. */
  function Due(j: Journey, k: nat): int
    requires k < |j.steps|
  {
    if k == 0 then j.start else Due(j, k - 1) + j.steps[k].delaySeconds * Second
  }

  function OpenOf(j: Journey, k: nat): Option<int>
    requires k < |j.steps|
  {
    var at := Due(j, k) + OpenDelay(j.draw, j.index, k);
    if j.behavior.opens && at <= j.now then Some(at) else None
  }

  function ClickOf(j: Journey, k: nat): Option<int>
    requires k < |j.steps|
  {
    var open := OpenOf(j, k);
    if open.None? || !j.behavior.clicks then None
    else
      var at := open.value + ClickDelay(j.draw, j.index, k);
      if at <= j.now then Some(at) else None
  }

  function BounceOf(j: Journey, k: nat): int
    requires k < |j.steps|
  {
    var at := Due(j, k) + BounceDelay(j.draw, j.index);
    if at > j.now then j.now else at
  }

  /** The k-th send and the engagement it drew. */
  function SendOf(j: Journey, k: nat): SendEvent
    requires k < |j.steps|
  {
    if j.behavior.bounces then SendEvent(j.steps[k].order, Due(j, k), None, None, Some(BounceOf(j, k)))
    else SendEvent(j.steps[k].order, Due(j, k), OpenOf(j, k), ClickOf(j, k), None)
  }

  /** The prospect answers the k-th send: the sequence stops there even if the answer is still to come. */
  predicate Answers(j: Journey, k: nat)
    requires k < |j.steps|
  {
    !j.behavior.bounces && j.behavior.replies && OpenOf(j, k).Some?
  }

  function ReplyAt(j: Journey, k: nat): int
    requires k < |j.steps| && OpenOf(j, k).Some?
  {
    OpenOf(j, k).value + ReplyDelay(j.draw, j.index, k)
  }

  /** Nothing is sent after the first n steps. */
  predicate Halts(j: Journey, n: nat)
    requires n <= |j.steps|
  {
    || n == |j.steps|
    || Due(j, n) > j.now
    || (n > 0 && (j.behavior.bounces || Answers(j, n - 1)))
  }

  /** What stops a journey after its first n sends, at `now`. */
  function StopOf(j: Journey, n: nat): StopReason
    requires n <= |j.steps|
  {
    if n == 0 then RanItsCourse
    else if j.behavior.bounces then Bounced
    else if Answers(j, n - 1) && ReplyAt(j, n - 1) <= j.now then Replied
    else RanItsCourse
  }

  function ReplyOf(j: Journey, n: nat): Option<ReplyEvent>
    requires n <= |j.steps|
  {
    if StopOf(j, n).Replied? then Some(ReplyEvent(ReplyAt(j, n - 1), j.steps[n - 1].order)) else None
  }

  /** The timeline of a journey: the sends up to the first halt, and the reply to the last of them if it has come. */
  ghost predicate IsTimeline(j: Journey, t: Timeline) {
    var n := |t.sends|;
    && SentSoFar(j, t.sends) && Halts(j, n)
    && t.stop == StopOf(j, n) && t.reply == ReplyOf(j, n)
  }

  /** The engagement one send draws. */
  method Engage(j: Journey, i: nat, sentAt: int) returns (ev: SendEvent)
    requires i < |j.steps| && sentAt == Due(j, i)
    ensures ev == SendOf(j, i)
  {
    if j.behavior.bounces {
      var bounced := sentAt + BounceDelay(j.draw, j.index);
      if bounced > j.now { bounced := j.now; }
      return SendEvent(j.steps[i].order, sentAt, None, None, Some(bounced));
    }
    ev := SendEvent(j.steps[i].order, sentAt, None, None, None);
    if j.behavior.opens {
      var open := sentAt + OpenDelay(j.draw, j.index, i);
      if open <= j.now {
        ev := ev.(openedAt := Some(open));
        if j.behavior.clicks {
          var click := open + ClickDelay(j.draw, j.index, i);
          if click <= j.now { ev := ev.(clickedAt := Some(click)); }
        }
      }
    }
  }

  ghost predicate SentSoFar(j: Journey, sends: seq<SendEvent>) {
    |sends| <= |j.steps| && forall k :: 0 <= k < |sends| ==> sends[k] == SendOf(j, k) && !Halts(j, k)
  }

  lemma SentOneMore(j: Journey, sends: seq<SendEvent>)
    requires SentSoFar(j, sends) && |sends| < |j.steps| && !Halts(j, |sends|)
    ensures SentSoFar(j, sends + [SendOf(j, |sends|)])
  {
  }

  /** After step i the journey halts, or goes on to a step that is due later. */
  lemma HaltsAfter(j: Journey, i: nat)
    requires i < |j.steps|
    ensures j.behavior.bounces ==> Halts(j, i + 1) && StopOf(j, i + 1) == Bounced
    ensures Answers(j, i) ==> Halts(j, i + 1) && StopOf(j, i + 1) == if ReplyAt(j, i) <= j.now then Replied else RanItsCourse
    ensures !j.behavior.bounces && !Answers(j, i) ==> StopOf(j, i + 1) == RanItsCourse
    ensures !j.behavior.bounces && !Answers(j, i) && i + 1 < |j.steps| ==> (Halts(j, i + 1) <==> Due(j, i + 1) > j.now)
  {
  }

  /** What one more step makes of a journey: it goes on, or it is over with this timeline. */
  method NextStep(j: Journey, sends: seq<SendEvent>, sentAt: int) returns (sends': seq<SendEvent>, over: bool, t: Timeline)
    requires SentSoFar(j, sends) && |sends| < |j.steps| && !Halts(j, |sends|) && sentAt == Due(j, |sends|)
    ensures SentSoFar(j, sends') && |sends'| == |sends| + 1
    ensures over ==> IsTimeline(j, t)
    ensures !over ==> GoesOn(j, |sends'|)
  {
    ghost var i := |sends|;
    var ev := Engage(j, |sends|, sentAt);
    SentOneMore(j, sends);
    HaltsAfter(j, i);
    sends', over, t := sends + [ev], false, Timeline([], None, RanItsCourse);
    if j.behavior.bounces {
      over, t := true, Timeline(sends', None, Bounced);
    } else if j.behavior.replies && ev.openedAt.Some? {
      var at := ev.openedAt.value + ReplyDelay(j.draw, j.index, |sends|);
      over := true;
      t := if at > j.now then Timeline(sends', None, RanItsCourse)
           else Timeline(sends', Some(ReplyEvent(at, j.steps[|sends|].order)), Replied);
    }
  }

  /** Nothing but the clock or the end of the steps stops the journey after n sends. */
  ghost predicate GoesOn(j: Journey, n: nat)
    requires n <= |j.steps|
  {
    StopOf(j, n) == RanItsCourse && (n < |j.steps| ==> (Halts(j, n) <==> Due(j, n) > j.now))
  }

  method BuildTimeline(behavior: Behavior, draw: Draw, index: int, steps: seq<StepShape>, now: int, window: int) returns (t: Timeline)
    ensures IsTimeline(Journey(behavior, draw, index, steps, now, EnrollmentStart(draw, index, now, window)), t)
  {
    if |steps| == 0 { return Timeline([], None, RanItsCourse); }
    var start := EnrollmentStart(draw, index, now, window);
    var j := Journey(behavior, draw, index, steps, now, start);
    var sends: seq<SendEvent> := [];
    var sentAt := start;
    var i := 0;
    while i < |steps|
      invariant 0 <= i <= |steps| && |sends| == i && SentSoFar(j, sends) && GoesOn(j, i)
      invariant sentAt == if i == 0 then start else Due(j, i - 1)
    {
      if i > 0 { sentAt := sentAt + steps[i].delaySeconds * Second; }
      if sentAt > now { break; }
      var over;
      sends, over, t := NextStep(j, sends, sentAt);
      if over { return; }
      i := i + 1;
    }
    t := Timeline(sends, None, RanItsCourse);
  }

  // ---- the history is coherent -----------------------------------------------

  ghost predicate DelaysForward(steps: seq<StepShape>) {
    forall k :: 0 <= k < |steps| ==> steps[k].delaySeconds >= 0
  }

  lemma {:induction false} DueGrows(j: Journey, i: nat, k: nat)
    requires i <= k < |j.steps| && DelaysForward(j.steps)
    ensures Due(j, i) <= Due(j, k)
  {
    if i < k { DueGrows(j, i, k - 1); }
  }

  ghost predicate Within(at: int, lo: int, hi: int) {
    lo <= at <= hi
  }

  /** Every event of a send follows the send, a click follows its open, and nothing lies outside the window. */
  ghost predicate SendCoherent(s: SendEvent, lo: int, now: int) {
    && Within(s.sentAt, lo, now)
    && (s.openedAt.Some? ==> s.sentAt < s.openedAt.value <= now)
    && (s.clickedAt.Some? ==> s.openedAt.Some? && s.openedAt.value < s.clickedAt.value <= now)
    && (s.bouncedAt.Some? ==> s.sentAt <= s.bouncedAt.value <= now && s.openedAt.None? && s.clickedAt.None?)
  }

  /** The order of the events of a whole history, and what stops it. */
  ghost predicate Coherent(j: Journey, t: Timeline, lo: int) {
    var n := |t.sends|;
    && n <= |j.steps|
    && (forall k :: 0 <= k < n ==> SendCoherent(t.sends[k], lo, j.now) && t.sends[k].stepOrder == j.steps[k].order)
    && (forall k :: 0 < k < n ==> t.sends[k].sentAt == t.sends[k - 1].sentAt + j.steps[k].delaySeconds * Second)
    && (t.reply.Some? ==> n > 0 && t.sends[n - 1].openedAt.Some? && t.reply.value.inReplyToStep == t.sends[n - 1].stepOrder
                          && t.sends[n - 1].openedAt.value < t.reply.value.at <= j.now)
    && (t.stop == Bounced ==> n == 1 && t.sends[0].bouncedAt.Some? && t.reply.None?)
    && (t.stop == Replied <==> t.reply.Some?)
    && (forall k :: 0 <= k < n && t.sends[k].bouncedAt.Some? ==> t.stop == Bounced)
  }

  lemma SendIsCoherent(j: Journey, k: nat)
    requires k < |j.steps| && DelaysForward(j.steps) && Due(j, k) <= j.now
    ensures SendCoherent(SendOf(j, k), j.start, j.now)
  {
    DueGrows(j, 0, k);
    DelaysArePositive(j.draw, j.index, k);
  }

  /** A bouncing prospect is sent to once, and any other stops at the first answer. */
  lemma StopsAtOnce(j: Journey, t: Timeline)
    requires IsTimeline(j, t)
    ensures t.stop == Bounced ==> |t.sends| == 1
    ensures forall k :: 0 <= k < |t.sends| - 1 ==> !Answers(j, k)
  {
    var n := |t.sends|;
    if n > 1 { assert !Halts(j, 1); }
    forall k | 0 <= k < n - 1 ensures !Answers(j, k) {
      assert !Halts(j, k + 1);
    }
  }

  /** Sends are spaced by exactly the delays between their steps. */
  lemma SendsAreSpaced(j: Journey, sends: seq<SendEvent>)
    requires SentSoFar(j, sends)
    ensures forall k :: 0 < k < |sends| ==> sends[k].sentAt == sends[k - 1].sentAt + j.steps[k].delaySeconds * Second
  {
    forall k | 0 < k < |sends| ensures sends[k].sentAt == sends[k - 1].sentAt + j.steps[k].delaySeconds * Second {
      assert sends[k] == SendOf(j, k) && sends[k - 1] == SendOf(j, k - 1);
    }
  }

  /** A reply answers the last send, after its open. */
  lemma ReplyFollowsOpen(j: Journey, t: Timeline)
    requires IsTimeline(j, t)
    ensures t.stop == Replied <==> t.reply.Some?
    ensures var n := |t.sends|;
            t.reply.Some? ==> n > 0 && t.sends[n - 1].openedAt.Some? && t.reply.value.inReplyToStep == t.sends[n - 1].stepOrder
                              && t.sends[n - 1].openedAt.value < t.reply.value.at <= j.now
  {
    var n := |t.sends|;
    if n > 0 {
      DelaysArePositive(j.draw, j.index, n - 1);
      assert t.sends[n - 1] == SendOf(j, n - 1);
    }
  }

  /** Every timeline of forward delays is coherent from its start on. */
  lemma TimelineIsCoherent(j: Journey, t: Timeline)
    requires IsTimeline(j, t) && DelaysForward(j.steps)
    ensures Coherent(j, t, j.start)
  {
    StopsAtOnce(j, t);
    SendsAreSpaced(j, t.sends);
    ReplyFollowsOpen(j, t);
    forall k | 0 <= k < |t.sends| ensures SendCoherent(t.sends[k], j.start, j.now) {
      assert t.sends[k] == SendOf(j, k) && !Halts(j, k);
      SendIsCoherent(j, k);
    }
  }

  /** In a window that is safe for its draws, the whole history lies between `now` less the window and `now`. */
  lemma HistoryLiesInWindow(j: Journey, window: int, t: Timeline)
    requires window > 0 && SafeWindow(window) && DelaysForward(j.steps)
    requires j.start == EnrollmentStart(j.draw, j.index, j.now, window) && IsTimeline(j, t)
    ensures Coherent(j, t, j.now - window)
    ensures j.steps != [] ==> t.sends != []
  {
    TimelineIsCoherent(j, t);
    StartsInWindowExactly(window);
    assert j.now - window <= j.start <= j.now;
    forall k | 0 <= k < |t.sends| ensures SendCoherent(t.sends[k], j.now - window, j.now) {
      assert SendCoherent(t.sends[k], j.start, j.now);
    }
  }

  // ---- what shows of a prospect's behaviour -------------------------------------

  lemma DelaysInRange(draw: Draw, index: int, step: int)
    ensures 3 * Minute <= OpenDelay(draw, index, step) <= 30 * Hour
    ensures 20 * Second <= ClickDelay(draw, index, step) <= 45 * Minute
    ensures 12 * Minute <= ReplyDelay(draw, index, step) <= 40 * Hour
    ensures 5 * Second <= BounceDelay(draw, index) <= 4 * Minute
  {
    SpreadBounds(draw(index * 31 + step, "open-delay"), MinOpen, MaxOpen);
    SpreadBounds(draw(index * 37 + step, "click-delay"), MinClick, MaxClick);
    SpreadBounds(draw(index * 41 + step, "reply-delay"), MinReply, MaxReply);
    SpreadBounds(draw(index, "bounce-delay"), MinBounce, MaxBounce);
  }

  /** Something that takes between lo and hi shows once hi has passed, and never outside that range. */
  ghost predicate ShowsWithin(happens: bool, from: int, at: Option<int>, lo: int, hi: int, now: int) {
    && (at.Some? ==> happens && from + lo <= at.value <= from + hi && at.value <= now)
    && (happens && from + hi <= now ==> at.Some?)
  }

  /** One send shows the opens and clicks of its prospect, or the bounce. */
  ghost predicate SendShows(b: Behavior, e: SendEvent, now: int) {
    if b.bounces then
      && e.openedAt.None? && e.clickedAt.None? && e.bouncedAt.Some?
      && (e.bouncedAt.value == now < e.sentAt + 4 * Minute || e.sentAt + 5 * Second <= e.bouncedAt.value <= e.sentAt + 4 * Minute)
    else
      && e.bouncedAt.None?
      && ShowsWithin(b.opens, e.sentAt, e.openedAt, 3 * Minute, 30 * Hour, now)
      && (e.openedAt.Some? ==> ShowsWithin(b.clicks, e.openedAt.value, e.clickedAt, 20 * Second, 45 * Minute, now))
      && (e.openedAt.None? ==> e.clickedAt.None?)
  }

  ghost predicate OpensAndReplies(j: Journey, e: SendEvent) {
    j.behavior.replies && e.openedAt.Some?
  }

  lemma SendOfShows(j: Journey, k: nat)
    requires k < |j.steps| && Due(j, k) <= j.now
    ensures SendShows(j.behavior, SendOf(j, k), j.now)
  {
    DelaysInRange(j.draw, j.index, k);
  }

  /**
   A timeline shows what its prospect does. Every send has the bounce, or the open and the click, as
   soon as they are due; the reply to the last send likewise; and nothing but a bounce, an opened
   send of somebody who replies, or a step not yet due keeps the next step from being sent.
   */
  lemma TimelineShows(j: Journey, t: Timeline)
    requires IsTimeline(j, t)
    ensures forall k :: 0 <= k < |t.sends| ==> SendShows(j.behavior, t.sends[k], j.now)
    ensures |t.sends| <= |j.steps|
    ensures var n := |t.sends|;
            (n > 0 && !j.behavior.bounces && t.sends[n - 1].openedAt.Some? ==>
               ShowsWithin(j.behavior.replies, t.sends[n - 1].openedAt.value, if t.reply.Some? then Some(t.reply.value.at) else None, 12 * Minute, 40 * Hour, j.now))
    ensures var n := |t.sends|;
            && (n == 0 && j.steps != [] ==> j.start > j.now)
            && (0 < n < |j.steps| && !j.behavior.bounces && !OpensAndReplies(j, t.sends[n - 1]) ==>
                  t.sends[n - 1].sentAt + j.steps[n].delaySeconds * Second > j.now)
  {
    var n := |t.sends|;
    forall k | 0 <= k < n ensures SendShows(j.behavior, t.sends[k], j.now) {
      assert t.sends[k] == SendOf(j, k) && !Halts(j, k);
      SendOfShows(j, k);
    }
    if n > 0 {
      assert t.sends[n - 1] == SendOf(j, n - 1);
      DelaysInRange(j.draw, j.index, n - 1);
    }
  }
}
