/** Which turns of a conversation a reply is drafted from. Text is a sequence of runes. */
module Draft {
  datatype DraftTurn = DraftTurn(fromContact: bool, text: string)

  const MaxTurns := 20
  const MaxRunes := 12000

  /** Unicode white space. */
  predicate IsSpace(c: char) {
    || '\U{0009}' <= c <= '\U{000d}' || c == ' ' || c == '\U{0085}' || c == '\U{00a0}' || c == '\U{1680}'
    || '\U{2000}' <= c <= '\U{200a}' || c == '\U{2028}' || c == '\U{2029}' || c == '\U{202f}' || c == '\U{205f}' || c == '\U{3000}'
  }

  /** Of the ASCII characters, that is the blank and what lies from the tab to the carriage return. */
  lemma AsciiSpaces(c: char)
    requires c < 128 as char
    ensures IsSpace(c) <==> c == ' ' || 9 as char <= c <= 13 as char
  {
  }

  function TrimLeft(s: string): string {
    if s != "" && IsSpace(s[0]) then TrimLeft(s[1..]) else s
  }

  function TrimRight(s: string): string {
    if s != "" && IsSpace(s[|s| - 1]) then TrimRight(s[..|s| - 1]) else s
  }

  function TrimSpace(s: string): string {
    TrimRight(TrimLeft(s))
  }

  ghost predicate AllSpace(s: string) {
    forall k :: 0 <= k < |s| ==> IsSpace(s[k])
  }

  lemma {:induction false} TrimLeftSplits(s: string)
    ensures |TrimLeft(s)| <= |s| && TrimLeft(s) == s[|s| - |TrimLeft(s)|..] && AllSpace(s[..|s| - |TrimLeft(s)|])
    ensures TrimLeft(s) != "" ==> !IsSpace(TrimLeft(s)[0])
  {
    if s != "" && IsSpace(s[0]) {
      TrimLeftSplits(s[1..]);
      var n := |s| - |TrimLeft(s)|;
      assert s[..n] == [s[0]] + s[1..][..n - 1];
    }
  }

  lemma {:induction false} TrimRightSplits(s: string)
    ensures |TrimRight(s)| <= |s| && TrimRight(s) == s[..|TrimRight(s)|] && AllSpace(s[|TrimRight(s)|..])
    ensures TrimRight(s) != "" ==> !IsSpace(TrimRight(s)[|TrimRight(s)| - 1])
  {
    if s != "" && IsSpace(s[|s| - 1]) {
      TrimRightSplits(s[..|s| - 1]);
      var n := |TrimRight(s)|;
      assert s[n..] == s[..|s| - 1][n..] + [s[|s| - 1]];
    }
  }

  /** A turn is blank exactly when it is nothing but white space. */
  lemma BlankIsAllSpace(s: string)
    ensures TrimSpace(s) == "" <==> AllSpace(s)
    ensures |TrimSpace(s)| <= |s|
  {
    TrimLeftSplits(s);
    var t := TrimLeft(s);
    TrimRightSplits(t);
    if t != "" { assert t[0] == s[|s| - |t|]; }
  }

  function NonBlank(turns: seq<DraftTurn>): seq<DraftTurn> {
    if turns == [] then []
    else
      var t := turns[|turns| - 1];
      NonBlank(turns[..|turns| - 1]) + (if TrimSpace(t.text) != "" then [t] else [])
  }

  lemma OneMore(front: seq<DraftTurn>, last: DraftTurn)
    ensures NonBlank(front + [last]) == NonBlank(front) + if AllSpace(last.text) then [] else [last]
  {
    BlankIsAllSpace(last.text);
    assert (front + [last])[..|front|] == front;
  }

  lemma CountedMore(front: seq<DraftTurn>, last: DraftTurn, t: DraftTurn)
    ensures multiset(front + [last])[t] == multiset(front)[t] + if last == t then 1 else 0
    ensures multiset(NonBlank(front + [last]))[t] == multiset(NonBlank(front))[t] + if last == t && !AllSpace(last.text) then 1 else 0
  {
    OneMore(front, last);
    OneCounted(front, [last], t);
    OneCounted(NonBlank(front), if AllSpace(last.text) then [] else [last], t);
  }

  /** The turns that say something: every one of them as often as it stands, none that is all white space, in order. */
  lemma {:induction false} NonBlankFilters(turns: seq<DraftTurn>, t: DraftTurn)
    ensures multiset(NonBlank(turns))[t] == if AllSpace(t.text) then 0 else multiset(turns)[t]
  {
    if turns == [] {
      assert NonBlank(turns) == [];
    } else {
      var front, last := turns[..|turns| - 1], turns[|turns| - 1];
      assert turns == front + [last];
      NonBlankFilters(front, t);
      CountedMore(front, last, t);
    }
  }

  lemma OneCounted(s: seq<DraftTurn>, more: seq<DraftTurn>, t: DraftTurn)
    requires |more| <= 1
    ensures multiset(s + more)[t] == multiset(s)[t] + if more != [] && more[0] == t then 1 else 0
  {
    if more != [] { assert more == [more[0]]; }
  }

  lemma {:induction false} NonBlankInOrder(a: seq<DraftTurn>, b: seq<DraftTurn>)
    ensures NonBlank(a + b) == NonBlank(a) + NonBlank(b)
    decreases |b|
  {
    if b == [] {
      assert a + b == a && NonBlank(a) + [] == NonBlank(a);
    } else {
      NonBlankInOrder(a, b[..|b| - 1]);
      assert (a + b)[..|a + b| - 1] == a + b[..|b| - 1];
    }
  }

  function Runes(turns: seq<DraftTurn>): nat {
    if turns == [] then 0 else Runes(turns[..|turns| - 1]) + |turns[|turns| - 1].text|
  }

  predicate Fits(turns: seq<DraftTurn>) {
    |turns| <= MaxTurns && Runes(turns) <= MaxRunes
  }

  function Suffix(turns: seq<DraftTurn>, n: nat): seq<DraftTurn>
    requires n <= |turns|
  {
    turns[|turns| - n..]
  }

  lemma {:induction false} RunesSplit(a: seq<DraftTurn>, b: seq<DraftTurn>)
    ensures Runes(a + b) == Runes(a) + Runes(b)
    decreases |b|
  {
    if b == [] {
      assert a + b == a;
    } else {
      RunesSplit(a, b[..|b| - 1]);
      assert (a + b)[..|a + b| - 1] == a + b[..|b| - 1];
    }
  }

  /** Dropping more of the oldest turns never makes a transcript too large. */
  lemma ShorterFits(turns: seq<DraftTurn>, m: nat, n: nat)
    requires m <= n <= |turns| && Fits(Suffix(turns, n))
    ensures Fits(Suffix(turns, m))
  {
    var dropped := turns[|turns| - n..|turns| - m];
    assert Suffix(turns, n) == dropped + Suffix(turns, m);
    RunesSplit(dropped, Suffix(turns, m));
  }

  method TranscriptRunes(turns: array<DraftTurn>, lo: nat, hi: nat) returns (total: nat)
    requires lo <= hi <= turns.Length
    ensures total == Runes(turns[lo..hi])
  {
    total := 0;
    for i := lo to hi
      invariant total == Runes(turns[lo..i])
    {
      assert turns[lo..i + 1][..i - lo] == turns[lo..i];
      total := total + |turns[i].text|;
    }
  }

  /** At most `limit` runes, and no white space left hanging where the text was cut. */
  function ClipRunes(s: string, limit: nat): (r: string)
    ensures |s| <= limit ==> r == s
    ensures |r| <= limit
  {
    BlankIsAllSpace(s[..if |s| <= limit then |s| else limit]);
    if |s| <= limit then s else TrimSpace(s[..limit])
  }

  /** Trimming takes the white space off both ends, all of it and nothing else. */
  lemma TrimIsMiddle(s: string) returns (i: nat, j: nat)
    ensures i <= j <= |s| && TrimSpace(s) == s[i..j] && AllSpace(s[..i]) && AllSpace(s[j..])
    ensures i < j ==> !IsSpace(s[i]) && !IsSpace(s[j - 1])
  {
    TrimLeftSplits(s);
    var t := TrimLeft(s);
    TrimRightSplits(t);
    i, j := |s| - |t|, |s| - |t| + |TrimRight(t)|;
    assert t == s[i..] && TrimRight(t) == s[i..j] && t[|TrimRight(t)|..] == s[j..];
    if TrimRight(t) != "" { assert t[0] == s[i] && t[|TrimRight(t)| - 1] == s[j - 1]; }
  }

  /** A text that is too long is cut at the limit, and loses white space at either end of what is left, but nothing else. */
  lemma ClipIsCut(s: string, limit: nat) returns (i: nat, j: nat)
    requires |s| > limit
    ensures i <= j <= limit && ClipRunes(s, limit) == s[i..j] && AllSpace(s[..i]) && AllSpace(s[j..limit])
    ensures i < j ==> !IsSpace(s[i]) && !IsSpace(s[j - 1])
  {
    i, j := TrimIsMiddle(s[..limit]);
    assert s[..limit][i..j] == s[i..j] && s[..limit][..i] == s[..i] && s[..limit][j..] == s[j..limit];
  }

  /** What is kept of the non-blank turns. */
  ghost predicate Keeps(all: seq<DraftTurn>, kept: seq<DraftTurn>) {
    if all == [] then kept == []
    else if |all[|all| - 1].text| > MaxRunes then
      kept == [all[|all| - 1].(text := ClipRunes(all[|all| - 1].text, MaxRunes))]
    else LongestFit(all, kept)
  }

  /** The longest suffix that fits, and the only one. */
  ghost predicate LongestFit(all: seq<DraftTurn>, kept: seq<DraftTurn>) {
    && 1 <= |kept| <= |all| && kept == Suffix(all, |kept|)
    && forall n :: 0 <= n <= |all| ==> (Fits(Suffix(all, n)) <==> n <= |kept|)
  }

  lemma LongestByStep(all: seq<DraftTurn>, n: nat)
    requires 1 <= n <= |all| && Fits(Suffix(all, n)) && (n < |all| ==> !Fits(Suffix(all, n + 1)))
    ensures LongestFit(all, Suffix(all, n))
  {
    forall m | 0 <= m <= |all| ensures Fits(Suffix(all, m)) <==> m <= n {
      if m <= n { ShorterFits(all, m, n); }
      else if Fits(Suffix(all, m)) { ShorterFits(all, n + 1, m); }
    }
  }

  /** What is kept is small enough: at most 20 turns and 12000 runes, and never nothing of something. */
  lemma KeptIsBounded(all: seq<DraftTurn>, kept: seq<DraftTurn>)
    requires Keeps(all, kept)
    ensures |kept| <= 20 && Runes(kept) <= 12000 && (kept == [] <==> all == [])
  {
    if all == [] {
      assert kept == [];
    } else if |all[|all| - 1].text| > MaxRunes {
      ClippedRunes(all[|all| - 1]);
    } else {
      assert Fits(Suffix(all, |kept|));
    }
  }

  lemma ClippedRunes(t: DraftTurn)
    ensures Runes([t.(text := ClipRunes(t.text, MaxRunes))]) <= MaxRunes
  {
    var kept := [t.(text := ClipRunes(t.text, MaxRunes))];
    assert kept[..0] == [];
  }

  /** What is small enough is kept whole. */
  lemma SmallIsKept(all: seq<DraftTurn>, kept: seq<DraftTurn>)
    requires Keeps(all, kept) && |all| <= 20 && Runes(all) <= 12000
    ensures kept == all
  {
    if all != [] {
      assert Suffix(all, |all|) == all;
      assert Fits(Suffix(all, |all|));
    }
  }

  /**
   The turns a draft is written from are `turns[lo..hi]`, oldest first; `truncated` says whether
   anything was dropped or clipped. The buffer is new, so clipping it leaves the caller's turns alone.
   */
  method KeptTurns(input: array<DraftTurn>) returns (turns: array<DraftTurn>, lo: nat, hi: nat, truncated: bool)
    ensures fresh(turns) && lo <= hi <= turns.Length && input[..] == old(input[..])
    ensures Keeps(NonBlank(input[..]), turns[lo..hi])
    ensures truncated <==> turns[lo..hi] != NonBlank(input[..])
  {
    turns := new DraftTurn[input.Length](_ => DraftTurn(false, ""));
    hi := 0;
    for i := 0 to input.Length
      invariant hi <= i && turns[..hi] == NonBlank(input[..i]) && input[..] == old(input[..])
    {
      assert input[..i + 1][..i] == input[..i];
      if TrimSpace(input[i].text) != "" {
        turns[hi] := input[i];
        hi := hi + 1;
      }
    }
    assert input[..input.Length] == input[..];
    lo, truncated := 0, false;
    if hi > 0 {
      lo, truncated := CutInPlace(turns, hi);
    }
  }

  lemma OneTurn(t: DraftTurn)
    ensures Runes([t]) == |t.text|
  {
    assert [t][..0] == [];
  }

  /** Drop the oldest until the rest fits or one is left, by moving the slice's start. */
  method DropOldest(turns: array<DraftTurn>, hi: nat) returns (lo: nat, runes: nat)
    requires 0 < hi <= turns.Length
    ensures lo < hi && hi - lo <= MaxTurns && runes == Runes(turns[lo..hi])
    ensures runes <= MaxRunes || hi - lo == 1
    ensures lo > 0 ==> !Fits(turns[lo - 1..hi])
  {
    lo := if hi > MaxTurns then hi - MaxTurns else 0;
    runes := TranscriptRunes(turns, lo, hi);
    while hi - lo > 1 && runes > MaxRunes
      invariant lo < hi && hi - lo <= MaxTurns && runes == Runes(turns[lo..hi])
      invariant lo > 0 ==> !Fits(turns[lo - 1..hi])
    {
      lo := lo + 1;
      runes := TranscriptRunes(turns, lo, hi);
    }
  }

  /** What is left fits, so it is the longest that does. */
  lemma DroppedIsLongest(all: seq<DraftTurn>, lo: nat)
    requires lo < |all| && |all| - lo <= MaxTurns && Runes(all[lo..]) <= MaxRunes && (lo > 0 ==> !Fits(all[lo - 1..]))
    ensures Keeps(all, all[lo..])
  {
    FittingLast(all, |all| - lo);
    LongestByStep(all, |all| - lo);
  }

  /** Or it is the last turn alone, too long, and clipped. */
  lemma ClippedIsKept(all: seq<DraftTurn>)
    requires all != [] && Runes([all[|all| - 1]]) > MaxRunes
    ensures Keeps(all, [all[|all| - 1].(text := ClipRunes(all[|all| - 1].text, MaxRunes))])
  {
    OneTurn(all[|all| - 1]);
  }

  /** The slice cut from the front, and its one turn clipped in place if it alone is too long. */
  method CutInPlace(turns: array<DraftTurn>, hi: nat) returns (lo: nat, truncated: bool)
    requires 0 < hi <= turns.Length
    modifies turns
    ensures lo < hi && Keeps(old(turns[..hi]), turns[lo..hi])
    ensures truncated <==> turns[lo..hi] != old(turns[..hi])
  {
    ghost var all := turns[..hi];
    var runes;
    lo, runes := DropOldest(turns, hi);
    truncated := lo > 0;
    assert turns[lo..hi] == all[lo..] && (lo > 0 ==> turns[lo - 1..hi] == all[lo - 1..]);
    if hi - lo == 1 && |turns[lo].text| > MaxRunes {
      OneTurn(turns[lo]);
      ClippedIsKept(all);
      turns[lo] := turns[lo].(text := ClipRunes(turns[lo].text, MaxRunes));
      truncated := true;
      assert turns[lo..hi] == [turns[lo]];
    } else {
      OneTurn(turns[lo]);
      assert hi - lo == 1 ==> turns[lo..hi] == [turns[lo]];
      DroppedIsLongest(all, lo);
    }
  }

  lemma FittingLast(all: seq<DraftTurn>, n: nat)
    requires 1 <= n <= |all| && n <= MaxTurns
    requires Runes(Suffix(all, n)) <= MaxRunes
    ensures |all[|all| - 1].text| <= MaxRunes && Fits(Suffix(all, n))
  {
    ShorterFits(all, 1, n);
    assert Suffix(all, 1) == [all[|all| - 1]];
    OneTurn(all[|all| - 1]);
  }
}
