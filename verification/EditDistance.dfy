/** The distance behind "did you mean": a two-row dynamic program, and what it computes. */
module EditDistance {
  import opened Wrappers

  // ---- what the distance means: the shortest script of single-byte edits ------

  datatype Edit = Insert(at: nat, c: char) | Delete(at: nat) | Substitute(at: nat, c: char)

  predicate Legal(s: string, e: Edit) {
    if e.Insert? then e.at <= |s| else e.at < |s|
  }

  function ApplyEdit(s: string, e: Edit): string
    requires Legal(s, e)
  {
    match e
    case Insert(at, c) => s[..at] + [c] + s[at..]
    case Delete(at) => s[..at] + s[at + 1..]
    case Substitute(at, c) => s[at := c]
  }

  /** The string a script makes of s, if every edit is legal where it is made. */
  function Edited(s: string, script: seq<Edit>): Option<string> {
    if script == [] then Some(s)
    else
      var before := Edited(s, script[..|script| - 1]);
      if before.Some? && Legal(before.value, script[|script| - 1])
      then Some(ApplyEdit(before.value, script[|script| - 1])) else None
  }

  function Min(a: int, b: int): int {
    if a < b then a else b
  }

  function Cost(x: char, y: char): nat {
    if x == y then 0 else 1
  }

  /** The recurrence the rows follow. */
  function Lev(a: string, b: string): nat
    decreases |a| + |b|
  {
    if a == "" then |b|
    else if b == "" then |a|
    else
      var a', b' := a[..|a| - 1], b[..|b| - 1];
      Min(Lev(a', b) + 1, Min(Lev(a, b') + 1, Lev(a', b') + Cost(a[|a| - 1], b[|b| - 1])))
  }

  // ---- it is reached ---------------------------------------------------------

  lemma EditedAppend(s: string, script: seq<Edit>, e: Edit)
    ensures Edited(s, script + [e]) ==
            (var t := Edited(s, script); if t.Some? && Legal(t.value, e) then Some(ApplyEdit(t.value, e)) else None)
  {
    assert (script + [e])[..|script|] == script;
  }

  lemma ApplyBefore(s: string, e: Edit, tail: string)
    requires Legal(s, e)
    ensures Legal(s + tail, e) && ApplyEdit(s + tail, e) == ApplyEdit(s, e) + tail
  {
    var at, all := e.at, s + tail;
    assert all[..at] == s[..at];
    match e
    case Insert(_, c) => assert all[at..] == s[at..] + tail;
    case Delete(_) => assert all[at + 1..] == s[at + 1..] + tail;
    case Substitute(_, c) => assert all[at := c] == s[at := c] + tail;
  }

  /** A script does not see what follows the string it edits. */
  lemma {:induction false} EditedBefore(s: string, script: seq<Edit>, tail: string)
    requires Edited(s, script).Some?
    ensures Edited(s + tail, script) == Some(Edited(s, script).value + tail)
  {
    if script != [] {
      var front, e := script[..|script| - 1], script[|script| - 1];
      EditedBefore(s, front, tail);
      ApplyBefore(Edited(s, front).value, e, tail);
    }
  }

  /** One more edit at the end of a script. */
  lemma OneMoreEdit(a: string, script: seq<Edit>, mid: string, e: Edit, b: string)
    requires Edited(a, script) == Some(mid) && Legal(mid, e) && ApplyEdit(mid, e) == b
    ensures Edited(a, script + [e]) == Some(b)
  {
    EditedAppend(a, script, e);
  }

  lemma {:induction false} Reached(a: string, b: string) returns (script: seq<Edit>)
    ensures Edited(a, script) == Some(b) && |script| == Lev(a, b)
    decreases |a| + |b|
  {
    if a == "" && b == "" {
      script := [];
    } else if a == "" || (b != "" && Lev(a, b) == Lev(a, b[..|b| - 1]) + 1) {
      var b', y := b[..|b| - 1], b[|b| - 1];
      var front := Reached(a, b');
      assert ApplyEdit(b', Insert(|b'|, y)) == b;
      OneMoreEdit(a, front, b', Insert(|b'|, y), b);
      script := front + [Insert(|b'|, y)];
    } else if b == "" || Lev(a, b) == Lev(a[..|a| - 1], b) + 1 {
      script := ReachedByDeleting(a, b);
    } else {
      script := ReachedInPlace(a, b);
    }
  }

  lemma {:induction false} ReachedByDeleting(a: string, b: string) returns (script: seq<Edit>)
    requires a != "" && Lev(a, b) == Lev(a[..|a| - 1], b) + 1
    ensures Edited(a, script) == Some(b) && |script| == Lev(a, b)
    decreases |a| + |b|, 0
  {
    var a', x := a[..|a| - 1], a[|a| - 1];
    assert a == a' + [x];
    var front := Reached(a', b);
    EditedBefore(a', front, [x]);
    assert ApplyEdit(b + [x], Delete(|b|)) == b;
    OneMoreEdit(a, front, b + [x], Delete(|b|), b);
    script := front + [Delete(|b|)];
  }

  /** The last byte of a is kept or substituted. */
  lemma {:induction false} ReachedInPlace(a: string, b: string) returns (script: seq<Edit>)
    requires a != "" && b != "" && Lev(a, b) == Lev(a[..|a| - 1], b[..|b| - 1]) + Cost(a[|a| - 1], b[|b| - 1])
    ensures Edited(a, script) == Some(b) && |script| == Lev(a, b)
    decreases |a| + |b|, 0
  {
    var a', x, b', y := a[..|a| - 1], a[|a| - 1], b[..|b| - 1], b[|b| - 1];
    assert a == a' + [x] && b == b' + [y];
    var front := Reached(a', b');
    EditedBefore(a', front, [x]);
    if x == y {
      script := front;
    } else {
      assert ApplyEdit(b' + [x], Substitute(|b'|, y)) == b;
      OneMoreEdit(a, front, b' + [x], Substitute(|b'|, y), b);
      script := front + [Substitute(|b'|, y)];
    }
  }

  // ---- it is a metric --------------------------------------------------------

  lemma {:induction false} LevBounds(a: string, b: string)
    ensures |a| - |b| <= Lev(a, b) && |b| - |a| <= Lev(a, b)
    ensures Lev(a, b) <= if |a| < |b| then |b| else |a|
    decreases |a| + |b|
  {
    if a != "" && b != "" {
      LevBounds(a[..|a| - 1], b);
      LevBounds(a, b[..|b| - 1]);
      LevBounds(a[..|a| - 1], b[..|b| - 1]);
    }
  }

  lemma {:induction false} LevSymmetric(a: string, b: string)
    ensures Lev(a, b) == Lev(b, a)
    decreases |a| + |b|
  {
    if a != "" && b != "" {
      LevSymmetric(a[..|a| - 1], b);
      LevSymmetric(a, b[..|b| - 1]);
      LevSymmetric(a[..|a| - 1], b[..|b| - 1]);
    }
  }

  lemma {:induction false} LevZero(a: string, b: string)
    ensures Lev(a, b) == 0 <==> a == b
    decreases |a| + |b|
  {
    if a != "" && b != "" {
      var a', x, b', y := a[..|a| - 1], a[|a| - 1], b[..|b| - 1], b[|b| - 1];
      assert a == a' + [x] && b == b' + [y];
      LevZero(a', b');
    }
  }

  /** Dropping a last byte changes a distance by one at most. */
  lemma LevStep(a: string, b: string)
    requires a != "" && b != ""
    ensures Lev(a, b) <= Lev(a[..|a| - 1], b) + 1
    ensures Lev(a, b) <= Lev(a, b[..|b| - 1]) + 1
    ensures Lev(a, b) <= Lev(a[..|a| - 1], b[..|b| - 1]) + Cost(a[|a| - 1], b[|b| - 1])
  {
  }

  lemma {:induction false} Triangle(a: string, b: string, c: string)
    ensures Lev(a, c) <= Lev(a, b) + Lev(b, c)
    decreases |a| + |b| + |c|
  {
    if a == "" || b == "" || c == "" {
      LevBounds(a, c);
      LevBounds(a, b);
      LevBounds(b, c);
    } else {
      var a', b', c' := a[..|a| - 1], b[..|b| - 1], c[..|c| - 1];
      LevStep(a, c);
      if Lev(a, b) == Lev(a', b) + 1 {
        Triangle(a', b, c);
      } else if Lev(b, c) == Lev(b, c') + 1 {
        Triangle(a, b, c');
      } else if Lev(a, b) == Lev(a, b') + 1 {
        if Lev(b, c) == Lev(b', c) + 1 { Triangle(a, b', c); } else { Triangle(a, b', c'); }
      } else if Lev(b, c) == Lev(b', c) + 1 {
        Triangle(a', b', c);
      } else {
        Triangle(a', b', c');
      }
    }
  }

  // ---- nothing shorter reaches it --------------------------------------------

  lemma LevSnoc(a: string, b: string, x: char, y: char)
    ensures Lev(a + [x], b + [y]) <= Lev(a, b) + Cost(x, y)
  {
    assert (a + [x])[..|a|] == a && (b + [y])[..|b|] == b;
    LevStep(a + [x], b + [y]);
  }

  lemma {:induction false} LevTail(a: string, b: string, tail: string)
    ensures Lev(a + tail, b + tail) <= Lev(a, b)
    decreases |tail|
  {
    if tail == "" {
      assert a + tail == a && b + tail == b;
    } else {
      var rest, last := tail[..|tail| - 1], tail[|tail| - 1];
      LevTail(a, b, rest);
      LevSnoc(a + rest, b + rest, last, last);
      Regroup(a, rest, last);
      Regroup(b, rest, last);
      assert tail == rest + [last];
    }
  }

  lemma Regroup(a: string, rest: string, last: char)
    ensures a + (rest + [last]) == (a + rest) + [last]
  {
  }

  lemma {:induction false} LevEqual(a: string)
    ensures Lev(a, a) == 0
  {
    LevZero(a, a);
  }

  lemma LevOneMore(a: string, c: char)
    ensures Lev(a, a + [c]) <= 1 && Lev(a + [c], a) <= 1
  {
    LevEqual(a);
    assert (a + [c])[..|a|] == a;
    LevSymmetric(a, a + [c]);
    if a != "" { LevStep(a, a + [c]); }
  }

  lemma LevOther(a: string, x: char, y: char)
    ensures Lev(a + [x], a + [y]) <= 1
  {
    LevEqual(a);
    assert (a + [x])[..|a|] == a && (a + [y])[..|a|] == a;
    LevStep(a + [x], a + [y]);
  }

  /** One edit is at distance one at most. */
  lemma OneEdit(s: string, e: Edit)
    requires Legal(s, e)
    ensures Lev(s, ApplyEdit(s, e)) <= 1
  {
    match e {
      case Insert(at, c) =>
        OneInsert(s[..at], c, s[at..]);
        assert s == s[..at] + s[at..];
      case Delete(at) =>
        Around(s, at);
        OneInsert(s[..at], s[at], s[at + 1..]);
      case Substitute(at, c) =>
        Around(s, at);
        Around(s[at := c], at);
        OneSubstitute(s[..at], s[at], c, s[at + 1..]);
    }
  }

  lemma Around(s: string, at: nat)
    requires at < |s|
    ensures s == s[..at] + [s[at]] + s[at + 1..]
  {
  }

  lemma OneInsert(front: string, c: char, tail: string)
    ensures Lev(front + tail, front + [c] + tail) <= 1 && Lev(front + [c] + tail, front + tail) <= 1
  {
    LevOneMore(front, c);
    LevTail(front, front + [c], tail);
    LevTail(front + [c], front, tail);
  }

  lemma OneSubstitute(front: string, x: char, y: char, tail: string)
    ensures Lev(front + [x] + tail, front + [y] + tail) <= 1
  {
    LevOther(front, x, y);
    LevTail(front + [x], front + [y], tail);
  }

  lemma {:induction false} NothingShorter(a: string, script: seq<Edit>)
    requires Edited(a, script).Some?
    ensures Lev(a, Edited(a, script).value) <= |script|
  {
    if script == [] {
      LevEqual(a);
    } else {
      var front, e := script[..|script| - 1], script[|script| - 1];
      NothingShorter(a, front);
      var t := Edited(a, front).value;
      OneEdit(t, e);
      Triangle(a, t, ApplyEdit(t, e));
    }
  }

  /** The recurrence is the least number of single-byte edits: some script has that length, and none is shorter. */
  lemma LevIsOptimal(a: string, b: string)
    ensures exists script :: Edited(a, script) == Some(b) && |script| == Lev(a, b)
    ensures forall script :: Edited(a, script) == Some(b) ==> Lev(a, b) <= |script|
  {
    var script := Reached(a, b);
    forall script | Edited(a, script) == Some(b) ensures Lev(a, b) <= |script| {
      NothingShorter(a, script);
    }
  }

  // ---- the two rows ----------------------------------------------------------

  /** The recurrence over positions: the distance between the first i bytes of a and the first j of b. */
  ghost function Table(a: string, b: string, i: nat, j: nat): nat
    requires i <= |a| && j <= |b|
    decreases i + j
  {
    if i == 0 then j
    else if j == 0 then i
    else Min(Table(a, b, i - 1, j) + 1, Min(Table(a, b, i, j - 1) + 1, Table(a, b, i - 1, j - 1) + Cost(a[i - 1], b[j - 1])))
  }

  lemma Cell(a: string, b: string, i: nat, j: nat)
    requires 0 < i <= |a| && 0 < j <= |b|
    ensures Lev(a[..i], b[..j]) ==
            Min(Lev(a[..i - 1], b[..j]) + 1, Min(Lev(a[..i], b[..j - 1]) + 1, Lev(a[..i - 1], b[..j - 1]) + Cost(a[i - 1], b[j - 1])))
  {
    assert a[..i][..i - 1] == a[..i - 1] && b[..j][..j - 1] == b[..j - 1];
  }

  lemma Edge(a: string, b: string)
    requires a == "" || b == ""
    ensures Lev(a, b) == |a| + |b|
  {
  }

  /** The recurrence at one cell, given its three neighbours. */
  lemma TableCell(a: string, b: string, i: nat, j: nat, up: nat, left: nat, diagonal: nat)
    requires 0 < i <= |a| && 0 < j <= |b|
    requires Table(a, b, i - 1, j) == up && Table(a, b, i, j - 1) == left && Table(a, b, i - 1, j - 1) == diagonal
    ensures Table(a, b, i, j) == Min(up + 1, Min(left + 1, diagonal + Cost(a[i - 1], b[j - 1])))
  {
  }

  lemma LevCell(a: string, b: string, i: nat, j: nat, up: nat, left: nat, diagonal: nat)
    requires 0 < i <= |a| && 0 < j <= |b|
    requires Lev(a[..i - 1], b[..j]) == up && Lev(a[..i], b[..j - 1]) == left && Lev(a[..i - 1], b[..j - 1]) == diagonal
    ensures Lev(a[..i], b[..j]) == Min(up + 1, Min(left + 1, diagonal + Cost(a[i - 1], b[j - 1])))
  {
    Cell(a, b, i, j);
  }

  lemma CellIsLev(a: string, b: string, i: nat, j: nat)
    requires 0 < i <= |a| && 0 < j <= |b|
    requires Table(a, b, i - 1, j) == Lev(a[..i - 1], b[..j]) && Table(a, b, i, j - 1) == Lev(a[..i], b[..j - 1])
    requires Table(a, b, i - 1, j - 1) == Lev(a[..i - 1], b[..j - 1])
    ensures Table(a, b, i, j) == Lev(a[..i], b[..j])
  {
    TableCell(a, b, i, j, Table(a, b, i - 1, j), Table(a, b, i, j - 1), Table(a, b, i - 1, j - 1));
    LevCell(a, b, i, j, Table(a, b, i - 1, j), Table(a, b, i, j - 1), Table(a, b, i - 1, j - 1));
  }

  lemma {:induction false} TableIsLev(a: string, b: string, i: nat, j: nat)
    requires i <= |a| && j <= |b|
    ensures Table(a, b, i, j) == Lev(a[..i], b[..j])
    decreases i + j
  {
    if i > 0 && j > 0 {
      TableIsLev(a, b, i - 1, j);
      TableIsLev(a, b, i, j - 1);
      TableIsLev(a, b, i - 1, j - 1);
      CellIsLev(a, b, i, j);
    } else {
      Edge(a[..i], b[..j]);
    }
  }

  ghost predicate Row(row: seq<nat>, a: string, b: string, i: nat, n: nat)
    requires i <= |a| && n <= |row| == |b| + 1
  {
    forall j :: 0 <= j < n ==> row[j] == Table(a, b, i, j)
  }

  /** One more byte of a: the next row from the one before. */
  method NextRow(a: string, b: string, i: nat, prev: array<nat>, cur: array<nat>)
    requires 0 < i <= |a| && prev != cur && prev.Length == cur.Length == |b| + 1
    requires Row(prev[..], a, b, i - 1, |b| + 1)
    modifies cur
    ensures Row(cur[..], a, b, i, |b| + 1)
  {
    cur[0] := i;
    for j := 1 to |b| + 1
      invariant prev[..] == old(prev[..])
      invariant Row(cur[..], a, b, i, j)
    {
      var cost := if a[i - 1] == b[j - 1] then 0 else 1;
      assert prev[..][j] == Table(a, b, i - 1, j) && prev[..][j - 1] == Table(a, b, i - 1, j - 1);
      assert cur[..][j - 1] == Table(a, b, i, j - 1);
      cur[j] := Min(prev[j] + 1, Min(cur[j - 1] + 1, prev[j - 1] + cost));
    }
  }

  /** `editDistance`: two rows, swapped after each byte of a. */
  method Distance(a: string, b: string) returns (d: nat)
    ensures d == Lev(a, b)
  {
    var prev := new nat[|b| + 1](j => j);
    var cur := new nat[|b| + 1](_ => 0);
    var i := 1;
    while i <= |a|
      invariant 1 <= i <= |a| + 1 && prev != cur && fresh(prev) && fresh(cur)
      invariant prev.Length == cur.Length == |b| + 1
      invariant Row(prev[..], a, b, i - 1, |b| + 1)
    {
      NextRow(a, b, i, prev, cur);
      prev, cur := cur, prev;
      i := i + 1;
    }
    TableIsLev(a, b, |a|, |b|);
    assert a[..|a|] == a && b[..|b|] == b;
    assert prev[..][|b|] == Table(a, b, |a|, |b|);
    d := prev[|b|];
  }

  /** The distance computed is a metric on all byte strings. */
  lemma DistanceIsAMetric(a: string, b: string, c: string)
    ensures Lev(a, b) == 0 <==> a == b
    ensures Lev(a, b) == Lev(b, a)
    ensures Lev(a, c) <= Lev(a, b) + Lev(b, c)
    ensures (if |a| < |b| then |b| - |a| else |a| - |b|) <= Lev(a, b) <= (if |a| < |b| then |b| else |a|)
  {
    LevZero(a, b);
    LevSymmetric(a, b);
    Triangle(a, b, c);
    LevBounds(a, b);
  }

  // ---- the suggestion --------------------------------------------------------

  /** Byte order on names. */
  predicate Less(a: string, b: string) {
    b != "" && (a == "" || a[0] < b[0] || (a[0] == b[0] && Less(a[1..], b[1..])))
  }

  /** The registry's order: sorted, no duplicates. */
  predicate Sorted(names: seq<string>) {
    forall i, j :: 0 <= i < j < |names| ==> Less(names[i], names[j])
  }

  /** The first of the names nearest to `want`; an empty name is never suggested. */
  ghost predicate FirstClosest(want: string, names: seq<string>, k: nat) {
    && k < |names| && names[k] != ""
    && forall j :: 0 <= j < |names| && names[j] != "" ==>
         Lev(want, names[k]) <= Lev(want, names[j]) && (j < k ==> Lev(want, names[k]) < Lev(want, names[j]))
  }

  /** At most one name can be empty, and then it comes first. */
  lemma SortedNames(names: seq<string>, k: nat)
    requires Sorted(names) && 0 < k < |names|
    ensures names[k] != ""
  {
    assert Less(names[0], names[k]);
  }

  ghost predicate BestSoFar(want: string, names: seq<string>, i: nat, best: string, bestDist: nat)
    requires i <= |names|
  {
    if best == "" then forall j :: 0 <= j < i ==> names[j] == ""
    else exists k: nat :: FirstClosest(want, names[..i], k) && best == names[k] && bestDist == Lev(want, best)
  }

  lemma BestNext(want: string, names: seq<string>, i: nat, best: string, bestDist: nat)
    requires i < |names| && Sorted(names) && BestSoFar(want, names, i, best, bestDist)
    ensures var d := Lev(want, names[i]);
            if best == "" || d < bestDist then BestSoFar(want, names, i + 1, names[i], d)
            else BestSoFar(want, names, i + 1, best, bestDist)
  {
    var front, more := names[..i], names[..i + 1];
    assert more == front + [names[i]];
    if i > 0 { SortedNames(names, i); }
    if best == "" || Lev(want, names[i]) < bestDist {
      if names[i] != "" {
        if best != "" {
          var k: nat :| FirstClosest(want, front, k) && best == names[k] && bestDist == Lev(want, best);
          assert front[k] == names[k];
        }
        assert FirstClosest(want, more, i);
      }
    } else {
      var k: nat :| FirstClosest(want, front, k) && best == names[k] && bestDist == Lev(want, best);
      assert FirstClosest(want, more, k);
    }
  }

  /** `suggestion`, over the registry's names in their order; the clause around the name is left to the caller. */
  method Suggestion(want: string, names: seq<string>) returns (name: Option<string>)
    requires Sorted(names)
    ensures name.Some? ==> exists k: nat :: FirstClosest(want, names, k) && name.value == names[k] && Lev(want, names[k]) <= 1 + |names[k]| / 3
    ensures name.None? ==> forall k: nat :: FirstClosest(want, names, k) ==> Lev(want, names[k]) > 1 + |names[k]| / 3
  {
    var best := "";
    var bestDist: nat := 0;
    for i := 0 to |names|
      invariant BestSoFar(want, names, i, best, bestDist)
    {
      var d := Distance(want, names[i]);
      BestNext(want, names, i, best, bestDist);
      if best == "" || d < bestDist { best, bestDist := names[i], d; }
    }
    assert names[..|names|] == names;
    if best == "" || bestDist > 1 + |best| / 3 { name := None; } else { name := Some(best); }
  }
}
