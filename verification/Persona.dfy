/** Simulated prospects: every address distinct, every reply flavour dealt in its share. */
module Persona {
  import opened Timeline

  // ---- rosters ---------------------------------------------------------------

  const FirstNames := [
    "Amara", "Priya", "Tomas", "Ingrid", "Kenji", "Rosa", "Dimitri", "Fatima",
    "Callum", "Yuki", "Adaeze", "Mateo", "Saoirse", "Rahul", "Elena", "Bjorn",
    "Nadia", "Hugo", "Leila", "Anders", "Mei", "Ibrahim", "Clara", "Santiago"]

  const LastNames := [
    "Okonkwo", "Lindqvist", "Moreau", "Haddad", "Nakamura", "Silva", "Petrov", "Rahman",
    "Doyle", "Tanaka", "Eze", "Vargas", "Byrne", "Iyer", "Novak", "Halvorsen",
    "Aziz", "Lefevre", "Karim", "Dahl", "Chen", "Farouk", "Weiss", "Duarte"]

  // ---- addresses -------------------------------------------------------------

  predicate IsDigit(c: char) {
    '0' <= c <= '9'
  }

  predicate IsUpper(c: char) {
    'A' <= c <= 'Z'
  }

  predicate IsLower(c: char) {
    'a' <= c <= 'z'
  }

  function LowerChar(c: char): char {
    if IsUpper(c) then c + 32 as char else c
  }

  function Lower(s: string): (r: string)
    ensures |r| == |s|
  {
    seq(|s|, k requires 0 <= k < |s| => LowerChar(s[k]))
  }

  /** Decimal digits, without leading zeros. */
  function Decimal(n: nat): string {
    (if n < 10 then "" else Decimal(n / 10)) + [(n % 10) as char + '0']
  }

  /** `personaEmail`: the cycle of the surname table is folded in from the second on. */
  function PersonaEmail(first: string, last: string, i: nat, domain: string, surnames: nat): string
    requires surnames > 0
  {
    var cycle := i / surnames;
    Lower(first + "." + last) + (if cycle > 0 then Decimal(cycle + 1) else "") + "@" + domain
  }

  /** Letters only, the first upper case and the others lower. */
  predicate IsName(s: string) {
    s != "" && IsUpper(s[0]) && forall k :: 1 <= k < |s| ==> IsLower(s[k])
  }

  /** What the tables must be for no address to repeat. */
  ghost predicate RosterOk(firsts: seq<string>, lasts: seq<string>) {
    && 0 < |firsts| == |lasts|
    && (forall k :: 0 <= k < |firsts| ==> IsName(firsts[k]) && IsName(lasts[k]))
    && (forall j, k :: 0 <= j < k < |firsts| ==> firsts[j] != firsts[k])
  }

  function EmailAt(firsts: seq<string>, lasts: seq<string>, domains: seq<string>, i: nat): string
    requires |firsts| > 0 && |lasts| > 0 && |domains| > 0
  {
    PersonaEmail(firsts[i % |firsts|], lasts[(i * 7 + i / |firsts|) % |lasts|], i, domains[i * 3 % |domains|], |lasts|)
  }

  lemma DecimalDigits(n: nat)
    ensures Decimal(n) != "" && forall k :: 0 <= k < |Decimal(n)| ==> IsDigit(Decimal(n)[k])
  {
  }

  lemma {:induction false} DecimalInjective(m: nat, n: nat)
    requires Decimal(m) == Decimal(n)
    ensures m == n
    decreases m + n
  {
    DecimalDigits(m / 10);
    DecimalDigits(n / 10);
    var s := Decimal(m);
    assert s[|s| - 1] == (m % 10) as char + '0' && s[|s| - 1] == (n % 10) as char + '0';
    assert m % 10 == n % 10;
    assert s[..|s| - 1] == (if m < 10 then "" else Decimal(m / 10));
    assert s[..|s| - 1] == (if n < 10 then "" else Decimal(n / 10));
    if m >= 10 && n >= 10 { DecimalInjective(m / 10, n / 10); }
  }

  /** Splitting at the first of a character that the fronts do not contain. */
  lemma SplitFirst(a: string, x: string, b: string, y: string, c: char)
    requires c !in a && c !in b && a + [c] + x == b + [c] + y
    ensures a == b && x == y
  {
    var s := a + [c] + x;
    var t := b + [c] + y;
    assert s[|a|] == c && t[|b|] == c;
    assert (forall k :: 0 <= k < |a| ==> s[k] == a[k]) && (forall k :: 0 <= k < |b| ==> t[k] == b[k]);
    assert a == s[..|a|] && b == t[..|b|] && x == s[|a| + 1..] && y == t[|b| + 1..];
  }

  predicate NoDigits(s: string) {
    forall k :: 0 <= k < |s| ==> !IsDigit(s[k])
  }

  predicate AllDigits(s: string) {
    forall k :: 0 <= k < |s| ==> IsDigit(s[k])
  }

  /** Splitting where the digits begin. */
  lemma SplitDigits(a: string, x: string, b: string, y: string)
    requires NoDigits(a) && NoDigits(b) && AllDigits(x) && AllDigits(y) && a + x == b + y
    ensures x == y
  {
    var s := a + x;
    assert |a| < |s| ==> s[|a|] == x[0] && IsDigit(s[|a|]);
    assert |b| < |s| ==> s[|b|] == y[0] && IsDigit(s[|b|]);
    assert (forall k :: 0 <= k < |a| ==> s[k] == a[k]) && (forall k :: 0 <= k < |b| ==> s[k] == b[k]);
    assert x == s[|a|..] && y == s[|b|..];
  }

  lemma LowerNames(s: string)
    requires IsName(s)
    ensures forall k :: 0 <= k < |s| ==> IsLower(Lower(s)[k])
    ensures '.' !in Lower(s) && '@' !in Lower(s) && NoDigits(Lower(s))
  {
  }

  /** Lower-casing keeps different names different. */
  lemma LowerInjective(a: string, b: string)
    requires IsName(a) && IsName(b) && Lower(a) == Lower(b)
    ensures a == b
  {
    forall k | 0 <= k < |a| ensures a[k] == b[k] {
      assert Lower(a)[k] == Lower(b)[k];
    }
  }

  lemma LowerConcat(a: string, b: string)
    ensures Lower(a + "." + b) == Lower(a) + "." + Lower(b)
  {
  }

  function Cycle(i: nat, n: nat): string
    requires n > 0
  {
    if i / n > 0 then Decimal(i / n + 1) else ""
  }

  lemma CycleDigits(i: nat, n: nat)
    requires n > 0
    ensures AllDigits(Cycle(i, n))
  {
    DecimalDigits(i / n + 1);
  }

  /** The three fields an address is made of can be read back from it. */
  lemma AddressSplits(f: string, l: string, i: nat, d: string, f': string, l': string, i': nat, d': string, n: nat)
    requires n > 0 && IsName(f) && IsName(f') && IsName(l) && IsName(l')
    requires PersonaEmail(f, l, i, d, n) == PersonaEmail(f', l', i', d', n)
    ensures f == f' && Cycle(i, n) == Cycle(i', n)
  {
    LowerConcat(f, l);
    LowerConcat(f', l');
    LowerNames(f);
    LowerNames(f');
    LowerNames(l);
    LowerNames(l');
    CycleDigits(i, n);
    CycleDigits(i', n);
    var rest, rest' := Lower(l) + Cycle(i, n), Lower(l') + Cycle(i', n);
    assert PersonaEmail(f, l, i, d, n) == Lower(f) + ['.'] + (rest + "@" + d);
    assert PersonaEmail(f', l', i', d', n) == Lower(f') + ['.'] + (rest' + "@" + d');
    SplitFirst(Lower(f), rest + "@" + d, Lower(f'), rest' + "@" + d', '.');
    LowerInjective(f, f');
    NoAt(Lower(l), Cycle(i, n));
    NoAt(Lower(l'), Cycle(i', n));
    SplitFirst(rest, d, rest', d', '@');
    SplitDigits(Lower(l), Cycle(i, n), Lower(l'), Cycle(i', n));
  }

  lemma NoAt(a: string, digits: string)
    requires '@' !in a && AllDigits(digits)
    ensures '@' !in a + digits
  {
  }

  lemma CycleInjective(i: nat, j: nat, n: nat)
    requires n > 0 && Cycle(i, n) == Cycle(j, n)
    ensures i / n == j / n
  {
    var a, b := i / n, j / n;
    DecimalDigits(a + 1);
    DecimalDigits(b + 1);
    if a > 0 && b > 0 { DecimalInjective(a + 1, b + 1); }
  }

  /** No two indices share an address, for any roster whose tables have one length and no digits. */
  lemma EmailsNeverCollide(firsts: seq<string>, lasts: seq<string>, domains: seq<string>, i: nat, j: nat)
    requires RosterOk(firsts, lasts) && |domains| > 0
    ensures EmailAt(firsts, lasts, domains, i) == EmailAt(firsts, lasts, domains, j) ==> i == j
  {
    if EmailAt(firsts, lasts, domains, i) == EmailAt(firsts, lasts, domains, j) {
      var n := |firsts|;
      AddressSplits(firsts[i % n], lasts[(i * 7 + i / n) % n], i, domains[i * 3 % |domains|],
                    firsts[j % n], lasts[(j * 7 + j / n) % n], j, domains[j * 3 % |domains|], n);
      CycleInjective(i, j, n);
      assert i % n == j % n;
      assert i == i / n * n + i % n && j == j / n * n + j % n;
    }
  }

  // ---- the roster of this program --------------------------------------------

  /** The companies' domains. */
  const Domains := [
    "northwindlogistics.com", "lumenanalytics.io", "fernhillhealth.com", "sablepoint.partners", "arcadiarobotics.dev",
    "kestrelpay.com", "bluewaterstudios.co", "ironvale.industries", "cedarline.shop", "halcyonenergy.co"]

  /** Enough of a name to tell those of the table apart. */
  function Key(s: string): (int, char, char, char) {
    if |s| < 3 then (|s|, ' ', ' ', ' ') else (|s|, s[0], s[1], s[2])
  }

  lemma FirstNamesDiffer(j: nat, k: nat)
    requires j < k < |FirstNames|
    ensures FirstNames[j] != FirstNames[k]
  {
    assert Key(FirstNames[j]) != Key(FirstNames[k]);
  }

  lemma FirstIsName(k: nat)
    requires k < |FirstNames|
    ensures IsName(FirstNames[k])
  {
  }

  lemma LastIsName(k: nat)
    requires k < |LastNames|
    ensures IsName(LastNames[k])
  {
  }

  lemma RosterIsOk()
    ensures RosterOk(FirstNames, LastNames)
  {
    forall k | 0 <= k < |FirstNames| ensures IsName(FirstNames[k]) && IsName(LastNames[k]) {
      FirstIsName(k);
      LastIsName(k);
    }
    forall j, k | 0 <= j < k < |FirstNames| ensures FirstNames[j] != FirstNames[k] { FirstNamesDiffer(j, k); }
  }

  // ---- behaviour -------------------------------------------------------------

  const OpenRate := 40
  const ClickRate := 12
  const ReplyRate := 8
  const BounceRate := 2

  datatype Flavor = Positive | Question | Negative | OutOfOffice | Unsubscribe

  datatype Conduct = Conduct(opens: bool, clicks: bool, replies: bool, bounces: bool, reply: Flavor)

  const Deal := [Positive, Question, Negative, Positive, OutOfOffice, Question, Unsubscribe, Positive, Negative, OutOfOffice]

  /** A share of the whole population, as a threshold among those who open. */
  function ScaleByOpenRate(target: nat): (r: nat)
    ensures r <= 100
    ensures target <= OpenRate ==> r * OpenRate <= target * 100 < (r + 1) * OpenRate
  {
    var scaled := target * 100 / OpenRate;
    if scaled > 100 then 100 else scaled
  }

  predicate RepliesAt(draw: Draw, j: nat) {
    && draw(j, "bounce") >= BounceRate
    && draw(j, "open") < OpenRate
    && draw(j, "reply") < ScaleByOpenRate(ReplyRate)
  }

  /** How many before i reply. */
  function Rank(draw: Draw, i: nat): nat {
    if i == 0 then 0 else Rank(draw, i - 1) + (if RepliesAt(draw, i - 1) then 1 else 0)
  }

  method ReplierRank(draw: Draw, i: nat) returns (rank: nat)
    ensures rank == Rank(draw, i)
  {
    rank := 0;
    for j := 0 to i
      invariant rank == Rank(draw, j)
    {
      if RepliesAt(draw, j) { rank := rank + 1; }
    }
  }

  /** The k-th replier's flavour: dealt, not drawn. */
  function Slot(k: nat): Flavor {
    Deal[k % |Deal|]
  }

  function FlavorAt(draw: Draw, i: nat): Flavor {
    Slot(Rank(draw, i))
  }

  /** `behaviorAt`: the gates are nested, and its replies are those the ranks count. */
  function BehaviorAt(draw: Draw, i: nat): (c: Conduct)
    ensures c.replies <==> RepliesAt(draw, i)
    ensures (c.clicks || c.replies ==> c.opens) && !(c.bounces && c.opens)
    ensures c.replies ==> c.reply == FlavorAt(draw, i)
  {
    if draw(i, "bounce") < BounceRate then Conduct(false, false, false, true, Positive)
    else if draw(i, "open") >= OpenRate then Conduct(false, false, false, false, Positive)
    else
      var replies := RepliesAt(draw, i);
      Conduct(true, draw(i, "click") < ScaleByOpenRate(ClickRate), replies, false, if replies then FlavorAt(draw, i) else Positive)
  }

  /**
   The shares the constants stand for: 2 of a hundred bounce; 40 of a hundred of the others open; of
   those who open, 30 of a hundred click and 20 of a hundred reply, which is 12 and 8 of a hundred.
   */
  lemma SharesAreMet(draw: Draw, i: nat)
    ensures var c := BehaviorAt(draw, i);
            && (c.bounces <==> draw(i, "bounce") < 2)
            && (c.opens <==> draw(i, "bounce") >= 2 && draw(i, "open") < 40)
            && (c.clicks <==> c.opens && draw(i, "click") < 30)
            && (c.replies <==> c.opens && draw(i, "reply") < 20)
    ensures OpenRate * 30 == ClickRate * 100 && OpenRate * 20 == ReplyRate * 100
  {
    assert ScaleByOpenRate(ClickRate) == 30 && ScaleByOpenRate(ReplyRate) == 20;
  }

  // ---- the deal --------------------------------------------------------------

  /** How often a flavour stands in the deal. */
  function Share(f: Flavor): nat {
    match f
    case Positive => 3
    case Question => 2
    case Negative => 2
    case OutOfOffice => 2
    case Unsubscribe => 1
  }

  /** How many of the repliers from the r-th up to the s-th are served f. */
  function Served(r: nat, s: nat, f: Flavor): nat
    decreases s
  {
    if s <= r then 0 else Served(r, s - 1, f) + (if Slot(s - 1) == f then 1 else 0)
  }

  /** How many of the prospects from a up to b reply with f. */
  function Dealt(draw: Draw, a: nat, b: nat, f: Flavor): nat
    decreases b
  {
    if b <= a then 0 else Dealt(draw, a, b - 1, f) + (if RepliesAt(draw, b - 1) && FlavorAt(draw, b - 1) == f then 1 else 0)
  }

  lemma {:induction false} RankGrows(draw: Draw, a: nat, b: nat)
    requires a <= b
    ensures Rank(draw, a) <= Rank(draw, b)
  {
    if a < b { RankGrows(draw, a, b - 1); }
  }

  /** The k-th replier is served the k-th slot: a stretch of prospects is dealt exactly the slots of its ranks. */
  lemma {:induction false} DealtIsServed(draw: Draw, a: nat, b: nat, f: Flavor)
    requires a <= b
    ensures Dealt(draw, a, b, f) == Served(Rank(draw, a), Rank(draw, b), f)
  {
    if a < b {
      DealtIsServed(draw, a, b - 1, f);
      RankGrows(draw, a, b - 1);
    }
  }

  lemma {:induction false} ServedSplit(r: nat, m: nat, s: nat, f: Flavor)
    requires r <= m <= s
    ensures Served(r, s, f) == Served(r, m, f) + Served(m, s, f)
    decreases s
  {
    if m < s { ServedSplit(r, m, s - 1, f); }
  }

  lemma ServedNext(k: nat, f: Flavor)
    ensures Served(0, k + 1, f) == Served(0, k, f) + if Slot(k) == f then 1 else 0
  {
  }

  lemma FirstSlots()
    ensures Slot(0) == Positive && Slot(1) == Question && Slot(2) == Negative && Slot(3) == Positive && Slot(4) == OutOfOffice
    ensures Slot(5) == Question && Slot(6) == Unsubscribe && Slot(7) == Positive && Slot(8) == Negative && Slot(9) == OutOfOffice
  {
  }

  lemma FirstHalf(f: Flavor)
    ensures Served(0, 5, f) == (if f == Positive then 2 else if f == Unsubscribe then 0 else 1)
  {
    FirstSlots();
    ServedNext(0, f);
    ServedNext(1, f);
    ServedNext(2, f);
    ServedNext(3, f);
    ServedNext(4, f);
  }

  lemma FirstRound(f: Flavor)
    ensures Served(0, 10, f) == Share(f)
  {
    FirstHalf(f);
    FirstSlots();
    ServedNext(5, f);
    ServedNext(6, f);
    ServedNext(7, f);
    ServedNext(8, f);
    ServedNext(9, f);
  }

  lemma SlotRepeats(k: nat)
    ensures Slot(k + 10) == Slot(k)
  {
  }

  lemma OneServed(k: nat, f: Flavor)
    ensures Served(k, k + 1, f) == if Slot(k) == f then 1 else 0
  {
    assert Served(k, k, f) == 0;
  }

  lemma NextRound(r: nat, f: Flavor)
    ensures Served(r + 1, r + 11, f) == Served(r, r + 10, f)
  {
    ServedSplit(r, r + 1, r + 10, f);
    ServedSplit(r + 1, r + 10, r + 11, f);
    OneServed(r, f);
    OneServed(r + 10, f);
    SlotRepeats(r);
  }

  lemma {:induction false} AnyRound(r: nat, f: Flavor)
    ensures Served(r, r + 10, f) == Share(f)
  {
    if r == 0 {
      FirstRound(f);
    } else {
      AnyRound(r - 1, f);
      NextRound(r - 1, f);
    }
  }

  /** Any stretch of prospects with exactly ten repliers is dealt every flavour, each in its share. */
  lemma DealtFairly(draw: Draw, a: nat, b: nat, f: Flavor)
    requires a <= b && Rank(draw, b) == Rank(draw, a) + 10
    ensures Dealt(draw, a, b, f) == Share(f) >= 1
  {
    DealtIsServed(draw, a, b, f);
    AnyRound(Rank(draw, a), f);
  }

  // ---- the population --------------------------------------------------------

  datatype Prospect = Prospect(firstName: string, lastName: string, email: string, domain: string, conduct: Conduct)

  function PersonaAt(draw: Draw, i: nat): Prospect {
    var first := FirstNames[i % |FirstNames|];
    var last := LastNames[(i * 7 + i / |FirstNames|) % |LastNames|];
    var domain := Domains[i * 3 % |Domains|];
    Prospect(first, last, PersonaEmail(first, last, i, domain, |LastNames|), domain, BehaviorAt(draw, i))
  }

  predicate Populated(draw: Draw, out: seq<Prospect>, n: nat) {
    |out| == n && forall i :: 0 <= i < n ==> out[i] == PersonaAt(draw, i)
  }

  lemma OneMore(draw: Draw, out: seq<Prospect>, n: nat, p: Prospect)
    requires Populated(draw, out, n) && p == PersonaAt(draw, n)
    ensures Populated(draw, out + [p], n + 1)
  {
  }

  method BuildPersonas(draw: Draw, n: int) returns (out: seq<Prospect>)
    ensures Populated(draw, out, if n <= 0 then 0 else n)
  {
    out := [];
    if n <= 0 { return; }
    for i := 0 to n
      invariant Populated(draw, out, i)
    {
      var p := PersonaAt(draw, i);
      OneMore(draw, out, i, p);
      out := out + [p];
    }
  }

  lemma EmailOf(draw: Draw, i: nat)
    ensures PersonaAt(draw, i).email == EmailAt(FirstNames, LastNames, Domains, i)
  {
  }

  lemma NoSharedEmail(i: nat, j: nat)
    ensures EmailAt(FirstNames, LastNames, Domains, i) == EmailAt(FirstNames, LastNames, Domains, j) ==> i == j
  {
    RosterIsOk();
    EmailsNeverCollide(FirstNames, LastNames, Domains, i, j);
  }

  /** No two prospects of any population share an address. */
  lemma AddressesAreUnique(draw: Draw, i: nat, j: nat)
    ensures PersonaAt(draw, i).email == PersonaAt(draw, j).email ==> i == j
  {
    EmailOf(draw, i);
    EmailOf(draw, j);
    NoSharedEmail(i, j);
  }
}
