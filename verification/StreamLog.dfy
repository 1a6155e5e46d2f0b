/** The per-thread event log, its numbering, and stretches of the published history. */
module StreamLog {

  /** One event on the stream: its position in the thread's numbering, and its payload. */
  datatype Entry = Entry(id: nat, payload: string)

  /** The events after position `i` up to position `j`; event `k` carries the number `k`, counted from one. */
  function Stretch(h: seq<string>, i: nat, j: nat): seq<Entry>
    requires i <= j <= |h|
  {
    seq(j - i, k requires 0 <= k < j - i => Entry(i + k + 1, h[i + k]))
  }

  /** `LTRIM key -cap -1`. */
  function Trim(log: seq<Entry>, cap: nat): seq<Entry> {
    if |log| <= cap then log else log[|log| - cap..]
  }

  lemma StretchSplit(h: seq<string>, i: nat, j: nat, k: nat)
    requires i <= j <= k <= |h|
    ensures Stretch(h, i, k) == Stretch(h, i, j) + Stretch(h, j, k)
    ensures Stretch(h, i, k)[j - i..] == Stretch(h, j, k)
  {
  }

  lemma StretchGrows(h: seq<string>, payload: string, i: nat, j: nat)
    requires i <= j <= |h|
    ensures Stretch(h + [payload], i, j) == Stretch(h, i, j)
    ensures Stretch(h + [payload], i, |h| + 1) == Stretch(h, i, |h|) + [Entry(|h| + 1, payload)]
  {
  }
}
