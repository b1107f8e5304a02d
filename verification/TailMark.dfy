/** The marked tail window of `keepTailMarked`: a text that outgrows its budget
    keeps its newest part behind a marker that states how much was dropped, and
    the marker is paid for out of the same budget. */
module TailMark {
  import opened Texts

  /** The marker text before its count (U+2026 U+FF08 U+524D space). */
  const MARK_HEAD: Text := [0x2026, 0xFF08, 0x524D, 0x20]

  /** The marker text after its count, newline included. */
  const MARK_TAIL: Text := [0x20, 0x5B57, 0x7B26, 0x5DF2, 0x7701, 0x7565, 0xFF09, 0x0A]

  /** Marker length without the digits of the count. */
  const MARK_FIXED := 12

  function Marker(count: nat): (s: Text)
    ensures |s| == MARK_FIXED + Digits(count)
  {
    MARK_HEAD + Decimal(count) + MARK_TAIL
  }

  /** A marker found at the head of a text: its count and its length. */
  datatype Mark = Mark(count: nat, length: nat)

  /** Where the run of digits that starts at `i` ends. */
  function DigitsEnd(s: Text, i: nat): (j: nat)
    requires i <= |s|
    ensures i <= j <= |s|
    ensures forall k | i <= k < j :: IsDigit(s[k])
    ensures j < |s| ==> !IsDigit(s[j])
    decreases |s| - i
  {
    if i < |s| && IsDigit(s[i]) then DigitsEnd(s, i + 1) else i
  }

  predicate HasHead(s: Text) {
    && |MARK_HEAD| <= |s|
    && s[0] == MARK_HEAD[0] && s[1] == MARK_HEAD[1] && s[2] == MARK_HEAD[2] && s[3] == MARK_HEAD[3]
  }

  predicate HasTailAt(s: Text, j: nat) {
    && j + |MARK_TAIL| <= |s|
    && s[j] == MARK_TAIL[0] && s[j + 1] == MARK_TAIL[1] && s[j + 2] == MARK_TAIL[2]
    && s[j + 3] == MARK_TAIL[3] && s[j + 4] == MARK_TAIL[4] && s[j + 5] == MARK_TAIL[5]
    && s[j + 6] == MARK_TAIL[6] && s[j + 7] == MARK_TAIL[7]
  }

  /** The match of the marker pattern at the head of `s`, if there is one. */
  function HeadMark(s: Text): (m: Option<Mark>)
    ensures m.Some? ==> MARK_FIXED < m.value.length <= |s|
  {
    if HasHead(s) then
      var j := DigitsEnd(s, |MARK_HEAD|);
      if j > |MARK_HEAD| && HasTailAt(s, j)
      then Some(Mark(ParseDecimal(s[|MARK_HEAD|..j]), j + |MARK_TAIL|))
      else None
    else None
  }

  /** Units already dropped according to the text's own marker. */
  function Prior(s: Text): nat {
    if HeadMark(s).Some? then HeadMark(s).value.count else 0
  }

  /** The text without its marker. */
  function Body(s: Text): Text {
    if HeadMark(s).Some? then s[HeadMark(s).value.length..] else s
  }

  /** Units ever received: those dropped and those still there. */
  function Total(s: Text): nat {
    Prior(s) + |Body(s)|
  }

  /** Dropping `n` units leaves room for the marker that says so. */
  predicate Enough(n: nat, k: int) {
    n >= k + Digits(n)
  }

  lemma EnoughFrom(n: nat, k: int)
    requires n >= 2 && n >= 2 * k
    ensures Enough(n, k)
  {
    DigitsAtMostHalf(n);
  }

  /** The least count at or above `from` that is enough, by plain search. */
  function LeastDrop(from: nat, k: int): (n: nat)
    ensures n >= from
    decreases Max(0, Max(2, 2 * k) - from)
  {
    if Enough(from, k) then from
    else
      assert from < Max(2, 2 * k) by {
        if from >= Max(2, 2 * k) {
          EnoughFrom(from, k);
        }
      }
      LeastDrop(from + 1, k)
  }

  lemma {:induction false} LeastDropIsLeast(from: nat, k: int)
    ensures Enough(LeastDrop(from, k), k)
    ensures forall i | from <= i < LeastDrop(from, k) :: !Enough(i, k)
    decreases LeastDrop(from, k) - from
  {
    if !Enough(from, k) {
      LeastDropIsLeast(from + 1, k);
    }
  }

  /** Never truncated so far and within the budget. */
  predicate Fits(s: Text, maxChars: nat) {
    Prior(s) == 0 && |Body(s)| <= maxChars
  }

  /** `slice(k)`: an index past the end gives the empty text. */
  function Drop(s: Text, k: nat): Text {
    if k <= |s| then s[k..] else []
  }

  /** The count written for `prior` units already dropped and `length` kept: the
      least that pays for its own marker. */
  function DropCount(prior: nat, length: nat, maxChars: nat): (n: nat)
    ensures n >= prior
  {
    LeastDrop(prior, prior + length - maxChars + MARK_FIXED)
  }

  /** The marker with its exact count, then the newest part of the body. */
  function Cut(prior: nat, body: Text, maxChars: nat): Text {
    var n := DropCount(prior, |body|, maxChars);
    Marker(n) + Drop(body, n - prior)
  }

  /** The marked window, defined by the least sufficient drop count. */
  function Window(s: Text, maxChars: nat): Text {
    if Fits(s, maxChars) then s else Cut(Prior(s), Body(s), maxChars)
  }

  /** The source's loop jumps straight from one candidate count to the next; it
      stops at the least sufficient one. */
  method KeepTailMarked(value: Text, maxChars: nat) returns (r: Text)
    ensures r == Window(value, maxChars)
  {
    hide HeadMark, Decimal, Marker, LeastDrop, Drop, Total;
    var priorDropped := Prior(value);
    var body := Body(value);
    if priorDropped == 0 && |body| <= maxChars {
      return value;
    }
    var k := priorDropped + |body| - maxChars + MARK_FIXED;
    ghost var least := LeastDrop(priorDropped, k);
    LeastDropIsLeast(priorDropped, k);
    var totalDropped: nat := Max(priorDropped, k);
    while true
      invariant priorDropped <= totalDropped <= least
      invariant totalDropped <= Max(priorDropped, k + Digits(totalDropped))
      decreases least - totalDropped
    {
      DigitsMonotone(totalDropped, least);
      var next: nat := Max(priorDropped, k + Digits(totalDropped));
      if next == totalDropped {
        break;
      }
      DigitsMonotone(totalDropped, next);
      totalDropped := next;
    }
    assert Enough(totalDropped, k);
    assert totalDropped == DropCount(priorDropped, |body|, maxChars);
    var newlyDropped := totalDropped - priorDropped;
    r := Marker(totalDropped) + Drop(body, newlyDropped);
  }

  // ---- the marker prints and parses back exactly ----

  /** A run of digits ends where the first other unit stands. */
  lemma {:induction false} DigitsEndAt(s: Text, i: nat, j: nat)
    requires i <= j < |s|
    requires forall k | i <= k < j :: IsDigit(s[k])
    requires !IsDigit(s[j])
    ensures DigitsEnd(s, i) == j
    decreases j - i
  {
    if i < j {
      DigitsEndAt(s, i + 1, j);
    }
  }

  lemma MarkerParsesBack(count: nat, rest: Text)
    ensures HeadMark(Marker(count) + rest) == Some(Mark(count, |Marker(count)|))
    ensures Prior(Marker(count) + rest) == count && Body(Marker(count) + rest) == rest
  {
    hide Decimal;
    var s := Marker(count) + rest;
    var j := |MARK_HEAD| + Digits(count);
    assert s[|MARK_HEAD|..j] == Decimal(count);
    forall k | |MARK_HEAD| <= k < j
      ensures IsDigit(s[k])
    {
      assert s[k] == Decimal(count)[k - |MARK_HEAD|];
    }
    assert s[j] == MARK_TAIL[0];
    DigitsEndAt(s, |MARK_HEAD|, j);
    ParsePrint(count);
  }

  /** Appending never changes a marker that is already complete. */
  lemma HeadMarkOfAppend(a: Text, b: Text)
    requires HeadMark(a).Some?
    ensures HeadMark(a + b) == HeadMark(a)
    ensures Body(a + b) == Body(a) + b
  {
    hide ParseDecimal;
    var j := DigitsEnd(a, |MARK_HEAD|);
    DigitsEndAt(a + b, |MARK_HEAD|, j);
    assert (a + b)[|MARK_HEAD|..j] == a[|MARK_HEAD|..j];
  }

  // ---- the fixpoint ----

  /** A larger overrun never needs a smaller count. */
  lemma LeastDropMonotone(from: nat, from': nat, k: int, k': int)
    requires from <= from' && k <= k'
    ensures LeastDrop(from, k) <= LeastDrop(from', k')
  {
    LeastDropIsLeast(from, k);
    LeastDropIsLeast(from', k');
    assert Enough(LeastDrop(from', k'), k);
  }

  /** Searching from any point at or below the answer finds the same answer. */
  lemma LeastDropFrom(from: nat, from': nat, k: int)
    requires from <= from' <= LeastDrop(from, k)
    ensures LeastDrop(from', k) == LeastDrop(from, k)
  {
    LeastDropIsLeast(from, k);
    LeastDropIsLeast(from', k);
  }

  /** The window has room for a marker that counts everything received. */
  predicate Room(total: nat, maxChars: nat) {
    MARK_FIXED + Digits(total) <= maxChars
  }

  lemma {:induction false} EnoughUpward(n: nat, n': nat, k: int)
    requires n <= n' && Enough(n, k)
    ensures Enough(n', k)
    decreases n' - n
  {
    if n < n' {
      DigitsSuccessor(n);
      EnoughUpward(n + 1, n', k);
    }
  }

  /** The count stays within what was received exactly when the window has room
      for the marker of the whole text. */
  lemma CountWithinTotal(prior: nat, length: nat, maxChars: nat)
    ensures DropCount(prior, length, maxChars) <= prior + length <==> Room(prior + length, maxChars)
  {
    var n := DropCount(prior, length, maxChars);
    LeastDropIsLeast(prior, prior + length - maxChars + MARK_FIXED);
    assert Enough(prior + length, prior + length - maxChars + MARK_FIXED) <==> Room(prior + length, maxChars);
    if n <= prior + length {
      EnoughUpward(n, prior + length, prior + length - maxChars + MARK_FIXED);
    }
  }

  /** What the window reads back as once it has been truncated. */
  lemma CutReadsBack(prior: nat, body: Text, maxChars: nat)
    ensures var n := DropCount(prior, |body|, maxChars);
            && Prior(Cut(prior, body, maxChars)) == n
            && Body(Cut(prior, body, maxChars)) == Drop(body, n - prior)
  {
    hide HeadMark, Decimal;
    var n := DropCount(prior, |body|, maxChars);
    MarkerParsesBack(n, Drop(body, n - prior));
  }

  /** What a truncation leaves: an exact count that never goes down, the newest
      units in order, the budget kept, and nothing dropped needlessly. */
  lemma TruncationIsExact(s: Text, maxChars: nat)
    requires !Fits(s, maxChars) && Room(Total(s), maxChars)
    ensures var w := Window(s, maxChars);
            && |w| <= maxChars
            && Prior(w) >= Prior(s)
            && Total(w) == Total(s)
            && |Body(w)| <= |Body(s)|
            && Body(w) == Body(s)[|Body(s)| - |Body(w)|..]
            && forall n | Prior(s) <= n < Prior(w) :: |Marker(n)| + (Total(s) - n) > maxChars
  {
    hide HeadMark, Decimal;
    CountWithinTotal(Prior(s), |Body(s)|, maxChars);
    CutReadsBack(Prior(s), Body(s), maxChars);
    LeastDropIsLeast(Prior(s), Total(s) - maxChars + MARK_FIXED);
    forall n | Prior(s) <= n < DropCount(Prior(s), |Body(s)|, maxChars)
      ensures |Marker(n)| + (Total(s) - n) > maxChars
    {
      assert !Enough(n, Total(s) - maxChars + MARK_FIXED);
    }
  }

  /** The result is within the window exactly when a text that is returned as it is was
      so itself, or a text that is cut leaves room for the marker of its true length. */
  lemma WindowFitsIff(s: Text, maxChars: nat)
    ensures |Window(s, maxChars)| <= maxChars <==>
            if Fits(s, maxChars) then |s| <= maxChars else Room(Total(s), maxChars)
  {
    if !Fits(s, maxChars) {
      if Room(Total(s), maxChars) {
        TruncationIsExact(s, maxChars);
      } else {
        CountWithinTotal(Prior(s), |Body(s)|, maxChars);
        DigitsMonotone(Total(s), DropCount(Prior(s), |Body(s)|, maxChars));
      }
    }
  }

  /** A text whose own marker defeats the budget: it reads zero, so it is taken as
      never truncated, or its digits leave no room. */
  predicate Overlong(s: Text, maxChars: nat) {
    && HeadMark(s).Some?
    && (Prior(s) == 0 || !Room(Prior(s), maxChars))
  }

  /** What is stored is in the window, these two kinds of marker aside. */
  lemma WindowKept(s: Text, maxChars: nat)
    ensures |Window(s, maxChars)| <= maxChars || Overlong(Window(s, maxChars), maxChars)
  {
    WindowFitsIff(s, maxChars);
    if !Fits(s, maxChars) && !Room(Total(s), maxChars) {
      var n := DropCount(Prior(s), |Body(s)|, maxChars);
      CountWithinTotal(Prior(s), |Body(s)|, maxChars);
      MarkerParsesBack(n, Drop(Body(s), n - Prior(s)));
      DigitsMonotone(Total(s), n);
    }
  }

  /** A zero marker is not charged: any body that would fill the window comes back
      with the marker on top. */
  lemma ZeroMarkerIsNotCharged(body: Text)
    ensures |Window(Marker(0) + body, |body|)| > |body|
  {
    var s := Marker(0) + body;
    MarkerParsesBack(0, body);
    assert Fits(s, |body|) && |s| > |body|;
    WindowFitsIff(s, |body|);
  }

  /** Windowing a windowed text changes nothing, exactly when the text fits or its true
      length leaves room for the marker. */
  lemma WindowIdempotent(s: Text, maxChars: nat)
    ensures Window(Window(s, maxChars), maxChars) == Window(s, maxChars)
            <==> Fits(s, maxChars) || Room(Total(s), maxChars)
  {
    assert s + [] == s;
    assert Window(s, maxChars) + [] == Window(s, maxChars);
    ChunkInvariance(s, [], maxChars);
  }

  // ---- streaming ----

  lemma AppendSplits(a: Text, b: Text)
    requires HeadMark(a + b).Some? ==> HeadMark(a).Some?
    ensures Prior(a + b) == Prior(a) && Body(a + b) == Body(a) + b
  {
    if HeadMark(a).Some? {
      HeadMarkOfAppend(a, b);
    }
  }

  lemma DropTwice(body: Text, more: Text, i: nat, j: nat)
    requires i <= |body|
    ensures Drop(Drop(body, i) + more, j) == Drop(body + more, i + j)
  {
    assert Drop(body, i) + more == (body + more)[i..];
  }

  /** Cutting a text that was cut before, when the count was exact. */
  lemma CutAgain(prior: nat, body: Text, more: Text, maxChars: nat)
    requires DropCount(prior, |body|, maxChars) <= prior + |body|
    ensures var n := DropCount(prior, |body|, maxChars);
            Cut(n, Drop(body, n - prior) + more, maxChars) == Cut(prior, body + more, maxChars)
  {
    hide HeadMark, Decimal, Marker, LeastDrop;
    var n := DropCount(prior, |body|, maxChars);
    var k := prior + |body| + |more| - maxChars + MARK_FIXED;
    LeastDropMonotone(prior, prior, prior + |body| - maxChars + MARK_FIXED, k);
    LeastDropFrom(prior, n, k);
    var n' := LeastDrop(prior, k);
    DropTwice(body, more, n - prior, n' - n);
    assert DropCount(n, |Drop(body, n - prior) + more|, maxChars) == n';
  }

  /** Where something is dropped at all, a larger overrun drops another number. */
  lemma LargerOverrunOtherDrop(from: nat, k: int, from': nat, k': int)
    requires k < k' && from < LeastDrop(from, k)
    ensures LeastDrop(from', k') != LeastDrop(from, k)
  {
    LeastDropIsLeast(from, k);
    LeastDropIsLeast(from', k');
    var n := LeastDrop(from, k);
    assert !Enough(n - 1, k);
    DigitsMonotone(n - 1, n);
  }

  /** Cutting a text that was cut before, when the count had overshot. */
  lemma CutOvershot(prior: nat, body: Text, more: Text, maxChars: nat)
    requires DropCount(prior, |body|, maxChars) > prior + |body|
    ensures var n := DropCount(prior, |body|, maxChars);
            Cut(n, Drop(body, n - prior) + more, maxChars) != Cut(prior, body + more, maxChars)
  {
    hide HeadMark, Decimal, Marker, LeastDrop;
    var n := DropCount(prior, |body|, maxChars);
    var k := prior + |body| + |more| - maxChars + MARK_FIXED;
    LeastDropMonotone(prior, prior, prior + |body| - maxChars + MARK_FIXED, k);
    LargerOverrunOtherDrop(prior, k, n, n + |more| - maxChars + MARK_FIXED);
    CutReadsBack(n, Drop(body, n - prior) + more, maxChars);
    CutReadsBack(prior, body + more, maxChars);
  }

  /** Feeding a text in two pieces stores what feeding it whole stores, exactly
      when the first piece fits or leaves room for the marker of its own length.
      The one thing excluded is a marker typed across the seam. */
  lemma ChunkInvariance(a: Text, b: Text, maxChars: nat)
    requires HeadMark(a + b).Some? ==> HeadMark(a).Some?
    ensures Window(Window(a, maxChars) + b, maxChars) == Window(a + b, maxChars)
            <==> Fits(a, maxChars) || Room(Total(a), maxChars)
  {
    hide HeadMark, Decimal;
    if !Fits(a, maxChars) {
      AppendSplits(a, b);
      AppendAfterCut(Prior(a), Body(a), b, maxChars);
      CountWithinTotal(Prior(a), |Body(a)|, maxChars);
      if Room(Total(a), maxChars) {
        CutAgain(Prior(a), Body(a), b, maxChars);
      } else {
        CutOvershot(Prior(a), Body(a), b, maxChars);
      }
    }
  }

  /** Text appended to a cut text is windowed as one more cut. */
  lemma AppendAfterCut(prior: nat, body: Text, more: Text, maxChars: nat)
    requires prior > 0 || |body| > maxChars
    ensures var n := DropCount(prior, |body|, maxChars);
            Window(Cut(prior, body, maxChars) + more, maxChars)
            == Cut(n, Drop(body, n - prior) + more, maxChars)
  {
    hide HeadMark, Decimal;
    var n := DropCount(prior, |body|, maxChars);
    var kept := Drop(body, n - prior);
    assert Cut(prior, body, maxChars) + more == Marker(n) + (kept + more);
    MarkerParsesBack(n, kept + more);
    assert n > 0;
  }

  function Concat(chunks: seq<Text>): Text {
    if chunks == [] then [] else Concat(chunks[..|chunks| - 1]) + chunks[|chunks| - 1]
  }

  /** The stored text after each chunk is appended and windowed in turn. */
  function Stream(chunks: seq<Text>, maxChars: nat): Text {
    if chunks == [] then []
    else Window(Stream(chunks[..|chunks| - 1], maxChars) + chunks[|chunks| - 1], maxChars)
  }

  /** However a text is chunked, the stored window is the window of the whole. */
  lemma {:induction false} ChunkingDoesNotMatter(chunks: seq<Text>, maxChars: nat)
    requires forall i | 0 <= i <= |chunks| :: HeadMark(Concat(chunks[..i])).None?
    requires |Concat(chunks)| <= maxChars || Room(|Concat(chunks)|, maxChars)
    ensures Stream(chunks, maxChars) == Window(Concat(chunks), maxChars)
  {
    hide HeadMark, Decimal;
    if chunks == [] {
      assert chunks[..0] == [];
    } else {
      var init := chunks[..|chunks| - 1];
      forall i | 0 <= i <= |init|
        ensures HeadMark(Concat(init[..i])).None?
      {
        assert init[..i] == chunks[..i];
      }
      assert chunks[..|chunks|] == chunks;
      DigitsMonotone(|Concat(init)|, |Concat(chunks)|);
      ChunkingDoesNotMatter(init, maxChars);
      ChunkInvariance(Concat(init), chunks[|chunks| - 1], maxChars);
    }
  }
}
