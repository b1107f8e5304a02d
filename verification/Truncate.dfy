/** Cutting a text to a number of UTF-8 bytes without splitting a code point. */
module Truncate {
  import opened Texts

  predicate IsHigh(u: CodeUnit) {
    0xD800 <= u < 0xDC00
  }

  predicate IsLow(u: CodeUnit) {
    0xDC00 <= u < 0xE000
  }

  // ---- code points ----

  /** Length of the first code point: a surrogate pair is one, and so is a surrogate
      on its own. */
  function FirstLength(s: Text): (n: nat)
    requires s != []
    ensures 1 <= n <= |s|
  {
    if |s| > 1 && IsHigh(s[0]) && IsLow(s[1]) then 2 else 1
  }

  /** `Array.from(s)`. */
  function Chars(s: Text): (r: seq<Text>)
    ensures forall i | 0 <= i < |r| :: r[i] != []
    decreases |s|
  {
    if s == [] then [] else [s[..FirstLength(s)]] + Chars(s[FirstLength(s)..])
  }

  function Flatten(chars: seq<Text>): Text {
    if chars == [] then [] else chars[0] + Flatten(chars[1..])
  }

  /** UTF-8 bytes of one code point; a surrogate on its own is written as U+FFFD. */
  function CharBytes(c: Text): (n: nat)
    requires c != []
    ensures 1 <= n <= 4
  {
    if |c| > 1 then 4 else if c[0] < 0x80 then 1 else if c[0] < 0x800 then 2 else 3
  }

  function Sum(chars: seq<Text>): nat
    requires forall i | 0 <= i < |chars| :: chars[i] != []
  {
    if chars == [] then 0 else CharBytes(chars[0]) + Sum(chars[1..])
  }

  /** `Buffer.byteLength(s, 'utf8')`. */
  function ByteLength(s: Text): nat {
    Sum(Chars(s))
  }

  lemma {:induction false} FlattenOfChars(s: Text)
    ensures Flatten(Chars(s)) == s
    decreases |s|
  {
    if s != [] {
      FlattenOfChars(s[FirstLength(s)..]);
      assert s == s[..FirstLength(s)] + s[FirstLength(s)..];
    }
  }

  /** The first `n` code points are the code points of their own text. */
  lemma {:induction false} CharsOfHead(s: Text, n: nat)
    requires n <= |Chars(s)|
    ensures Chars(Flatten(Chars(s)[..n])) == Chars(s)[..n]
    ensures Flatten(Chars(s)[..n]) <= s
    decreases |s|
  {
    if n > 0 {
      var k := FirstLength(s);
      var rest := Flatten(Chars(s[k..])[..n - 1]);
      CharsOfHead(s[k..], n - 1);
      assert Chars(s)[..n][1..] == Chars(s[k..])[..n - 1];
      assert s == s[..k] + s[k..];
      var head := s[..k] + rest;
      assert head[k..] == rest && head[..k] == s[..k];
      assert FirstLength(head) == k;
    }
  }

  /** And so are those from the `n`th on. */
  lemma {:induction false} CharsOfRest(s: Text, n: nat)
    requires n <= |Chars(s)|
    ensures Chars(Flatten(Chars(s)[n..])) == Chars(s)[n..]
    decreases |s|
  {
    if n == 0 {
      FlattenOfChars(s);
      assert Chars(s)[0..] == Chars(s);
    } else {
      var k := FirstLength(s);
      CharsOfRest(s[k..], n - 1);
      assert Chars(s)[n..] == Chars(s[k..])[n - 1..];
    }
  }

  lemma CharsOfTail(s: Text, n: nat)
    requires n <= |Chars(s)|
    ensures Chars(Flatten(Chars(s)[n..])) == Chars(s)[n..]
    ensures Flatten(Chars(s)[..n]) + Flatten(Chars(s)[n..]) == s
  {
    hide *;
    var chars := Chars(s);
    CharsOfRest(s, n);
    FlattenOfChars(s);
    FlattenConcat(chars[..n], chars[n..]);
    assert chars[..n] + chars[n..] == chars;
  }

  lemma {:induction false} SumSplit(chars: seq<Text>, n: nat)
    requires n <= |chars| && forall i | 0 <= i < |chars| :: chars[i] != []
    ensures Sum(chars) == Sum(chars[..n]) + Sum(chars[n..])
  {
    if n > 0 {
      SumSplit(chars[1..], n - 1);
      assert chars[..n][1..] == chars[1..][..n - 1];
      assert chars[1..][n - 1..] == chars[n..];
    }
  }

  /** Joining texts never costs bytes; it saves two when it completes a pair. */
  lemma {:induction false} BytesOfConcat(a: Text, b: Text)
    ensures ByteLength(a + b) ==
            ByteLength(a) + ByteLength(b) - if a != [] && b != [] && IsHigh(a[|a| - 1]) && IsLow(b[0]) then 2 else 0
    decreases |a|
  {
    if a == [] {
      assert a + b == b;
    } else {
      var s := a + b;
      var k := FirstLength(a);
      if FirstLength(s) == k {
        BytesOfConcat(a[k..], b);
        assert s[k..] == a[k..] + b && s[..k] == a[..k];
      } else {
        assert k == 1 && |a| == 1 && IsLow(b[0]);
        assert s[2..] == b[1..] && FirstLength(b) == 1;
        assert a[1..] == [];
      }
    }
  }

  // ---- fitting ----

  /** How many code points from the start fit. */
  function HeadCount(chars: seq<Text>, maxBytes: nat): (n: nat)
    requires forall i | 0 <= i < |chars| :: chars[i] != []
    ensures n <= |chars|
  {
    if chars == [] || CharBytes(chars[0]) > maxBytes then 0
    else 1 + HeadCount(chars[1..], maxBytes - CharBytes(chars[0]))
  }

  /** How many from the end. */
  function TailCount(chars: seq<Text>, maxBytes: nat): (n: nat)
    requires forall i | 0 <= i < |chars| :: chars[i] != []
    ensures n <= |chars| && n <= maxBytes
  {
    if chars == [] || CharBytes(chars[|chars| - 1]) > maxBytes then 0
    else 1 + TailCount(chars[..|chars| - 1], maxBytes - CharBytes(chars[|chars| - 1]))
  }

  function FitHead(s: Text, maxBytes: nat): Text {
    Flatten(Chars(s)[..HeadCount(Chars(s), maxBytes)])
  }

  function FitTail(s: Text, maxBytes: nat): Text {
    Flatten(Chars(s)[|Chars(s)| - TailCount(Chars(s), maxBytes)..])
  }

  lemma {:induction false} HeadCountIsMost(chars: seq<Text>, maxBytes: nat)
    requires forall i | 0 <= i < |chars| :: chars[i] != []
    ensures var n := HeadCount(chars, maxBytes);
            Sum(chars[..n]) <= maxBytes && (n < |chars| ==> Sum(chars[..n]) + CharBytes(chars[n]) > maxBytes)
  {
    if chars != [] && CharBytes(chars[0]) <= maxBytes {
      var n := HeadCount(chars, maxBytes);
      HeadCountIsMost(chars[1..], maxBytes - CharBytes(chars[0]));
      assert chars[..n][1..] == chars[1..][..n - 1];
    }
  }

  lemma {:induction false} TailCountIsMost(chars: seq<Text>, maxBytes: nat)
    requires forall i | 0 <= i < |chars| :: chars[i] != []
    ensures var n := |chars| - TailCount(chars, maxBytes);
            Sum(chars[n..]) <= maxBytes && (n > 0 ==> Sum(chars[n..]) + CharBytes(chars[n - 1]) > maxBytes)
  {
    var last := |chars| - 1;
    if chars != [] && CharBytes(chars[last]) <= maxBytes {
      var n := |chars| - TailCount(chars, maxBytes);
      TailCountIsMost(chars[..last], maxBytes - CharBytes(chars[last]));
      SumSplit(chars[n..], last - n);
      assert chars[n..][..last - n] == chars[..last][n..];
      assert chars[n..][last - n..] == [chars[last]];
      assert [chars[last]][1..] == [];
    }
  }

  /** The longest run of whole code points at the start that fits. */
  lemma FitHeadIsLongest(s: Text, maxBytes: nat)
    ensures var r := FitHead(s, maxBytes);
            var n := HeadCount(Chars(s), maxBytes);
            && r <= s && Chars(r) == Chars(s)[..n] && ByteLength(r) <= maxBytes
            && (n < |Chars(s)| ==> ByteLength(r) + CharBytes(Chars(s)[n]) > maxBytes)
  {
    CharsOfHead(s, HeadCount(Chars(s), maxBytes));
    HeadCountIsMost(Chars(s), maxBytes);
  }

  /** The longest at the end. */
  lemma FitTailIsLongest(s: Text, maxBytes: nat)
    ensures var r := FitTail(s, maxBytes);
            var n := |Chars(s)| - TailCount(Chars(s), maxBytes);
            && |r| <= |s| && s[|s| - |r|..] == r && Chars(r) == Chars(s)[n..] && ByteLength(r) <= maxBytes
            && (n > 0 ==> ByteLength(r) + CharBytes(Chars(s)[n - 1]) > maxBytes)
  {
    CharsOfTail(s, |Chars(s)| - TailCount(Chars(s), maxBytes));
    TailCountIsMost(Chars(s), maxBytes);
  }

  method FitUtf8(value: Text, maxBytes: nat, fromEnd: bool) returns (r: Text)
    ensures r == if fromEnd then FitTail(value, maxBytes) else FitHead(value, maxBytes)
  {
    if fromEnd {
      r := FitFromEnd(value, maxBytes);
    } else {
      r := FitFromStart(value, maxBytes);
    }
  }

  method FitFromEnd(value: Text, maxBytes: nat) returns (r: Text)
    ensures r == FitTail(value, maxBytes)
  {
    hide Chars, Flatten, CharBytes;
    var codepoints := Chars(value);
    var bytes: nat := 0;
    var start: nat := |codepoints|;
    assert codepoints[..start] == codepoints;
    while start > 0
      invariant start <= |codepoints| && bytes <= maxBytes
      invariant |codepoints| - TailCount(codepoints, maxBytes) == start - TailCount(codepoints[..start], maxBytes - bytes)
    {
      var cb := CharBytes(codepoints[start - 1]);
      assert codepoints[..start][..start - 1] == codepoints[..start - 1];
      if bytes + cb > maxBytes {
        break;
      }
      bytes := bytes + cb;
      start := start - 1;
    }
    r := Flatten(codepoints[start..]);
  }

  method FitFromStart(value: Text, maxBytes: nat) returns (r: Text)
    ensures r == FitHead(value, maxBytes)
  {
    hide Chars, Flatten, CharBytes;
    var codepoints := Chars(value);
    var bytes: nat := 0;
    var end: nat := 0;
    var k: nat := 0;
    assert codepoints[0..] == codepoints;
    NothingYet(value);
    while k < |codepoints|
      invariant k <= |codepoints| && bytes <= maxBytes && end <= |value|
      invariant value[..end] == Flatten(codepoints[..k])
      invariant HeadCount(codepoints, maxBytes) == k + HeadCount(codepoints[k..], maxBytes - bytes)
      decreases |codepoints| - k
    {
      var point := codepoints[k];
      var cb := CharBytes(point);
      assert codepoints[k..][1..] == codepoints[k + 1..];
      if bytes + cb > maxBytes {
        break;
      }
      bytes := bytes + cb;
      HeadGrows(value, k, end);
      end := end + |point|;
      k := k + 1;
    }
    r := value[..end];
  }

  lemma NothingYet(s: Text)
    ensures s[..0] == Flatten(Chars(s)[..0])
  {
  }

  lemma HeadGrows(s: Text, k: nat, end: nat)
    requires k < |Chars(s)| && end <= |s| && s[..end] == Flatten(Chars(s)[..k])
    ensures end + |Chars(s)[k]| <= |s| && s[..end + |Chars(s)[k]|] == Flatten(Chars(s)[..k + 1])
  {
    CharsOfHead(s, k + 1);
    assert Chars(s)[..k + 1] == Chars(s)[..k] + [Chars(s)[k]];
    FlattenConcat(Chars(s)[..k], [Chars(s)[k]]);
    assert Flatten([Chars(s)[k]]) == Chars(s)[k];
  }

  lemma {:induction false} FlattenConcat(a: seq<Text>, b: seq<Text>)
    ensures Flatten(a + b) == Flatten(a) + Flatten(b)
  {
    if a == [] {
      assert a + b == b;
    } else {
      FlattenConcat(a[1..], b);
      assert (a + b)[1..] == a[1..] + b;
    }
  }

  // ---- truncation ----

  /** `…（已截断）`, 18 bytes. */
  const SUFFIX: Text := [0x2026, 0xFF08, 0x5DF2, 0x622A, 0x65AD, 0xFF09]

  const NEWLINE: Text := [10]

  function TruncateUtf8(value: Text, maxBytes: nat, fromEnd: bool, suffix: Text): Text {
    if ByteLength(value) <= maxBytes then value
    else if maxBytes <= ByteLength(suffix) then suffix
    else if fromEnd then suffix + NEWLINE + FitTail(value, maxBytes - ByteLength(suffix))
    else FitHead(value, maxBytes - ByteLength(suffix)) + suffix
  }

  method TruncateText(value: Text, maxBytes: nat, fromEnd: bool, suffix: Text) returns (r: Text)
    ensures r == TruncateUtf8(value, maxBytes, fromEnd, suffix)
  {
    hide ByteLength, FitHead, FitTail;
    if ByteLength(value) <= maxBytes {
      return value;
    }
    var budget := maxBytes - ByteLength(suffix);
    if budget <= 0 {
      return suffix;
    }
    var truncated := FitUtf8(value, budget, fromEnd);
    r := if fromEnd then suffix + NEWLINE + truncated else truncated + suffix;
  }

  /** A text cut at its end fits the limit, unless the suffix alone does not. */
  lemma HeadFits(value: Text, maxBytes: nat, suffix: Text)
    ensures ByteLength(TruncateUtf8(value, maxBytes, false, suffix)) <= Max(maxBytes, ByteLength(suffix))
  {
    if maxBytes > ByteLength(suffix) {
      FitHeadIsLongest(value, maxBytes - ByteLength(suffix));
      BytesOfConcat(FitHead(value, maxBytes - ByteLength(suffix)), suffix);
    }
  }

  /** Cutting what was cut already changes nothing. */
  lemma HeadOnlyOnce(value: Text, maxBytes: nat, suffix: Text)
    ensures var r := TruncateUtf8(value, maxBytes, false, suffix);
            TruncateUtf8(r, maxBytes, false, suffix) == r
  {
    HeadFits(value, maxBytes, suffix);
  }

  lemma BytesOfBreak()
    ensures ByteLength(NEWLINE) == 1
  {
    var n: Text := [10];
    assert FirstLength(n) == 1 && n[..1] == n && n[1..] == [];
    assert Chars(n) == [n];
    assert [n][1..] == [];
  }

  /** A line break between two texts keeps them apart. */
  lemma BytesAroundBreak(a: Text, b: Text)
    ensures ByteLength(a + NEWLINE + b) == ByteLength(a) + 1 + ByteLength(b)
  {
    BytesOfBreak();
    hide ByteLength;
    BytesOfConcat(a, NEWLINE);
    BytesOfConcat(a + NEWLINE, b);
  }

  /** A text cut at its start may be one byte over: the line break is not charged. */
  lemma TailFitsButForTheBreak(value: Text, maxBytes: nat, suffix: Text)
    ensures ByteLength(TruncateUtf8(value, maxBytes, true, suffix)) <= Max(maxBytes + 1, ByteLength(suffix))
  {
    hide ByteLength, FitTail, FitHead;
    if maxBytes > ByteLength(suffix) {
      FitTailIsLongest(value, maxBytes - ByteLength(suffix));
      BytesAroundBreak(suffix, FitTail(value, maxBytes - ByteLength(suffix)));
    }
  }

  lemma SumOfTails(chars: seq<Text>, i: nat, j: nat)
    requires i <= j <= |chars| && forall k | 0 <= k < |chars| :: chars[k] != []
    ensures Sum(chars[j..]) <= Sum(chars[i..])
  {
    hide CharBytes;
    SumSplit(chars[i..], j - i);
    assert chars[i..][j - i..] == chars[j..];
  }

  /** Some run of whole code points at the end takes exactly these bytes. */
  predicate EndFills(value: Text, budget: nat) {
    exists n :: 0 <= n <= |Chars(value)| && Sum(Chars(value)[n..]) == budget
  }

  /** What is kept fills the budget exactly when such a run does. */
  lemma TailFillsIff(value: Text, budget: nat)
    ensures ByteLength(FitTail(value, budget)) == budget <==> EndFills(value, budget)
  {
    var chars := Chars(value);
    var first := |chars| - TailCount(chars, budget);
    FitTailIsLongest(value, budget);
    assert ByteLength(FitTail(value, budget)) == Sum(chars[first..]);
    assert first > 0 ==> Sum(chars[first..]) + CharBytes(chars[first - 1]) > budget;
    hide Chars, FitTail, CharBytes, TailCount, ByteLength, Sum;
    if n :| 0 <= n <= |chars| && Sum(chars[n..]) == budget {
      if n < first {
        SumOfTails(chars, n, first - 1);
        LastOfTail(chars, first);
      } else {
        SumOfTails(chars, first, n);
      }
    }
  }

  lemma LastOfTail(chars: seq<Text>, n: nat)
    requires 0 < n <= |chars| && forall k | 0 <= k < |chars| :: chars[k] != []
    ensures Sum(chars[n - 1..]) == CharBytes(chars[n - 1]) + Sum(chars[n..])
  {
    hide CharBytes;
    assert chars[n - 1..][0] == chars[n - 1] && chars[n - 1..][1..] == chars[n..];
  }

  lemma TailCutIs(value: Text, maxBytes: nat, suffix: Text)
    ensures ByteLength(value) <= maxBytes ==> TruncateUtf8(value, maxBytes, true, suffix) == value
    ensures maxBytes < ByteLength(value) && maxBytes <= ByteLength(suffix) ==> TruncateUtf8(value, maxBytes, true, suffix) == suffix
    ensures ByteLength(suffix) < maxBytes < ByteLength(value) ==>
              TruncateUtf8(value, maxBytes, true, suffix) == suffix + NEWLINE + FitTail(value, maxBytes - ByteLength(suffix))
  {
    hide ByteLength, FitTail, FitHead;
  }

  /** A text cut at its start keeps the limit exactly when it fits as it is, when the
      suffix alone fills the limit, or when no run of whole code points at its end fills
      what the suffix leaves. */
  lemma TailFitsIff(value: Text, maxBytes: nat, suffix: Text)
    ensures ByteLength(TruncateUtf8(value, maxBytes, true, suffix)) <= maxBytes <==>
            || ByteLength(value) <= maxBytes
            || ByteLength(suffix) == maxBytes
            || (ByteLength(suffix) < maxBytes && !EndFills(value, maxBytes - ByteLength(suffix)))
  {
    hide *;
    TailCutIs(value, maxBytes, suffix);
    if ByteLength(suffix) < maxBytes < ByteLength(value) {
      var budget := maxBytes - ByteLength(suffix);
      TailFillsIff(value, budget);
      FitTailIsLongest(value, budget);
      BytesAroundBreak(suffix, FitTail(value, budget));
    }
  }

  /** So plain ASCII too long for the limit always comes back one byte over. */
  lemma AsciiTailIsOneOver(value: Text, maxBytes: nat, suffix: Text)
    requires forall i | 0 <= i < |value| :: value[i] < 0x80
    requires ByteLength(suffix) < maxBytes < |value|
    ensures ByteLength(TruncateUtf8(value, maxBytes, true, suffix)) == maxBytes + 1
  {
    hide *;
    AsciiBytes(value);
    AsciiTail(value, maxBytes - ByteLength(suffix));
    TailFitsIff(value, maxBytes, suffix);
    TailFitsButForTheBreak(value, maxBytes, suffix);
    MaxOfMore(maxBytes + 1, ByteLength(suffix));
  }

  lemma MaxOfMore(a: nat, b: nat)
    requires a > b
    ensures Max(a, b) == a
  {
  }

  lemma AsciiTail(value: Text, budget: nat)
    requires forall i | 0 <= i < |value| :: value[i] < 0x80
    requires budget < |value|
    ensures EndFills(value, budget)
  {
    AsciiChars(value);
    AsciiSum(Chars(value), |value| - budget);
  }

  lemma {:induction false} AsciiSum(chars: seq<Text>, n: nat)
    requires n <= |chars| && forall i | 0 <= i < |chars| :: |chars[i]| == 1 && chars[i][0] < 0x80
    ensures Sum(chars[n..]) == |chars| - n
    decreases |chars| - n
  {
    if n < |chars| {
      AsciiSum(chars, n + 1);
      assert chars[n..][1..] == chars[n + 1..];
    }
  }

  lemma {:induction false} AsciiBytes(s: Text)
    requires forall i | 0 <= i < |s| :: s[i] < 0x80
    ensures ByteLength(s) == |s|
  {
    if s != [] {
      assert FirstLength(s) == 1;
      AsciiBytes(s[1..]);
      assert Chars(s)[1..] == Chars(s[1..]);
    }
  }

  lemma {:induction false} AsciiChars(s: Text)
    requires forall i | 0 <= i < |s| :: s[i] < 0x80
    ensures |Chars(s)| == |s| && forall i | 0 <= i < |s| :: Chars(s)[i] == [s[i]]
  {
    if s != [] {
      assert FirstLength(s) == 1;
      AsciiChars(s[1..]);
    }
  }
}
