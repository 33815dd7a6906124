/** The text chunker: windows of a target size cut at a preferred separator, each next one
    starting a fixed overlap before the previous end. */
module Chunker {
  import opened Slices
  import opened Utf8

  // ─── the last match of a separator ───

  predicate MatchesAt(h: Bytes, sep: Bytes, p: nat) {
    p + |sep| <= |h| && h[p..p + |sep|] == sep
  }

  datatype Option = None | Some(pos: nat)

  ghost predicate IsLastMatch(h: Bytes, sep: Bytes, r: Option) {
    match r
    case Some(p) => MatchesAt(h, sep, p) && forall q: nat :: q > p ==> !MatchesAt(h, sep, q)
    case None => forall q: nat :: !MatchesAt(h, sep, q)
  }

  function LastMatch(h: Bytes, sep: Bytes, from: nat): (r: Option)
    ensures r.Some? ==> r.pos <= from && MatchesAt(h, sep, r.pos) && forall q: nat :: r.pos < q <= from ==>
              !MatchesAt(h, sep, q)
    ensures r.None? ==> forall q: nat :: q <= from ==> !MatchesAt(h, sep, q)
  {
    if MatchesAt(h, sep, from) then Some(from) else if from == 0 then None else LastMatch(h, sep, from - 1)
  }

  function RFind(h: Bytes, sep: Bytes): (r: Option)
    ensures IsLastMatch(h, sep, r)
  {
    LastMatch(h, sep, |h|)
  }

  // ─── where a window is cut ───

  /** The first separator with a match in the search window decides; otherwise the end of the text. */
  function CutBySeparators(text: Bytes, lo: nat, hi: nat, separators: seq<Bytes>): nat
    requires lo <= hi <= |text|
  {
    if separators == [] then hi
    else
      var r := RFind(text[lo..hi], separators[0]);
      if r.Some? then lo + r.pos + |separators[0]| else CutBySeparators(text, lo, hi, separators[1..])
  }

  function SplitPoint(text: Bytes, target: nat, separators: seq<Bytes>): nat {
    var hi := Floor(text, if target < |text| then target else |text|);
    var lo := Floor(text, target - target / 4);
    if lo >= hi then hi else CutBySeparators(text, lo, hi, separators)
  }

  method FindSplitPoint(text: Bytes, target: nat, separators: seq<Bytes>) returns (split: nat)
    ensures split == SplitPoint(text, target, separators)
  {
    var searchStart := FloorCharBoundary(text, target - target / 4);
    var searchEnd := FloorCharBoundary(text, if target < |text| then target else |text|);
    if searchStart >= searchEnd {
      return searchEnd;
    }
    for i := 0 to |separators|
      invariant CutBySeparators(text, searchStart, searchEnd, separators)
             == CutBySeparators(text, searchStart, searchEnd, separators[i..])
    {
      assert separators[i..][0] == separators[i] && separators[i..][1..] == separators[i + 1..];
      var r := RFind(text[searchStart..searchEnd], separators[i]);
      if r.Some? {
        return searchStart + r.pos + |separators[i]|;
      }
    }
    return searchEnd;
  }

  /** A copy of a separator at byte `p`, inside the search window. */
  ghost predicate SeparatorAt(text: Bytes, lo: nat, hi: nat, sep: Bytes, p: nat) {
    lo <= p && p + |sep| <= hi <= |text| && text[p..p + |sep|] == sep
  }

  /** No copy of any of the first `n` separators. */
  ghost predicate NoneOf(text: Bytes, lo: nat, hi: nat, separators: seq<Bytes>, n: nat)
    requires n <= |separators|
  {
    forall k, q: nat {:trigger SeparatorAt(text, lo, hi, separators[k], q)} ::
      0 <= k < n ==> !SeparatorAt(text, lo, hi, separators[k], q)
  }

  ghost predicate LastAt(text: Bytes, lo: nat, hi: nat, sep: Bytes, p: nat) {
    SeparatorAt(text, lo, hi, sep, p) && forall q: nat :: q > p ==> !SeparatorAt(text, lo, hi, sep, q)
  }

  lemma {:induction false} SeparatorMatches(text: Bytes, lo: nat, hi: nat, sep: Bytes, p: nat)
    requires lo <= hi <= |text| && lo <= p
    ensures SeparatorAt(text, lo, hi, sep, p) <==> MatchesAt(text[lo..hi], sep, p - lo)
  {
    if p + |sep| <= hi {
      SliceOfSlice(text, lo, hi - lo, p - lo, |sep|);
    }
  }

  /** The first separator of the list that occurs in the window decides, at its last copy. */
  lemma {:induction false} FirstDecides(text: Bytes, lo: nat, hi: nat, separators: seq<Bytes>, i: nat, p: nat)
    requires lo <= hi <= |text| && i < |separators|
    requires NoneOf(text, lo, hi, separators, i) && LastAt(text, lo, hi, separators[i], p)
    ensures CutBySeparators(text, lo, hi, separators) == p + |separators[i]|
    decreases i
  {
    var r := RFind(text[lo..hi], separators[0]);
    if i == 0 {
      SeparatorMatches(text, lo, hi, separators[0], p);
      assert r.Some?;
      SeparatorMatches(text, lo, hi, separators[0], lo + r.pos);
    } else {
      if r.Some? {
        SeparatorMatches(text, lo, hi, separators[0], lo + r.pos);
      }
      var rest := separators[1..];
      assert forall k :: 0 <= k < i - 1 ==> rest[k] == separators[k + 1];
      FirstDecides(text, lo, hi, rest, i - 1, p);
    }
  }

  /** Without any separator in it the window is cut at its end. */
  lemma {:induction false} NoneCutsAtEnd(text: Bytes, lo: nat, hi: nat, separators: seq<Bytes>)
    requires lo <= hi <= |text| && NoneOf(text, lo, hi, separators, |separators|)
    ensures CutBySeparators(text, lo, hi, separators) == hi
    decreases |separators|
  {
    if separators != [] {
      var r := RFind(text[lo..hi], separators[0]);
      if r.Some? {
        SeparatorMatches(text, lo, hi, separators[0], lo + r.pos);
      }
      var rest := separators[1..];
      assert forall k :: 0 <= k < |rest| ==> rest[k] == separators[k + 1];
      NoneCutsAtEnd(text, lo, hi, rest);
    }
  }

  // ─── one window ───

  ghost predicate AllText(separators: seq<Bytes>) {
    forall sep :: sep in separators ==> Wf(sep)
  }

  /** A cut at a separator is a boundary past the start of the search window. */
  lemma {:induction false} CutIsBoundary(text: Bytes, lo: nat, hi: nat, separators: seq<Bytes>)
    requires Wf(text) && AllText(separators) && lo < hi <= |text| && IsBoundary(text, lo) && IsBoundary(text, hi)
    ensures var cut := CutBySeparators(text, lo, hi, separators);
            lo < cut <= hi && IsBoundary(text, cut)
    decreases |separators|
  {
    if separators != [] {
      var sep, h := separators[0], text[lo..hi];
      assert sep in separators;
      var r := RFind(h, sep);
      if r.Some? {
        SliceWf(text, lo, hi);
        MatchEnds(h, sep, r.pos);
        if sep == [] {
          assert MatchesAt(h, sep, |h|);
        }
        SliceBoundary(text, lo, hi, r.pos + |sep|);
      } else {
        CutIsBoundary(text, lo, hi, separators[1..]);
      }
    }
  }

  /** A match of a string inside a string ends at a boundary. */
  lemma {:induction false} MatchEnds(h: Bytes, sep: Bytes, p: nat)
    requires Wf(h) && Wf(sep) && MatchesAt(h, sep, p) && (sep != [] || p == |h|)
    ensures IsBoundary(h, p + |sep|)
  {
    if sep != [] {
      LeadFirst(sep);
      assert h[p] == h[p..p + |sep|][0] == sep[0];
      SuffixWf(h, p);
      var u := h[p..];
      assert u[..|sep|] == h[p..p + |sep|];
      PrefixEnds(u, sep);
      if |sep| < |u| {
        assert u[|sep|] == h[p + |sep|];
      }
    }
  }

  function Minimum(a: int, b: int): int {
    if a < b then a else b
  }

  /** The least a window of target size `t` can advance. */
  function LeastCut(t: nat): int {
    Minimum(t - t / 4 + 1, t - 3)
  }

  /** Every cut is a boundary within the window, and no closer to its start than `LeastCut`. */
  lemma {:induction false} SplitBounds(text: Bytes, target: nat, separators: seq<Bytes>)
    requires Wf(text) && AllText(separators) && |text| <= target <= |text| + 3
    ensures var cut := SplitPoint(text, target, separators);
            cut <= |text| && IsBoundary(text, cut) && cut >= LeastCut(target)
  {
    var lo := Floor(text, target - target / 4);
    if lo < |text| {
      CutIsBoundary(text, lo, |text|, separators);
      var cut := SplitPoint(text, target, separators);
      assert cut > lo && IsBoundary(text, cut);
      assert cut > target - target / 4;
    }
  }

  /** One turn of the loop: the tail is emitted as it is, any other window is cut and the next
      one starts `o` bytes before the cut, at a boundary, never past the cut. */
  datatype Step = Tail(start: nat) | Window(start: nat, end: nat, next: nat)

  function WindowEnd(text: Bytes, t: nat, separators: seq<Bytes>, start: nat): (end: nat)
    requires start + t <= |text| && IsBoundary(text, start)
  {
    var endPos := Floor(text, start + t);
    Floor(text, start + SplitPoint(text[start..endPos], t, separators))
  }

  function NextStart(text: Bytes, o: nat, end: nat): nat {
    var back := Ceil(text, if end >= o then end - o else 0);
    if back >= end then end else back
  }

  function StepAt(text: Bytes, t: nat, o: nat, separators: seq<Bytes>, pos: nat): Step {
    var start := Ceil(text, pos);
    if |text| - start <= t then Tail(start)
    else
      var end := WindowEnd(text, t, separators, start);
      Window(start, end, NextStart(text, o, end))
  }

  lemma {:induction false} CeilAtBoundary(text: Bytes, pos: nat)
    requires IsBoundary(text, pos) && pos <= |text|
    ensures Ceil(text, pos) == pos
  {
  }

  lemma {:induction false} WindowEndBounds(text: Bytes, t: nat, separators: seq<Bytes>, pos: nat)
    requires Wf(text) && AllText(separators) && IsBoundary(text, pos) && pos + t < |text|
    ensures var end := WindowEnd(text, t, separators, pos);
            IsBoundary(text, end) && pos <= end <= pos + t && pos + LeastCut(t) <= end
  {
    hide LeastCut, SplitPoint, AllText;
    var endPos := Floor(text, pos + t);
    var w := text[pos..endPos];
    FloorNear(text, pos + t);
    SliceWf(text, pos, endPos);
    SplitBounds(w, t, separators);
    var split := SplitPoint(w, t, separators);
    SliceBoundary(text, pos, endPos, split);
    FloorAtBoundary(text, pos + split);
  }

  lemma {:induction false} FloorAtBoundary(text: Bytes, pos: nat)
    requires IsBoundary(text, pos) && pos <= |text|
    ensures Floor(text, pos) == pos
  {
  }

  /** The last boundary at or before `at`. */
  ghost predicate LastBoundary(text: Bytes, at: nat, b: nat) {
    && b <= at && b <= |text| && IsBoundary(text, b)
    && forall c: nat :: b < c <= at && c <= |text| ==> !IsBoundary(text, c)
  }

  lemma {:induction false} FloorIs(text: Bytes, at: nat, b: nat)
    requires LastBoundary(text, at, b)
    ensures Floor(text, at) == b
  {
  }

  lemma {:induction false} SliceFloor(text: Bytes, start: nat, hi: nat, lo: nat, d: nat)
    requires start <= lo < hi <= |text| && IsBoundary(text, start) && IsBoundary(text, hi)
    requires LastBoundary(text, start + d, lo)
    ensures Floor(text[start..hi], d) == lo - start
  {
    hide Floor;
    var w := text[start..hi];
    assert d < hi - start;
    SliceBoundary(text, start, hi, lo - start);
    SliceBoundary(text, start, hi, Floor(w, d));
  }

  /** The end of a window that starts at `start`: with `hi` the last boundary within `t` bytes and
      `lo` the last one within three quarters of that, the separators decide between the two. */
  lemma {:induction false} WindowSearch(text: Bytes, t: nat, separators: seq<Bytes>, start: nat, lo: nat, hi: nat)
    requires Wf(text) && AllText(separators) && IsBoundary(text, start) && start + t <= |text|
    requires start <= lo < hi && LastBoundary(text, start + t, hi) && LastBoundary(text, start + (t - t / 4), lo)
    ensures WindowEnd(text, t, separators, start) == CutBySeparators(text, lo, hi, separators)
  {
    hide *;
    BelowText(text, start + t, hi);
    BelowText(text, start + (t - t / 4), lo);
    FloorIs(text, start + t, hi);
    SliceFloor(text, start, hi, lo, t - t / 4);
    SearchWindow(text[start..hi], t, separators, lo - start);
    SliceCut(text, start, lo, hi, separators);
    CutIsBoundary(text, lo, hi, separators);
    FloorAtBoundary(text, CutBySeparators(text, lo, hi, separators));
    WindowEndIs(text, t, separators, start, hi);
  }

  lemma {:induction false} WindowEndIs(text: Bytes, t: nat, separators: seq<Bytes>, start: nat, hi: nat)
    requires start + t <= |text| && IsBoundary(text, start) && Floor(text, start + t) == hi
    ensures start <= hi
    ensures WindowEnd(text, t, separators, start) == Floor(text, start + SplitPoint(text[start..hi], t, separators))
  {
  }

  lemma {:induction false} SearchWindow(w: Bytes, t: nat, separators: seq<Bytes>, lo: nat)
    requires |w| <= t && Floor(w, t - t / 4) == lo < |w|
    ensures SplitPoint(w, t, separators) == CutBySeparators(w, lo, |w|, separators)
  {
    hide CutBySeparators;
    assert Floor(w, |w|) == |w|;
  }

  lemma {:induction false} SliceCut(text: Bytes, start: nat, lo: nat, hi: nat, separators: seq<Bytes>)
    requires start <= lo <= hi <= |text|
    ensures CutBySeparators(text[start..hi], lo - start, hi - start, separators) + start
         == CutBySeparators(text, lo, hi, separators)
    decreases |separators|
  {
    if separators != [] {
      assert text[start..hi][lo - start..hi - start] == text[lo..hi];
      SliceCut(text, start, lo, hi, separators[1..]);
    }
  }

  /** A window ends right after the last copy, in its last quarter, of the first separator of the
      list that occurs there. */
  lemma {:induction false} WindowCutFirst(text: Bytes, t: nat, separators: seq<Bytes>, start: nat, lo: nat, hi: nat,
                                          i: nat, p: nat)
    requires Wf(text) && AllText(separators) && IsBoundary(text, start) && start + t <= |text|
    requires start <= lo < hi && LastBoundary(text, start + t, hi) && LastBoundary(text, start + (t - t / 4), lo)
    requires i < |separators| && NoneOf(text, lo, hi, separators, i) && LastAt(text, lo, hi, separators[i], p)
    ensures WindowEnd(text, t, separators, start) == p + |separators[i]|
  {
    hide *;
    BelowText(text, start + t, hi);
    WindowSearch(text, t, separators, start, lo, hi);
    FirstDecides(text, lo, hi, separators, i, p);
  }

  lemma {:induction false} BelowText(text: Bytes, at: nat, b: nat)
    requires LastBoundary(text, at, b)
    ensures b <= |text| && b <= at && IsBoundary(text, b)
  {
  }

  /** A window without a separator in its last quarter, or without a boundary there, ends at the last
      boundary within the target. */
  lemma {:induction false} WindowUncut(text: Bytes, t: nat, separators: seq<Bytes>, start: nat, lo: nat, hi: nat)
    requires Wf(text) && AllText(separators) && IsBoundary(text, start) && start + t <= |text|
    requires start <= lo && LastBoundary(text, start + t, hi) && LastBoundary(text, start + (t - t / 4), lo)
    requires lo >= hi || NoneOf(text, lo, hi, separators, |separators|)
    ensures WindowEnd(text, t, separators, start) == hi
  {
    hide AllText, LeastCut;
    if lo < hi {
      WindowSearch(text, t, separators, start, lo, hi);
      NoneCutsAtEnd(text, lo, hi, separators);
    } else {
      FloorIs(text, start + t, hi);
      var w := text[start..hi];
      assert lo == hi;
      assert Floor(w, t - t / 4) == |w|;
      FloorAtBoundary(text, hi);
    }
  }

  /** The next window starts at the first boundary no more than `o` bytes before the end of this
      one. */
  lemma {:induction false} NextExact(text: Bytes, o: nat, end: nat, b: nat)
    requires end <= |text| && IsBoundary(text, b) && b <= end <= b + o
    requires forall c: nat :: c < b && end <= c + o ==> !IsBoundary(text, c)
    ensures NextStart(text, o, end) == b
  {
    hide Ceil;
    assert b == Ceil(text, if end >= o then end - o else 0);
  }

  lemma {:induction false} NextStartBounds(text: Bytes, o: nat, end: nat, pos: nat)
    requires IsBoundary(text, end) && end <= |text| && pos <= end
    ensures var n := NextStart(text, o, end);
            IsBoundary(text, n) && n <= end <= n + o && (pos + o < end ==> pos < n)
  {
  }

  /** What a window guarantees: it starts where it was told, is cut at a boundary no farther than
      the target, and the next one leaves no gap; if the overlap is below `LeastCut` it advances. */
  ghost predicate WindowOk(text: Bytes, t: nat, o: nat, pos: nat, s: Step) {
    && s.start == pos <= |text|
    && (s.Tail? ==> |text| - pos <= t)
    && (s.Window? ==>
          && pos <= s.end <= pos + t && s.end < |text| && pos + LeastCut(t) <= s.end
          && s.next <= s.end <= s.next + o
          && IsBoundary(text, s.end) && IsBoundary(text, s.next)
          && (o < LeastCut(t) ==> pos < s.next))
  }

  lemma {:induction false} WindowBounds(text: Bytes, t: nat, o: nat, separators: seq<Bytes>, pos: nat)
    requires Wf(text) && AllText(separators) && IsBoundary(text, pos) && pos <= |text|
    ensures WindowOk(text, t, o, pos, StepAt(text, t, o, separators, pos))
  {
    CeilAtBoundary(text, pos);
    hide LeastCut, WindowEnd, NextStart, IsBoundary, Wf, AllText, Ceil;
    if |text| - pos > t {
      WindowEndBounds(text, t, separators, pos);
      NextStartBounds(text, o, WindowEnd(text, t, separators, pos), pos);
    }
  }

  /** The loop ends within `fuel` windows. */
  predicate Finishes(text: Bytes, t: nat, o: nat, separators: seq<Bytes>, pos: nat, fuel: nat)
    decreases fuel
  {
    match StepAt(text, t, o, separators, pos)
    case Tail(_) => true
    case Window(_, _, next) => fuel > 0 && Finishes(text, t, o, separators, next, fuel - 1)
  }

  ghost predicate Terminates(text: Bytes, t: nat, o: nat, separators: seq<Bytes>) {
    |text| <= t || exists fuel: nat :: Finishes(text, t, o, separators, 0, fuel)
  }

  lemma {:induction false} ProgressFinishes(text: Bytes, t: nat, o: nat, separators: seq<Bytes>, pos: nat, fuel: nat)
    requires Wf(text) && AllText(separators) && IsBoundary(text, pos) && pos <= |text|
    requires o < LeastCut(t) && fuel >= |text| - pos
    ensures Finishes(text, t, o, separators, pos, fuel)
    decreases fuel
  {
    hide StepAt, LeastCut, Wf, AllText, IsBoundary;
    WindowBounds(text, t, o, separators, pos);
    var s := StepAt(text, t, o, separators, pos);
    if s.Window? {
      ProgressFinishes(text, t, o, separators, s.next, fuel - 1);
    }
  }

  lemma {:induction false} StuckForever(text: Bytes, t: nat, o: nat, separators: seq<Bytes>, fuel: nat)
    requires StepAt(text, t, o, separators, 0).Window? && StepAt(text, t, o, separators, 0).next == 0
    ensures !Finishes(text, t, o, separators, 0, fuel)
  {
    if fuel > 0 {
      StuckForever(text, t, o, separators, fuel - 1);
    }
  }

  // ─── the configured chunker ───

  /** Bytes of a white-space character at the start of a string, 0 if there is none. */
  function WhiteLen(s: Bytes): (k: nat)
    ensures k <= |s|
  {
    if |s| >= 1 && (9 <= s[0] <= 13 || s[0] == 32) then 1
    else if |s| >= 2 && s[0] == 0xC2 && (s[1] == 0x85 || s[1] == 0xA0) then 2
    else if |s| >= 3 && s[0] == 0xE1 && s[1] == 0x9A && s[2] == 0x80 then 3
    else if |s| >= 3 && s[0] == 0xE2 && s[1] == 0x80 && (0x80 <= s[2] <= 0x8A || s[2] in {0xA8, 0xA9, 0xAF}) then 3
    else if |s| >= 3 && s[0] == 0xE2 && s[1] == 0x81 && s[2] == 0x9F then 3
    else if |s| >= 3 && s[0] == 0xE3 && s[1] == 0x80 && s[2] == 0x80 then 3
    else 0
  }

  predicate Blank(s: Bytes)
    decreases |s|
  {
    s == [] || (WhiteLen(s) > 0 && Blank(s[WhiteLen(s)..]))
  }

  /** The code points with the Unicode property White_Space. */
  predicate IsWhite(c: nat) {
    || 9 <= c <= 13 || c == 32 || c == 0x85 || c == 0xA0 || c == 0x1680 || 0x2000 <= c <= 0x200A
    || c == 0x2028 || c == 0x2029 || c == 0x202F || c == 0x205F || c == 0x3000
  }

  lemma {:induction false} WhiteIs(c: nat, rest: Bytes)
    requires c <= MAX_CODE
    ensures WhiteLen(Encode(c) + rest) == if IsWhite(c) then |Encode(c)| else 0
  {
  }

  /** A text is blank exactly when each of its characters is white space. */
  lemma {:induction false} BlankIff(cs: seq<nat>)
    requires AreCodes(cs)
    ensures Blank(Text(cs)) <==> forall i :: 0 <= i < |cs| ==> IsWhite(cs[i])
    decreases |cs|
  {
    if cs != [] {
      EncodeShape(cs[0]);
      WhiteIs(cs[0], Text(cs[1..]));
      BlankIff(cs[1..]);
      hide Encode, WhiteLen, IsWhite, CharLen;
      assert Text(cs)[|Encode(cs[0])|..] == Text(cs[1..]);
      if forall i :: 0 <= i < |cs[1..]| ==> IsWhite(cs[1..][i]) {
        assert forall i :: 1 <= i < |cs| ==> cs[i] == cs[1..][i - 1];
      } else {
        var i :| 0 <= i < |cs[1..]| && !IsWhite(cs[1..][i]);
        assert !IsWhite(cs[i + 1]);
      }
    }
  }

  /** Sizes are in tokens of four bytes. */
  datatype Config = Config(size: nat, overlap: nat, min: nat, separators: seq<Bytes>)

  predicate Sane(size: nat, overlap: nat) {
    size >= 1 && 4 * overlap <= 3 * size
  }

  ghost predicate AlwaysTerminates(size: nat, overlap: nat) {
    forall text, separators {:trigger Terminates(text, 4 * size, 4 * overlap, separators)} ::
      Wf(text) && AllText(separators) && !Blank(text) ==> Terminates(text, 4 * size, 4 * overlap, separators)
  }

  /** The chunker ends on every text and every separator list exactly when the target is at least
      one token and the overlap at most three quarters of it. */
  lemma {:induction false} TerminatesIff(size: nat, overlap: nat)
    ensures AlwaysTerminates(size, overlap) <==> Sane(size, overlap)
  {
    if Sane(size, overlap) {
      forall text: Bytes, separators: seq<Bytes> | Wf(text) && AllText(separators)
        ensures Terminates(text, 4 * size, 4 * overlap, separators)
      {
        ProgressFinishes(text, 4 * size, 4 * overlap, separators, 0, |text|);
      }
    } else {
      var text, separators := Divergent(size, overlap);
      assert !Terminates(text, 4 * size, 4 * overlap, separators);
    }
  }

  function Letters(n: nat): (s: Bytes)
    ensures |s| == n && forall i :: 0 <= i < n ==> s[i] == 97
  {
    seq(n, i => 97)
  }

  lemma {:induction false} AsciiWf(s: Bytes)
    requires forall b :: b in s ==> b < 0x80
    ensures Wf(s)
    decreases |s|
  {
    if s != [] {
      assert s[0] in s;
      var rest := s[1..];
      assert forall b :: b in rest ==> b in s;
      AsciiWf(rest);
    }
  }

  /** Letters with one space three quarters into the window: the cut lands right after the
      space and the overlap goes back to the start. */
  lemma {:induction false} Divergent(size: nat, overlap: nat) returns (text: Bytes, separators: seq<Bytes>)
    requires size == 0 || 4 * overlap > 3 * size
    ensures Wf(text) && AllText(separators) && !Blank(text)
    ensures !Terminates(text, 4 * size, 4 * overlap, separators)
  {
    hide *;
    if size == 0 {
      text, separators := EmptyTarget(4 * overlap);
    } else {
      text, separators := SpacedText(size, overlap);
    }
  }

  lemma {:induction false} NeverFinishes(text: Bytes, t: nat, o: nat, separators: seq<Bytes>)
    requires |text| > t
    requires StepAt(text, t, o, separators, 0).Window? && StepAt(text, t, o, separators, 0).next == 0
    ensures !Terminates(text, t, o, separators)
  {
    hide StepAt, Finishes;
    forall fuel: nat
      ensures !Finishes(text, t, o, separators, 0, fuel)
    {
      StuckForever(text, t, o, separators, fuel);
    }
  }

  lemma {:induction false} EmptyTarget(o: nat) returns (text: Bytes, separators: seq<Bytes>)
    ensures Wf(text) && AllText(separators) && !Blank(text)
    ensures !Terminates(text, 0, o, separators)
  {
    hide StepAt, Finishes, Terminates;
    text, separators := Letters(1), [];
    AsciiWf(text);
    assert WhiteLen(text) == 0 && !Blank(text);
    hide *;
    EmptyWindow(o);
    NeverFinishes(text, 0, o, separators);
  }

  lemma {:induction false} SpacedText(size: nat, overlap: nat) returns (text: Bytes, separators: seq<Bytes>)
    requires size >= 1 && 4 * overlap > 3 * size
    ensures Wf(text) && AllText(separators) && !Blank(text)
    ensures !Terminates(text, 4 * size, 4 * overlap, separators)
  {
    text, separators := Letters(3 * size) + [32] + Letters(size), [[32]];
    assert forall i :: 0 <= i < |text| ==> text[i] < 0x80;
    AsciiWf(text);
    AsciiWf([32]);
    assert text[0] == 97 && WhiteLen(text) == 0;
    SpacedCut(size, text);
    hide StepAt, SplitPoint, Floor, Wf, Blank, WhiteLen, Letters, Terminates;
    SpacedStep(size, 4 * overlap, text);
    NeverFinishes(text, 4 * size, 4 * overlap, separators);
  }

  /** A target of nothing cuts nothing. */
  lemma {:induction false} EmptyWindow(o: nat)
    ensures StepAt(Letters(1), 0, o, [], 0) == Window(0, 0, 0)
  {
    assert Letters(1)[0..0] == [];
    assert Floor(Letters(1), 0) == 0;
  }

  lemma {:induction false} SpacedStep(size: nat, o: nat, text: Bytes)
    requires |text| > 4 * size && Floor(text, 4 * size) == 4 * size && o >= 3 * size + 1
    requires SplitPoint(text[..4 * size], 4 * size, [[32]]) == 3 * size + 1
    requires Floor(text, 3 * size + 1) == 3 * size + 1
    ensures StepAt(text, 4 * size, o, [[32]], 0) == Window(0, 3 * size + 1, 0)
  {
    CeilAtBoundary(text, 0);
    hide SplitPoint, Floor, Ceil;
    assert text[0..4 * size] == text[..4 * size];
  }

  lemma {:induction false} SpacedCut(size: nat, text: Bytes)
    requires size >= 1 && text == Letters(3 * size) + [32] + Letters(size)
    ensures Floor(text, 4 * size) == 4 * size && Floor(text, 3 * size + 1) == 3 * size + 1
    ensures SplitPoint(text[..4 * size], 4 * size, [[32]]) == 3 * size + 1
  {
    var t := 4 * size;
    var w := text[..t];
    assert forall i :: 0 <= i < |text| ==> text[i] < 0x80;
    assert Floor(w, t - t / 4) == 3 * size && Floor(w, t) == t;
    var h := w[3 * size..t];
    assert h[0..1] == [32];
    assert MatchesAt(h, [32], 0);
    forall q: nat | q > 0
      ensures !MatchesAt(h, [32], q)
    {
      if q < |h| {
        assert h[q] == 97;
      }
    }
    assert RFind(h, [32]) == Some(0);
  }

  // ─── the chunks ───

  function EndOf(text: Bytes, s: Step): nat {
    if s.Tail? then |text| else s.end
  }

  ghost predicate Follows(text: Bytes, t: nat, o: nat, separators: seq<Bytes>, before: Step, s: Step) {
    before.Window? && s == StepAt(text, t, o, separators, before.next)
  }

  /** Windows one after another from the start of the text. */
  ghost predicate IsRun(text: Bytes, t: nat, o: nat, separators: seq<Bytes>, steps: seq<Step>) {
    && (steps != [] ==> steps[0] == StepAt(text, t, o, separators, 0))
    && forall i {:trigger steps[i]} | 0 < i < |steps| :: Follows(text, t, o, separators, steps[i - 1], steps[i])
  }

  function NextPos(steps: seq<Step>): nat
    requires steps != [] ==> steps[|steps| - 1].Window?
  {
    if steps == [] then 0 else steps[|steps| - 1].next
  }

  /** The pieces kept: windows of at least `min` bytes, and always the tail. */
  function Pieces(text: Bytes, steps: seq<Step>, min: nat): seq<Bytes> {
    if steps == [] then []
    else Pieces(text, steps[..|steps| - 1], min) + PieceOf(text, steps[|steps| - 1], min)
  }

  function PieceOf(text: Bytes, s: Step, min: nat): seq<Bytes> {
    var end := EndOf(text, s);
    if s.start <= end <= |text| && (s.Tail? || end - s.start >= min) then [text[s.start..end]] else []
  }

  lemma {:induction false} RunExtends(text: Bytes, t: nat, o: nat, separators: seq<Bytes>, steps: seq<Step>)
    requires IsRun(text, t, o, separators, steps) && (steps != [] ==> steps[|steps| - 1].Window?)
    ensures IsRun(text, t, o, separators, steps + [StepAt(text, t, o, separators, NextPos(steps))])
  {
    hide StepAt;
    var more := steps + [StepAt(text, t, o, separators, NextPos(steps))];
    forall i | 0 < i < |more|
      ensures Follows(text, t, o, separators, more[i - 1], more[i])
    {
      if i < |steps| {
        assert more[i] == steps[i] && more[i - 1] == steps[i - 1];
      } else {
        assert more[i - 1] == steps[|steps| - 1];
      }
    }
  }

  lemma {:induction false} PiecesExtend(text: Bytes, steps: seq<Step>, s: Step, min: nat)
    ensures Pieces(text, steps + [s], min) == Pieces(text, steps, min) + PieceOf(text, s, min)
  {
    assert (steps + [s])[..|steps|] == steps;
  }

  /** One turn: ceil, test for the tail, cut, step back by the overlap. */
  method NextWindow(text: Bytes, t: nat, o: nat, separators: seq<Bytes>, pos: nat) returns (s: Step)
    ensures s == StepAt(text, t, o, separators, pos)
  {
    hide Floor, Ceil, SplitPoint;
    var start := CeilCharBoundary(text, pos);
    if |text| - start <= t {
      return Tail(start);
    }
    var endPos := FloorCharBoundary(text, start + t);
    var split := FindSplitPoint(text[start..endPos], t, separators);
    var end := FloorCharBoundary(text, start + split);
    var next := CeilCharBoundary(text, if end >= o then end - o else 0);
    if next >= end {
      next := end;
    }
    return Window(start, end, next);
  }

  /** Windows until the tail. A window never reaches the end of the text, so the position always
      stays inside it and only the tail leaves the loop. */
  method SplitTextInternal(text: Bytes, t: nat, o: nat, min: nat, separators: seq<Bytes>)
    returns (chunks: seq<Bytes>, ghost steps: seq<Step>)
    requires Wf(text) && AllText(separators) && Terminates(text, t, o, separators)
    ensures |text| <= t ==> chunks == [text]
    ensures |text| <= t ==> steps == []
    ensures |text| > t ==> IsRun(text, t, o, separators, steps) && steps != [] && steps[|steps| - 1].Tail?
    ensures |text| > t ==> chunks == Pieces(text, steps, min)
  {
    hide *;
    steps := [];
    if |text| <= t {
      return [text], steps;
    }
    chunks := [];
    var pos := 0;
    ghost var fuel := SplittingStart(text, t, o, min, separators);
    while true
      invariant Splitting(text, t, o, min, separators, steps, chunks, pos, fuel)
      decreases fuel
    {
      var s := NextWindow(text, t, o, separators, pos);
      SplittingStep(text, t, o, min, separators, steps, chunks, pos, fuel, s);
      steps := steps + [s];
      if s.Tail? {
        chunks := chunks + [text[s.start..]];
        return;
      }
      var content := text[s.start..s.end];
      if |content| >= min {
        chunks := chunks + [content];
      }
      pos := s.next;
      fuel := fuel - 1;
    }
  }

  /** The run so far, its pieces, and the position the next window starts from. */
  ghost predicate Splitting(text: Bytes, t: nat, o: nat, min: nat, separators: seq<Bytes>, steps: seq<Step>,
                            chunks: seq<Bytes>, pos: nat, fuel: nat)
  {
    && IsRun(text, t, o, separators, steps) && (steps != [] ==> steps[|steps| - 1].Window?) && pos == NextPos(steps)
    && chunks == Pieces(text, steps, min)
    && IsBoundary(text, pos) && pos < |text|
    && Finishes(text, t, o, separators, pos, fuel)
  }

  lemma {:induction false} SplittingStart(text: Bytes, t: nat, o: nat, min: nat, separators: seq<Bytes>)
    returns (fuel: nat)
    requires |text| > t && Terminates(text, t, o, separators)
    ensures Splitting(text, t, o, min, separators, [], [], 0, fuel)
  {
    hide Finishes;
    fuel :| Finishes(text, t, o, separators, 0, fuel);
  }

  lemma {:induction false} SplittingStep(text: Bytes, t: nat, o: nat, min: nat, separators: seq<Bytes>,
                                         steps: seq<Step>, chunks: seq<Bytes>, pos: nat, fuel: nat, s: Step)
    requires Wf(text) && AllText(separators)
    requires Splitting(text, t, o, min, separators, steps, chunks, pos, fuel)
             && s == StepAt(text, t, o, separators, pos)
    ensures s.start <= |text|
    ensures s.Tail? ==> IsRun(text, t, o, separators, steps + [s]) && chunks + [text[s.start..]] == Pieces(text,
            steps + [s], min)
    ensures s.Window? ==> s.start <= s.end <= |text| && fuel > 0
    ensures s.Window? ==>
              Splitting(text, t, o, min, separators, steps + [s],
                        if s.end - s.start >= min then chunks + [text[s.start..s.end]] else chunks, s.next, fuel - 1)
  {
    RunExtends(text, t, o, separators, steps);
    PiecesExtend(text, steps, s, min);
    WindowFacts(text, t, o, separators, pos, s, min);
    FinishesNext(text, t, o, separators, pos, fuel);
    hide StepAt, IsRun, Pieces, PieceOf, IsBoundary, Finishes, Wf, AllText, NextPos;
    if s.Window? {
      LastNext(steps + [s]);
    }
  }

  lemma {:induction false} FinishesNext(text: Bytes, t: nat, o: nat, separators: seq<Bytes>, pos: nat, fuel: nat)
    requires Finishes(text, t, o, separators, pos, fuel)
    ensures var s := StepAt(text, t, o, separators, pos);
            s.Window? ==> fuel > 0 && Finishes(text, t, o, separators, s.next, fuel - 1)
  {
    hide StepAt;
  }

  lemma {:induction false} LastNext(steps: seq<Step>)
    requires steps != [] && steps[|steps| - 1].Window?
    ensures NextPos(steps) == steps[|steps| - 1].next
  {
  }

  lemma {:induction false} WindowFacts(text: Bytes, t: nat, o: nat, separators: seq<Bytes>, pos: nat, s: Step, min: nat)
    requires Wf(text) && AllText(separators) && IsBoundary(text, pos) && pos <= |text|
    requires s == StepAt(text, t, o, separators, pos)
    ensures s.start <= |text|
    ensures s.Tail? ==> PieceOf(text, s, min) == [text[s.start..]]
    ensures s.Window? ==> s.start <= s.end <= |text| && s.next < |text| && IsBoundary(text, s.next)
    ensures s.Window? ==> PieceOf(text, s, min) == if s.end - s.start >= min then [text[s.start..s.end]] else []
  {
    hide StepAt, LeastCut, Wf, AllText, IsBoundary;
    WindowBounds(text, t, o, separators, pos);
    assert text[s.start..|text|] == text[s.start..];
  }

  /** Whitespace gives no chunks; otherwise token sizes become bytes. Called only where the loop ends:
      for `Sane` sizes that is every text. */
  method Chunk(content: Bytes, config: Config) returns (chunks: seq<Bytes>, ghost steps: seq<Step>)
    requires Wf(content) && AllText(config.separators)
    requires Blank(content) || Terminates(content, 4 * config.size, 4 * config.overlap, config.separators)
    ensures Blank(content) ==> chunks == []
    ensures !Blank(content) && |content| <= 4 * config.size ==> chunks == [content]
    ensures !Blank(content) && |content| > 4 * config.size ==>
              && IsRun(content, 4 * config.size, 4 * config.overlap, config.separators, steps)
              && steps != [] && steps[|steps| - 1].Tail?
              && chunks == Pieces(content, steps, 4 * config.min)
  {
    hide *;
    steps := [];
    if Blank(content) {
      return [], steps;
    }
    chunks, steps := SplitTextInternal(content, config.size * 4, config.overlap * 4, config.min * 4, config.separators);
  }

  // ─── what the chunks are ───

  /** Every window of a run meets its bounds, and each starts where the one before said. */
  lemma {:induction false} RunOk(text: Bytes, t: nat, o: nat, separators: seq<Bytes>, steps: seq<Step>, i: nat)
    requires Wf(text) && AllText(separators) && IsRun(text, t, o, separators, steps) && i < |steps|
    ensures IsBoundary(text, steps[i].start)
    ensures WindowOk(text, t, o, steps[i].start, steps[i])
    ensures i == 0 ==> steps[i].start == 0
    ensures i > 0 ==> steps[i - 1].Window? && steps[i].start == steps[i - 1].next <= steps[i - 1].end
    decreases i
  {
    hide StepAt, LeastCut, Wf, AllText;
    if i == 0 {
      WindowBounds(text, t, o, separators, 0);
    } else {
      var before := i - 1;
      RunOk(text, t, o, separators, steps, before);
      assert Follows(text, t, o, separators, steps[before], steps[i]);
      WindowBounds(text, t, o, separators, steps[before].next);
    }
  }

  /** No gap: every byte of the text lies in some window. */
  lemma {:induction false} RunCovers(text: Bytes, t: nat, o: nat, separators: seq<Bytes>, steps: seq<Step>, i: nat,
                                     b: nat)
    returns (at: nat)
    requires Wf(text) && AllText(separators) && IsRun(text, t, o, separators, steps) && i < |steps|
    requires b < EndOf(text, steps[i])
    ensures at <= i && steps[at].start <= b < EndOf(text, steps[at])
    decreases i
  {
    hide StepAt, LeastCut, Wf, AllText, IsRun;
    RunOk(text, t, o, separators, steps, i);
    if steps[i].start <= b {
      at := i;
    } else {
      at := RunCovers(text, t, o, separators, steps, i - 1, b);
    }
  }

  /** Whole characters, and no more than the target. */
  ghost predicate GoodPieces(pieces: seq<Bytes>, t: nat) {
    forall i {:trigger pieces[i]} | 0 <= i < |pieces| :: Wf(pieces[i]) && |pieces[i]| <= t
  }

  /** Every chunk of a run is a valid string of at most the target size, cut out of the text at
      boundaries; the last one is the end of the text. */
  lemma {:induction false} PiecesOk(text: Bytes, t: nat, o: nat, separators: seq<Bytes>, steps: seq<Step>, min: nat,
                                    n: nat)
    requires Wf(text) && AllText(separators) && IsRun(text, t, o, separators, steps) && n <= |steps|
    ensures GoodPieces(Pieces(text, steps[..n], min), t)
    ensures min <= LeastCut(t) ==> |Pieces(text, steps[..n], min)| == n
    decreases n
  {
    if n > 0 {
      PiecesOk(text, t, o, separators, steps, min, n - 1);
      RunOk(text, t, o, separators, steps, n - 1);
      hide *;
      var s := steps[n - 1];
      assert steps[..n] == steps[..n - 1] + [s];
      PiecesExtend(text, steps[..n - 1], s, min);
      OnePiece(text, t, o, s, min);
      PiecesJoin(Pieces(text, steps[..n - 1], min), PieceOf(text, s, min), t);
    }
  }

  lemma {:induction false} PiecesJoin(a: seq<Bytes>, b: seq<Bytes>, t: nat)
    requires GoodPieces(a, t) && GoodPieces(b, t)
    ensures GoodPieces(a + b, t)
  {
    hide Wf;
  }

  /** What one window contributes. */
  lemma {:induction false} OnePiece(text: Bytes, t: nat, o: nat, s: Step, min: nat)
    requires Wf(text) && IsBoundary(text, s.start) && WindowOk(text, t, o, s.start, s)
    ensures GoodPieces(PieceOf(text, s, min), t)
    ensures |PieceOf(text, s, min)| <= 1 && (min <= LeastCut(t) ==> |PieceOf(text, s, min)| == 1)
  {
    hide Wf, LeastCut, IsBoundary;
    EndIsBoundary(text, s);
    SliceWf(text, s.start, EndOf(text, s));
  }

  lemma {:induction false} EndIsBoundary(text: Bytes, s: Step)
    requires s.Window? ==> IsBoundary(text, s.end)
    ensures IsBoundary(text, EndOf(text, s))
  {
  }

  /** With a minimum no larger than the least cut, no piece is dropped: the chunks cover the text. */
  lemma {:induction false} ChunksCover(text: Bytes, t: nat, o: nat, separators: seq<Bytes>, steps: seq<Step>, min: nat,
                                       b: nat)
    returns (at: nat, start: nat, end: nat)
    requires Wf(text) && AllText(separators) && IsRun(text, t, o, separators, steps)
    requires steps != [] && steps[|steps| - 1].Tail? && min <= LeastCut(t) && b < |text|
    ensures at < |Pieces(text, steps, min)| && start <= b < end <= |text|
    ensures Pieces(text, steps, min)[at] == text[start..end]
  {
    hide StepAt, LeastCut, Wf, AllText, IsRun;
    at := RunCovers(text, t, o, separators, steps, |steps| - 1, b);
    PieceAt(text, t, o, separators, steps, min, |steps|, at);
    assert steps[..|steps|] == steps;
    start, end := steps[at].start, EndOf(text, steps[at]);
  }

  lemma {:induction false} PieceAt(text: Bytes, t: nat, o: nat, separators: seq<Bytes>, steps: seq<Step>, min: nat,
                                   n: nat, at: nat)
    requires Wf(text) && AllText(separators) && IsRun(text, t, o, separators, steps) && at < n <= |steps|
    requires min <= LeastCut(t)
    ensures |Pieces(text, steps[..n], min)| == n
    ensures steps[at].start <= EndOf(text, steps[at]) <= |text|
    ensures Pieces(text, steps[..n], min)[at] == text[steps[at].start..EndOf(text, steps[at])]
    decreases n
  {
    hide StepAt, LeastCut, Wf, AllText, IsRun;
    PiecesOk(text, t, o, separators, steps, min, n);
    PiecesOk(text, t, o, separators, steps, min, n - 1);
    RunOk(text, t, o, separators, steps, n - 1);
    assert steps[..n][..n - 1] == steps[..n - 1];
    if at < n - 1 {
      PieceAt(text, t, o, separators, steps, min, n - 1, at);
    }
  }

  lemma {:induction false} PieceIs(text: Bytes, s: Step, min: nat)
    requires s.start <= |text| && (s.Window? ==> s.start <= s.end <= |text|)
    ensures s.Tail? ==> PieceOf(text, s, min) == [text[s.start..]]
    ensures s.Window? ==> PieceOf(text, s, min) == if s.end - s.start >= min then [text[s.start..s.end]] else []
  {
    assert text[s.start..|text|] == text[s.start..];
  }

  /** Which window is kept: one of at least `min` bytes, as the text from its start to its end; a
      shorter one adds nothing; the tail always counts. */
  lemma {:induction false} WindowKept(text: Bytes, t: nat, o: nat, separators: seq<Bytes>, steps: seq<Step>, min: nat,
                                      n: nat)
    requires Wf(text) && AllText(separators) && IsRun(text, t, o, separators, steps) && n < |steps|
    ensures steps[n].start <= |text| && (steps[n].Window? ==> steps[n].start <= steps[n].end <= |text|)
    ensures var before, after, s := Pieces(text, steps[..n], min), Pieces(text, steps[..n + 1], min), steps[n];
            && (s.Tail? ==> after == before + [text[s.start..]])
            && (s.Window? && s.end - s.start >= min ==> after == before + [text[s.start..s.end]])
            && (s.Window? && s.end - s.start < min ==> after == before)
  {
    hide *;
    RunInside(text, t, o, separators, steps, n);
    assert steps[..n + 1] == steps[..n] + [steps[n]];
    PiecesExtend(text, steps[..n], steps[n], min);
    PieceIs(text, steps[n], min);
  }

  lemma {:induction false} RunInside(text: Bytes, t: nat, o: nat, separators: seq<Bytes>, steps: seq<Step>, n: nat)
    requires Wf(text) && AllText(separators) && IsRun(text, t, o, separators, steps) && n < |steps|
    ensures steps[n].start <= |text| && (steps[n].Window? ==> steps[n].start <= steps[n].end <= |text|)
  {
    hide StepAt, LeastCut, Wf, AllText, IsRun, IsBoundary;
    RunOk(text, t, o, separators, steps, n);
  }

  /** The last chunk is the end of the text, however short. */
  lemma {:induction false} LastIsSuffix(text: Bytes, t: nat, o: nat, separators: seq<Bytes>, steps: seq<Step>, min: nat)
    requires Wf(text) && AllText(separators) && IsRun(text, t, o, separators, steps)
    requires steps != [] && steps[|steps| - 1].Tail?
    ensures Pieces(text, steps, min) != []
    ensures steps[|steps| - 1].start <= |text|
    ensures Pieces(text, steps, min)[|Pieces(text, steps, min)| - 1] == text[steps[|steps| - 1].start..]
  {
    hide StepAt, LeastCut, Wf, AllText, IsRun;
    RunOk(text, t, o, separators, steps, |steps| - 1);
  }
}
