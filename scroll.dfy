/** Visible-line selection and auto-scroll of the text body
    (`RenderThread.render_main_text`). Lines are already wrapped and all
    have the same pixel height `h`; `top` is the scroll offset and `area`
    the height of the body strip. */
module Scroll {

  /** Line `i` is shown when its bottom edge is at or below the scroll
      offset and its top edge is at most `area` pixels below it. */
  predicate IsVisible(i: int, h: int, top: int, area: int) {
    (i + 1) * h >= top && i * h - top <= area
  }

  /** The visible lines among the first `n`, in their original order. */
  function VisiblePrefix(lines: seq<string>, n: nat, h: int, top: int, area: int): seq<string>
    requires n <= |lines|
  {
    if n == 0 then []
    else VisiblePrefix(lines, n - 1, h, top, area)
         + (if IsVisible(n - 1, h, top, area) then [lines[n - 1]] else [])
  }

  /** The lines `render_main_text` collects into `display_lines`. */
  function VisibleLines(lines: seq<string>, h: int, top: int, area: int): seq<string> {
    VisiblePrefix(lines, |lines|, h, top, area)
  }

  /** The index of the first visible line at or after `k` and below `n`, or `n` when there is none. */
  function FirstVisibleFrom(k: nat, n: nat, h: int, top: int, area: int): (r: nat)
    requires k <= n
    ensures k <= r <= n
    ensures forall j :: k <= j < r ==> !IsVisible(j, h, top, area)
    ensures r < n ==> IsVisible(r, h, top, area)
    decreases n - k
  {
    if k == n then n
    else if IsVisible(k, h, top, area) then k
    else FirstVisibleFrom(k + 1, n, h, top, area)
  }

  /** The index of the first visible line, or `|lines|` when no line is visible. */
  function FirstVisible(lines: seq<string>, h: int, top: int, area: int): (r: nat)
    ensures r <= |lines|
    ensures forall j :: 0 <= j < r ==> !IsVisible(j, h, top, area)
    ensures r < |lines| ==> IsVisible(r, h, top, area)
  {
    FirstVisibleFrom(0, |lines|, h, top, area)
  }

  /** The index of the first hidden line at or after `k` and below `n`, or `n` when there is none. */
  function FirstHiddenFrom(k: nat, n: nat, h: int, top: int, area: int): (r: nat)
    requires k <= n
    ensures k <= r <= n
    ensures forall j :: k <= j < r ==> IsVisible(j, h, top, area)
    ensures r < n ==> !IsVisible(r, h, top, area)
    decreases n - k
  {
    if k == n then n
    else if !IsVisible(k, h, top, area) then k
    else FirstHiddenFrom(k + 1, n, h, top, area)
  }

  /** Concatenation of lines: the text `render_text` that keys the line cache. */
  function Concat(lines: seq<string>): string {
    if lines == [] then "" else Concat(lines[..|lines| - 1]) + lines[|lines| - 1]
  }

  /** A line shows up in the selection exactly when it is visible, and the
      selection keeps the original order: entry `k` of the selection is the
      `k`-th visible line. Stated as: the selection has one entry per
      visible index below `n`, and each entry comes from a visible line. */
  lemma {:induction false} VisiblePrefixMembers(lines: seq<string>, n: nat, h: int, top: int, area: int, i: nat)
    requires n <= |lines| && i < n
    ensures IsVisible(i, h, top, area) ==>
      |VisiblePrefix(lines, i, h, top, area)| < |VisiblePrefix(lines, n, h, top, area)|
    ensures IsVisible(i, h, top, area) ==>
      lines[i] == VisiblePrefix(lines, n, h, top, area)[|VisiblePrefix(lines, i, h, top, area)|]
  {
    if i < n - 1 {
      VisiblePrefixMembers(lines, n - 1, h, top, area, i);
    }
  }

  /** Every selected line is a visible line of the input, and the selected
      lines appear in increasing index order. */
  lemma {:induction false} VisiblePrefixSources(lines: seq<string>, n: nat, h: int, top: int, area: int, k: nat)
    requires n <= |lines| && k < |VisiblePrefix(lines, n, h, top, area)|
    ensures exists i :: (0 <= i < n && IsVisible(i, h, top, area)
      && |VisiblePrefix(lines, i, h, top, area)| == k && VisiblePrefix(lines, n, h, top, area)[k] == lines[i])
  {
    var prev := VisiblePrefix(lines, n - 1, h, top, area);
    if k < |prev| {
      VisiblePrefixSources(lines, n - 1, h, top, area, k);
      var i :| 0 <= i < n - 1 && IsVisible(i, h, top, area)
        && |VisiblePrefix(lines, i, h, top, area)| == k && prev[k] == lines[i];
      assert VisiblePrefix(lines, n, h, top, area)[k] == prev[k];
    } else {
      assert IsVisible(n - 1, h, top, area) && k == |prev|;
    }
  }

  /** Multiplying by a positive line height keeps the order of indices. */
  lemma ScaleMonotone(h: int, i: int, j: int)
    requires h > 0 && i <= j
    ensures i * h <= j * h && (i + 1) * h <= (j + 1) * h
  {
  }

  /** With a positive line height, the visible lines have no gaps: every
      index between two visible indices is visible too. */
  lemma VisibleContiguous(h: int, top: int, area: int, i: int, j: int, k: int)
    requires h > 0 && i <= j <= k
    requires IsVisible(i, h, top, area) && IsVisible(k, h, top, area)
    ensures IsVisible(j, h, top, area)
  {
    ScaleMonotone(h, i, j);
    ScaleMonotone(h, j, k);
  }

  /** When visibility is exactly the index range `lo..hi`, the selection among
      the first `n` lines is that range clipped to `n`. */
  lemma {:induction false} VisiblePrefixIsSlice(lines: seq<string>, n: nat, h: int, top: int, area: int, lo: nat, hi: nat)
    requires n <= |lines| && lo <= hi <= |lines|
    requires forall i :: 0 <= i < |lines| ==> (IsVisible(i, h, top, area) <==> lo <= i < hi)
    ensures VisiblePrefix(lines, n, h, top, area) ==
      lines[(if n < lo then n else lo)..(if n < hi then n else hi)]
  {
    if n > 0 {
      VisiblePrefixIsSlice(lines, n - 1, h, top, area, lo, hi);
      if lo <= n - 1 < hi {
        var a := if n - 1 < lo then n - 1 else lo;
        assert lines[a..n] == lines[a..n - 1] + [lines[n - 1]];
      }
    }
  }

  /** With a positive line height the selection is one contiguous slice
      `lines[lo..hi]` of the wrapped lines, starting at the first visible
      line, and line `i` is selected exactly when `lo <= i < hi`. */
  lemma VisibleLinesSlice(lines: seq<string>, h: int, top: int, area: int)
    requires h > 0
    ensures var lo := FirstVisible(lines, h, top, area);
      var hi := FirstHiddenFrom(lo, |lines|, h, top, area);
      && VisibleLines(lines, h, top, area) == lines[lo..hi]
      && (forall i :: 0 <= i < |lines| ==> (IsVisible(i, h, top, area) <==> lo <= i < hi))
  {
    var n := |lines|;
    var lo := FirstVisible(lines, h, top, area);
    var hi := FirstHiddenFrom(lo, n, h, top, area);
    forall i | 0 <= i < n
      ensures IsVisible(i, h, top, area) <==> lo <= i < hi
    {
      if hi <= i && IsVisible(i, h, top, area) {
        VisibleContiguous(h, top, area, lo, hi, i);
      }
    }
    VisiblePrefixIsSlice(lines, n, h, top, area, lo, hi);
  }

  /** The selection loop of `render_main_text`: collects the visible lines
      in order and adds one line height to `renderY` for every line before
      the first visible one. */
  method SelectVisible(lines: seq<string>, h: int, top: int, area: int)
    returns (displayLines: seq<string>, renderY: int)
    ensures displayLines == VisibleLines(lines, h, top, area)
    ensures renderY == h * FirstVisible(lines, h, top, area)
  {
    displayLines := [];
    renderY := 0;
    var finShowLines := false;
    var i := 0;
    while i < |lines|
      invariant 0 <= i <= |lines|
      invariant displayLines == VisiblePrefix(lines, i, h, top, area)
      invariant finShowLines <==> FirstVisible(lines, h, top, area) < i
      invariant !finShowLines ==> renderY == h * i
      invariant finShowLines ==> renderY == h * FirstVisible(lines, h, top, area)
    {
      if IsVisible(i, h, top, area) {
        displayLines := displayLines + [lines[i]];
        finShowLines := true;
      } else if !finShowLines {
        renderY := renderY + h;
      }
      i := i + 1;
    }
  }

  /** The bound the scroll offset is advanced towards: one line past the end
      of the text, less the body height. */
  function ScrollBound(lineCount: nat, h: int, area: int): int {
    (lineCount + 1) * h - area
  }

  /** The auto-scroll step at the end of `render_main_text`. */
  function NextScroll(top: int, speed: int, lineCount: nat, h: int, area: int): (r: int)
    ensures r >= top
    ensures r != top <==> speed > 0 && top < ScrollBound(lineCount, h, area)
    ensures r != top ==> r == top + speed
    ensures r > top ==> r < ScrollBound(lineCount, h, area) + speed
  {
    if speed > 0 && top < ScrollBound(lineCount, h, area) then top + speed else top
  }

  /** The offset after `ticks` frames with the same text. */
  function ScrollAfter(top: int, speed: int, lineCount: nat, h: int, area: int, ticks: nat): int {
    if ticks == 0 then top
    else NextScroll(ScrollAfter(top, speed, lineCount, h, area, ticks - 1), speed, lineCount, h, area)
  }

  /** Over any number of frames the offset never decreases, and once it
      starts at or below the bound it stays under bound + speed: it may
      overshoot the bound by at most `speed - 1` pixels, and it stops. */
  lemma {:induction false} ScrollAfterBounds(top: int, speed: int, lineCount: nat, h: int, area: int, ticks: nat)
    requires speed > 0 && top < ScrollBound(lineCount, h, area) + speed
    ensures top <= ScrollAfter(top, speed, lineCount, h, area, ticks)
    ensures ScrollAfter(top, speed, lineCount, h, area, ticks) < ScrollBound(lineCount, h, area) + speed
  {
    if ticks > 0 {
      ScrollAfterBounds(top, speed, lineCount, h, area, ticks - 1);
    }
  }

  /** Earlier frames never have a larger offset than later ones. */
  lemma {:induction false} ScrollMonotone(top: int, speed: int, lineCount: nat, h: int, area: int, t1: nat, t2: nat)
    requires t1 <= t2
    ensures ScrollAfter(top, speed, lineCount, h, area, t1) <= ScrollAfter(top, speed, lineCount, h, area, t2)
    decreases t2
  {
    if t1 < t2 {
      ScrollMonotone(top, speed, lineCount, h, area, t1, t2 - 1);
    }
  }

  /** Once the offset stops moving it never moves again. */
  lemma {:induction false} ScrollStops(top: int, speed: int, lineCount: nat, h: int, area: int, t: nat, u: nat)
    requires t <= u
    requires NextScroll(ScrollAfter(top, speed, lineCount, h, area, t), speed, lineCount, h, area)
             == ScrollAfter(top, speed, lineCount, h, area, t)
    ensures ScrollAfter(top, speed, lineCount, h, area, u) == ScrollAfter(top, speed, lineCount, h, area, t)
    decreases u - t
  {
    if t < u {
      ScrollStops(top, speed, lineCount, h, area, t + 1, u);
    }
  }
}
