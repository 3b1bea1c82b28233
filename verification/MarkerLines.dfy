/** Grouping OCR markers into reading lines (agent/runtime/detail_runtime.py). */
module MarkerLines {
  import opened Prelude
  import opened StableSort

  datatype Marker = Marker(id: int, text: string, left: int, top: int, right: int, bottom: int, icon: bool)

  function CenterY(m: Marker): real { (m.top + m.bottom) as real / 2.0 }

  // ------------------------------------------------------------------ grouping by y

  function ByCenter(): (Marker, Marker) -> bool {
    (a: Marker, b: Marker) => CenterY(a) < CenterY(b) || (CenterY(a) == CenterY(b) && a.left <= b.left)
  }

  /** One line under construction; `center` is the running mean the code keeps. */
  datatype YLine = YLine(center: real, markers: seq<Marker>)

  predicate Near(line: YLine, y: real, tolerance: real) {
    -tolerance <= y - line.center <= tolerance
  }

  function FirstNear(lines: seq<YLine>, y: real, tolerance: real): (r: Option<nat>)
    ensures r.Some? ==> r.value < |lines| && Near(lines[r.value], y, tolerance)
    ensures r.Some? ==> forall i :: 0 <= i < r.value ==> !Near(lines[i], y, tolerance)
    ensures r.None? ==> forall i :: 0 <= i < |lines| ==> !Near(lines[i], y, tolerance)
  {
    if lines == [] then None
    else if Near(lines[0], y, tolerance) then Some(0)
    else
      var r := FirstNear(lines[1..], y, tolerance);
      assert forall i :: 0 < i < |lines| ==> lines[i] == lines[1..][i - 1];
      if r.Some? then Some(r.value + 1) else None
  }

  function Joined(line: YLine, m: Marker): YLine {
    var count := |line.markers| + 1;
    YLine((line.center * (count - 1) as real + CenterY(m)) / count as real, line.markers + [m])
  }

  function PlaceMarker(lines: seq<YLine>, m: Marker, tolerance: real): seq<YLine> {
    match FirstNear(lines, CenterY(m), tolerance)
    case None => lines + [YLine(CenterY(m), [m])]
    case Some(i) => lines[i := Joined(lines[i], m)]
  }

  function YLines(ordered: seq<Marker>, tolerance: real): seq<YLine> {
    if ordered == [] then []
    else PlaceMarker(YLines(ordered[..|ordered| - 1], tolerance), ordered[|ordered| - 1], tolerance)
  }

  /** The search for the first line close enough. */
  method FindLine(lines: seq<YLine>, y: real, tolerance: real) returns (found: Option<nat>)
    ensures found == FirstNear(lines, y, tolerance)
  {
    var i := 0;
    while i < |lines|
      invariant 0 <= i <= |lines|
      invariant forall j :: 0 <= j < i ==> !Near(lines[j], y, tolerance)
    {
      if Near(lines[i], y, tolerance) { return Some(i); }
      i := i + 1;
    }
    return None;
  }

  /** `_group_markers_by_y` */
  method GroupMarkersByY(markers: seq<Marker>, tolerance: real) returns (groups: seq<seq<Marker>>)
    ensures groups == MarkersOf(YLines(Sort(ByCenter(), markers), tolerance))
  {
    var ordered := Sort(ByCenter(), markers);
    var lines: seq<YLine> := [];
    for k := 0 to |ordered|
      invariant lines == YLines(ordered[..k], tolerance)
    {
      assert ordered[..k + 1][..k] == ordered[..k];
      var matched := FindLine(lines, CenterY(ordered[k]), tolerance);
      if matched.None? {
        lines := lines + [YLine(CenterY(ordered[k]), [ordered[k]])];
      } else {
        lines := lines[matched.value := Joined(lines[matched.value], ordered[k])];
      }
    }
    assert ordered[..|ordered|] == ordered;
    groups := MarkersOf(lines);
  }

  function MarkersOf(lines: seq<YLine>): seq<seq<Marker>> {
    seq(|lines|, i requires 0 <= i < |lines| => lines[i].markers)
  }

  function SumCenters(markers: seq<Marker>): real {
    if markers == [] then 0.0 else SumCenters(markers[..|markers| - 1]) + CenterY(markers[|markers| - 1])
  }

  /** The running value is the mean of the members' centers, exactly. */
  ghost predicate IsMean(line: YLine) {
    line.markers != [] && line.center * |line.markers| as real == SumCenters(line.markers)
  }

  ghost predicate AllMeans(lines: seq<YLine>) { forall i :: 0 <= i < |lines| ==> IsMean(lines[i]) }

  lemma DivideBack(x: real, n: real)
    requires n > 0.0
    ensures x / n * n == x
  {}

  lemma JoinedIsMean(line: YLine, m: Marker)
    requires IsMean(line)
    ensures IsMean(Joined(line, m))
  {
    var count := |line.markers| + 1;
    var r := Joined(line, m);
    assert r.markers[..|r.markers| - 1] == line.markers;
    DivideBack(line.center * (count - 1) as real + CenterY(m), count as real);
  }

  lemma SingletonIsMean(m: Marker)
    ensures IsMean(YLine(CenterY(m), [m]))
  {
    assert [m][..0] == [];
    assert SumCenters([m]) == SumCenters([]) + CenterY(m);
  }

  ghost function LineMarkers(lines: seq<YLine>): multiset<Marker> {
    if lines == [] then multiset{}
    else LineMarkers(lines[..|lines| - 1]) + multiset(lines[|lines| - 1].markers)
  }

  lemma {:induction false} LineMarkersUpdate(lines: seq<YLine>, i: nat, line: YLine, m: Marker)
    requires i < |lines| && line.markers == lines[i].markers + [m]
    ensures LineMarkers(lines[i := line]) == LineMarkers(lines) + multiset{m}
    decreases |lines|
  {
    var n := |lines| - 1;
    var updated := lines[i := line];
    if i < n {
      assert updated[..n] == lines[..n][i := line];
      LineMarkersUpdate(lines[..n], i, line, m);
    } else {
      assert updated[..n] == lines[..n];
    }
  }

  lemma PlacedOnce(lines: seq<YLine>, m: Marker, tolerance: real)
    ensures LineMarkers(PlaceMarker(lines, m, tolerance)) == LineMarkers(lines) + multiset{m}
  {
    match FirstNear(lines, CenterY(m), tolerance)
    case None =>
      assert (lines + [YLine(CenterY(m), [m])])[..|lines|] == lines;
    case Some(i) =>
      LineMarkersUpdate(lines, i, Joined(lines[i], m), m);
  }

  /** A marker joins a line whose mean it is close to, and only opens a line when no mean is. */
  lemma PlacedNearMean(lines: seq<YLine>, m: Marker, tolerance: real)
    requires AllMeans(lines)
    ensures AllMeans(PlaceMarker(lines, m, tolerance))
    ensures |PlaceMarker(lines, m, tolerance)| > |lines| <==>
      forall i :: 0 <= i < |lines| ==> !Near(lines[i], CenterY(m), tolerance)
  {
    match FirstNear(lines, CenterY(m), tolerance)
    case None => SingletonIsMean(m);
    case Some(i) => JoinedIsMean(lines[i], m);
  }

  lemma YLinesStep(ordered: seq<Marker>, tolerance: real)
    requires ordered != []
    ensures YLines(ordered, tolerance) ==
      PlaceMarker(YLines(ordered[..|ordered| - 1], tolerance), ordered[|ordered| - 1], tolerance)
  {}

  lemma PlacedAfter(lines: seq<YLine>, front: seq<Marker>, last: Marker, tolerance: real)
    requires LineMarkers(lines) == multiset(front)
    ensures LineMarkers(PlaceMarker(lines, last, tolerance)) == multiset(front + [last])
  {
    PlacedOnce(lines, last, tolerance);
  }

  lemma {:induction false} GroupingKeepsMarkers(ordered: seq<Marker>, tolerance: real)
    ensures LineMarkers(YLines(ordered, tolerance)) == multiset(ordered)
  {
    if ordered != [] {
      var front, last := ordered[..|ordered| - 1], ordered[|ordered| - 1];
      assert ordered == front + [last];
      var lines := YLines(front, tolerance);
      GroupingKeepsMarkers(front, tolerance);
      PlacedAfter(lines, front, last, tolerance);
      YLinesStep(ordered, tolerance);
    }
  }

  lemma {:induction false} GroupingKeepsMeans(ordered: seq<Marker>, tolerance: real)
    ensures AllMeans(YLines(ordered, tolerance))
  {
    if ordered != [] {
      var front, last := ordered[..|ordered| - 1], ordered[|ordered| - 1];
      var lines := YLines(front, tolerance);
      GroupingKeepsMeans(front, tolerance);
      PlacedNearMean(lines, last, tolerance);
      YLinesStep(ordered, tolerance);
    }
  }

  /**
   Grouping loses and repeats no marker, and every group's center is the exact
   mean of its members' centers.
   */
  lemma GroupingPartitions(ordered: seq<Marker>, tolerance: real)
    ensures var lines := YLines(ordered, tolerance);
      LineMarkers(lines) == multiset(ordered) && AllMeans(lines)
  {
    GroupingKeepsMarkers(ordered, tolerance);
    GroupingKeepsMeans(ordered, tolerance);
  }

  lemma ByCenterIsOrder()
    ensures TotalPreorder(ByCenter())
  {}

  // ---------------------------------------------------------------- inline segments

  function ByLeft(): (Marker, Marker) -> bool { (a: Marker, b: Marker) => a.left <= b.left }

  function Max(a: int, b: int): int { if a >= b then a else b }

  /** The right edge the code carries on: an edge at 0 counts as no edge. */
  function CarriedRight(ordered: seq<Marker>): (r: int)
    requires ordered != []
  {
    var right := ordered[|ordered| - 1].right;
    if |ordered| == 1 then right
    else
      var before := CarriedRight(ordered[..|ordered| - 1]);
      Max(if before == 0 then right else before, right)
  }

  /** A new segment starts at position i. */
  predicate StartsSegment(ordered: seq<Marker>, i: nat, gap: int)
    requires i < |ordered|
  {
    i == 0 || ordered[i].left - CarriedRight(ordered[..i]) > gap
  }

  function Segments(ordered: seq<Marker>, gap: int): (r: seq<seq<Marker>>)
    ensures ordered != [] ==> r != []
  {
    if ordered == [] then []
    else
      var n := |ordered| - 1;
      var before := Segments(ordered[..n], gap);
      if StartsSegment(ordered, n, gap) then before + [[ordered[n]]]
      else before[|before| - 1 := before[|before| - 1] + [ordered[n]]]
  }

  /** `_split_inline_segments` */
  method SplitInlineSegments(markers: seq<Marker>, gap: int) returns (segments: seq<seq<Marker>>)
    ensures segments == Segments(Sort(ByLeft(), markers), gap)
  {
    var ordered := Sort(ByLeft(), markers);
    segments := [];
    var current: seq<Marker> := [];
    var previousRight: Option<int> := None;
    for i := 0 to |ordered|
      invariant i == 0 <==> current == []
      invariant i == 0 <==> previousRight.None?
      invariant i == 0 ==> segments == []
      invariant i > 0 ==> segments + [current] == Segments(ordered[..i], gap)
      invariant i > 0 ==> previousRight == Some(CarriedRight(ordered[..i]))
    {
      var m := ordered[i];
      ghost var prefix, before := ordered[..i + 1], segments + [current];
      assert prefix[..i] == ordered[..i];
      if current != [] && previousRight.Some? && m.left - previousRight.value > gap {
        segments := segments + [current];
        current := [];
      }
      assert current == [] ==> current + [m] == [m];
      current := current + [m];
      assert i > 0 && StartsSegment(prefix, i, gap) ==> segments + [current] == before + [[m]];
      assert i > 0 && !StartsSegment(prefix, i, gap) ==>
        segments + [current] == before[|before| - 1 := before[|before| - 1] + [m]];
      previousRight := Some(Max(
        if previousRight.None? || previousRight.value == 0 then m.right else previousRight.value, m.right));
    }
    assert ordered[..|ordered|] == ordered;
    if current != [] { segments := segments + [current]; }
  }

  function Concat(segments: seq<seq<Marker>>): seq<Marker> {
    if segments == [] then [] else Concat(segments[..|segments| - 1]) + segments[|segments| - 1]
  }

  /** Where segment k begins in the line. */
  function Start(segments: seq<seq<Marker>>, k: nat): nat
    requires k <= |segments|
  {
    |Concat(segments[..k])|
  }

  ghost predicate IsStart(segments: seq<seq<Marker>>, i: nat) {
    exists k :: 0 <= k < |segments| && Start(segments, k) == i
  }

  lemma SegmentsStep(ordered: seq<Marker>, gap: int)
    requires ordered != []
    ensures var n := |ordered| - 1;
      var before, after := Segments(ordered[..n], gap), Segments(ordered, gap);
      && Extends(before, after, ordered[n])
      && (StartsSegment(ordered, n, gap) <==> |after| == |before| + 1)
  {}

  lemma ConcatExtend(segments: seq<seq<Marker>>, m: Marker)
    ensures Concat(segments + [[m]]) == Concat(segments) + [m]
    ensures segments != [] ==>
      Concat(segments[|segments| - 1 := segments[|segments| - 1] + [m]]) == Concat(segments) + [m]
  {
    assert (segments + [[m]])[..|segments|] == segments;
    if segments != [] {
      var last := |segments| - 1;
      assert segments[last := segments[last] + [m]][..last] == segments[..last];
    }
  }

  ghost predicate AllNonEmpty(segments: seq<seq<Marker>>) {
    forall k :: 0 <= k < |segments| ==> segments[k] != []
  }

  /** `after` is `before` with one more marker, in its last segment or in a new one. */
  ghost predicate Extends(before: seq<seq<Marker>>, after: seq<seq<Marker>>, m: Marker) {
    after == before + [[m]] || (before != [] && after == before[|before| - 1 := before[|before| - 1] + [m]])
  }

  lemma ExtendsKeeps(before: seq<seq<Marker>>, after: seq<seq<Marker>>, m: Marker)
    requires Extends(before, after, m) && AllNonEmpty(before)
    ensures Concat(after) == Concat(before) + [m] && AllNonEmpty(after)
    ensures forall k :: 0 <= k < |before| ==> after[..k] == before[..k]
  {
    ConcatExtend(before, m);
  }

  /** Splitting keeps the line as it is, in non-empty segments. */
  lemma {:induction false} SegmentsConcatenate(ordered: seq<Marker>, gap: int)
    ensures Concat(Segments(ordered, gap)) == ordered
    ensures AllNonEmpty(Segments(ordered, gap))
  {
    if ordered != [] {
      var front, last := ordered[..|ordered| - 1], ordered[|ordered| - 1];
      assert ordered == front + [last];
      SegmentsConcatenate(front, gap);
      SegmentsStep(ordered, gap);
      ExtendsKeeps(Segments(front, gap), Segments(ordered, gap), last);
    }
  }

  /** ... and cuts exactly at the wide gaps. */
  lemma {:induction false} SegmentsCutAtGaps(ordered: seq<Marker>, gap: int, i: nat)
    requires i < |ordered|
    ensures Concat(Segments(ordered, gap)) == ordered
    ensures IsStart(Segments(ordered, gap), i) <==> StartsSegment(ordered, i, gap)
    decreases |ordered|
  {
    var n := |ordered| - 1;
    var front := ordered[..n];
    SegmentsConcatenate(front, gap);
    SegmentsConcatenate(ordered, gap);
    SegmentsStep(ordered, gap);
    if i < n {
      SegmentsCutAtGaps(front, gap, i);
      assert front[..i] == ordered[..i] && front[i] == ordered[i];
    }
    StartsExtend(Segments(front, gap), Segments(ordered, gap), ordered[n], StartsSegment(ordered, n, gap), i);
  }

  lemma StartsExtend(before: seq<seq<Marker>>, after: seq<seq<Marker>>, m: Marker, opens: bool, i: nat)
    requires AllNonEmpty(before) && Extends(before, after, m) && (opens <==> |after| == |before| + 1)
    ensures i < |Concat(before)| ==> (IsStart(after, i) <==> IsStart(before, i))
    ensures i == |Concat(before)| ==> (IsStart(after, i) <==> opens)
  {
    ExtendsKeeps(before, after, m);
    StartsAreBelow(before, |Concat(before)|);
    StartsOf(before, after, i);
  }

  /** Extending the last segment, or opening one, changes the starts accordingly. */
  lemma StartsOf(before: seq<seq<Marker>>, after: seq<seq<Marker>>, i: nat)
    requires |before| <= |after| <= |before| + 1
    requires forall k :: 0 <= k < |before| ==> after[..k] == before[..k]
    requires |after| == |before| + 1 ==> after[..|before|] == before
    ensures IsStart(after, i) <==> IsStart(before, i) || (|after| == |before| + 1 && i == |Concat(before)|)
  {
    assert forall k :: 0 <= k < |before| ==> Start(after, k) == Start(before, k);
    if |after| == |before| + 1 { assert Start(after, |before|) == |Concat(before)|; }
  }

  lemma {:induction false} StartsAreBelow(segments: seq<seq<Marker>>, n: nat)
    requires AllNonEmpty(segments)
    requires n >= |Concat(segments)|
    ensures !IsStart(segments, n)
  {
    if segments != [] {
      var front := segments[..|segments| - 1];
      assert forall k :: 0 <= k < |front| ==> front[k] == segments[k];
      StartsAreBelow(front, n);
      assert forall k :: 0 <= k <= |front| ==> front[..k] == segments[..k];
      assert forall k :: 0 <= k < |front| ==> Start(front, k) == Start(segments, k);
      assert Start(segments, |front|) == |Concat(front)|;
    }
  }

  function MaxRight(ordered: seq<Marker>): int
    requires ordered != []
  {
    if |ordered| == 1 then ordered[0].right
    else Max(MaxRight(ordered[..|ordered| - 1]), ordered[|ordered| - 1].right)
  }

  /** The carried edge is the running maximum, except when that is 0 and the last edge is left of it. */
  lemma {:induction false} CarriedRightIsMaxIff(ordered: seq<Marker>)
    requires ordered != []
    ensures CarriedRight(ordered) <= MaxRight(ordered)
    ensures CarriedRight(ordered) == MaxRight(ordered) <==>
      !(MaxRight(ordered) == 0 && ordered[|ordered| - 1].right < 0)
  {
    if |ordered| > 1 { CarriedRightIsMaxIff(ordered[..|ordered| - 1]); }
  }

  /** The largest right edge before position i is 0 and the last one is left of it. */
  predicate EdgeForgotten(ordered: seq<Marker>, i: nat)
    requires 0 < i < |ordered|
  {
    MaxRight(ordered[..i]) == 0 && ordered[i - 1].right < 0
  }

  /**
   So a segment starts exactly where everything before ends further left than
   the gap; only where the edge was forgotten a smaller distance from the
   largest edge is enough.
   */
  lemma SegmentsCutAtWideGaps(ordered: seq<Marker>, gap: int, i: nat)
    requires 0 < i < |ordered|
    ensures var wide := ordered[i].left - MaxRight(ordered[..i]) > gap;
      && (wide ==> IsStart(Segments(ordered, gap), i))
      && (!EdgeForgotten(ordered, i) ==> (IsStart(Segments(ordered, gap), i) <==> wide))
  {
    SegmentsCutAtGaps(ordered, gap, i);
    CarriedRightIsMaxIff(ordered[..i]);
  }

  /** The input: an edge at 0 followed by one left of the screen. */
  lemma CarriedRightForgetsZero(a: Marker, b: Marker)
    requires a.right == 0 && b.right < 0
    ensures CarriedRight([a, b]) == b.right < MaxRight([a, b])
  {
    assert [a, b][..1] == [a];
  }

  // --------------------------------------------------------------------- text lines

  /** `join` is the text of a segment, "" when nothing readable is in it. */
  datatype TextLine = TextLine(text: string, ids: seq<int>, left: int, top: int, right: int, bottom: int)

  type Joiner = seq<Marker> -> string

  function MinOf(segment: seq<Marker>, f: Marker -> int): int
    requires segment != []
  {
    if |segment| == 1 then f(segment[0])
    else
      var rest := MinOf(segment[..|segment| - 1], f);
      if f(segment[|segment| - 1]) < rest then f(segment[|segment| - 1]) else rest
  }

  function MarkerIds(segment: seq<Marker>): seq<int> {
    seq(|segment|, i requires 0 <= i < |segment| => segment[i].id)
  }

  /** A marker without a box has the box 0, 0, 0, 0. */
  predicate HasBox(m: Marker) { !(m.left == 0 && m.top == 0 && m.right == 0 && m.bottom == 0) }

  function Boxed(segment: seq<Marker>): (r: seq<Marker>)
    ensures forall m :: m in r <==> m in segment && HasBox(m)
  {
    if segment == [] then []
    else
      var last := segment[|segment| - 1];
      assert segment == segment[..|segment| - 1] + [last];
      Boxed(segment[..|segment| - 1]) + if HasBox(last) then [last] else []
  }

  /** `_compacted_marker_line` and `line_bbox` */
  function CompactedLine(join: Joiner, segment: seq<Marker>): TextLine {
    var boxed := Boxed(segment);
    if boxed == [] then TextLine(join(segment), MarkerIds(segment), 0, 0, 0, 0)
    else
      TextLine(join(segment), MarkerIds(segment),
               MinOf(boxed, (m: Marker) => m.left), MinOf(boxed, (m: Marker) => m.top),
               -MinOf(boxed, (m: Marker) => -m.right), -MinOf(boxed, (m: Marker) => -m.bottom))
  }

  function ReadingOrder(): (TextLine, TextLine) -> bool {
    (a: TextLine, b: TextLine) => a.top < b.top || (a.top == b.top && a.left <= b.left)
  }

  /** Every group, from left to right, split at its wide gaps. */
  function LineSegments(lines: seq<YLine>, gap: int): seq<seq<Marker>> {
    if lines == [] then []
    else
      LineSegments(lines[..|lines| - 1], gap) + Segments(Sort(ByLeft(), lines[|lines| - 1].markers), gap)
  }

  method SplitGroups(lines: seq<YLine>, gap: int) returns (segments: seq<seq<Marker>>)
    ensures segments == LineSegments(lines, gap)
    ensures multiset(Concat(segments)) == LineMarkers(lines)
    ensures forall k :: 0 <= k < |segments| ==> segments[k] != []
  {
    segments := [];
    for i := 0 to |lines|
      invariant segments == LineSegments(lines[..i], gap)
      invariant multiset(Concat(segments)) == LineMarkers(lines[..i])
      invariant forall k :: 0 <= k < |segments| ==> segments[k] != []
    {
      var split := SplitInlineSegments(lines[i].markers, gap);
      SplitKeepsMarkers(lines[i].markers, gap);
      assert lines[..i + 1][..i] == lines[..i];
      ConcatAppend(segments, split);
      segments := segments + split;
    }
    assert lines[..|lines|] == lines;
  }

  method CompactSegments(join: Joiner, segments: seq<seq<Marker>>) returns (lines: seq<TextLine>)
    requires forall k :: 0 <= k < |segments| ==> segments[k] != []
    ensures lines == Readable(join, segments)
  {
    lines := [];
    for i := 0 to |segments|
      invariant lines == Readable(join, segments[..i])
    {
      assert segments[..i + 1][..i] == segments[..i];
      if join(segments[i]) != "" { lines := lines + [CompactedLine(join, segments[i])]; }
    }
    assert segments[..|segments|] == segments;
  }

  /** Markers with text that are not icons. */
  function TextMarkers(markers: seq<Marker>): seq<Marker> {
    if markers == [] then []
    else
      var last := markers[|markers| - 1];
      TextMarkers(markers[..|markers| - 1]) + if last.text != "" && !last.icon then [last] else []
  }

  function Heights(markers: seq<Marker>): seq<int> {
    seq(|markers|, i requires 0 <= i < |markers| => Max(1, markers[i].bottom - markers[i].top))
  }

  function Ascending(): (int, int) -> bool { (a: int, b: int) => a <= b }

  function MedianHeight(markers: seq<Marker>): int
    requires markers != []
  {
    SortIsSorted(Ascending(), Heights(markers));
    Sort(Ascending(), Heights(markers))[|markers| / 2]
  }

  function Tolerance(height: int): real { Max(8, -Max(-24, -(height * 7 / 10))) as real }

  function InlineGap(height: int): int { Max(160, height * 8) }

  /** The text markers by y-lines, and these by wide gaps. */
  function TextSegments(markers: seq<Marker>): seq<seq<Marker>> {
    var shown := TextMarkers(markers);
    if shown == [] then []
    else
      var height := MedianHeight(shown);
      LineSegments(YLines(Sort(ByCenter(), shown), Tolerance(height)), InlineGap(height))
  }

  /**
   `group_text_markers_into_lines`: the text markers grouped, split, compacted,
   and put in reading order, with limits taken from their median height.
   */
  method TextLines(markers: seq<Marker>, join: Joiner)
    returns (lines: seq<TextLine>, ghost segments: seq<seq<Marker>>)
    ensures segments == TextSegments(markers)
    ensures multiset(Concat(segments)) == multiset(TextMarkers(markers))
    ensures forall k :: 0 <= k < |segments| ==> segments[k] != []
    ensures Sorted(ReadingOrder(), lines)
    ensures lines == Sort(ReadingOrder(), Readable(join, segments))
    ensures multiset(lines) == multiset(Readable(join, segments))
  {
    var shown := TextMarkers(markers);
    if shown == [] { return [], []; }
    var tolerance := Tolerance(MedianHeight(shown));
    var ordered := Sort(ByCenter(), shown);
    ByCenterIsOrder();
    SortIsSorted(ByCenter(), shown);
    GroupingPartitions(ordered, tolerance);
    var split := SplitGroups(YLines(ordered, tolerance), InlineGap(MedianHeight(shown)));
    segments := split;
    var compacted := CompactSegments(join, split);
    assert TotalPreorder(ReadingOrder());
    SortIsSorted(ReadingOrder(), compacted);
    lines := Sort(ReadingOrder(), compacted);
  }

  /** The lines of the segments that have text, in segment order. */
  function Readable(join: Joiner, segments: seq<seq<Marker>>): seq<TextLine>
    requires forall k :: 0 <= k < |segments| ==> segments[k] != []
  {
    if segments == [] then []
    else
      var last := segments[|segments| - 1];
      Readable(join, segments[..|segments| - 1]) + if join(last) != "" then [CompactedLine(join, last)] else []
  }

  lemma {:induction false} ConcatAppend(a: seq<seq<Marker>>, b: seq<seq<Marker>>)
    ensures Concat(a + b) == Concat(a) + Concat(b)
  {
    if b == [] {
      assert a + b == a;
    } else {
      assert (a + b)[..|a + b| - 1] == a + b[..|b| - 1];
      ConcatAppend(a, b[..|b| - 1]);
    }
  }

  lemma SplitKeepsMarkers(markers: seq<Marker>, gap: int)
    ensures var segments := Segments(Sort(ByLeft(), markers), gap);
      multiset(Concat(segments)) == multiset(markers) && forall k :: 0 <= k < |segments| ==> segments[k] != []
  {
    assert TotalPreorder(ByLeft());
    SortIsSorted(ByLeft(), markers);
    SegmentsConcatenate(Sort(ByLeft(), markers), gap);
  }

  lemma {:induction false} MinIsLeast(segment: seq<Marker>, f: Marker -> int)
    requires segment != []
    ensures forall m | m in segment :: MinOf(segment, f) <= f(m)
    ensures exists m | m in segment :: MinOf(segment, f) == f(m)
  {
    if |segment| == 1 {
      assert segment[0] in segment;
    } else {
      var front, last := segment[..|segment| - 1], segment[|segment| - 1];
      assert segment == front + [last];
      MinIsLeast(front, f);
      assert last in segment;
    }
  }

  /** A line's box encloses its markers tightly; markers without a box do not count. */
  lemma LineBoxEncloses(join: Joiner, segment: seq<Marker>, m: Marker)
    requires m in segment && HasBox(m)
    ensures var line := CompactedLine(join, segment);
      line.left <= m.left && line.top <= m.top && m.right <= line.right && m.bottom <= line.bottom
    ensures var line := CompactedLine(join, segment);
      && (exists n | n in segment && HasBox(n) :: n.left == line.left)
      && (exists n | n in segment && HasBox(n) :: n.top == line.top)
      && (exists n | n in segment && HasBox(n) :: n.right == line.right)
      && (exists n | n in segment && HasBox(n) :: n.bottom == line.bottom)
  {
    var boxed := Boxed(segment);
    MinIsLeast(boxed, (n: Marker) => n.left);
    MinIsLeast(boxed, (n: Marker) => n.top);
    MinIsLeast(boxed, (n: Marker) => -n.right);
    MinIsLeast(boxed, (n: Marker) => -n.bottom);
  }
}
