/** Rendering an edit script with context, truncating it, and the independent line counts that must agree. */
module DiffPreview {
  import opened EditScript
  import opened Wrappers

  /** Notes stand for the fixed texts of meta lines; an omission carries the count it announces. */
  datatype Note = Gap | EmptyFile | NoChanges | Omitted(count: int)

  datatype PreviewLine =
    | Ctx(text: Line, lineNo: nat)
    | Del(text: Line, oldNo: Option<nat>)
    | Add(text: Line, newNo: Option<nat>)
    | Meta(note: Note)

  datatype Stats = Stats(added: nat, removed: nat)

  datatype Preview = Preview(lines: seq<PreviewLine>, truncated: bool, stats: Stats)

  const DEFAULT_MAX_LCS_CELLS := 200_000

  // ---- Text to lines ----

  function SplitAtNewlines(text: string): (r: seq<Line>)
    ensures r != []
  {
    if text == [] then [[]]
    else
      var rest := SplitAtNewlines(text[1..]);
      if text[0] == '\n' then [[]] + rest else [[text[0]] + rest[0]] + rest[1..]
  }

  /** One trailing newline does not open another line; the empty text has none. */
  function SplitLines(text: string): seq<Line> {
    if |text| == 0 then [] else
      var normalized := if text[|text| - 1] == '\n' then text[..|text| - 1] else text;
      if |normalized| == 0 then [] else SplitAtNewlines(normalized)
  }

  function ClipLine(text: Line, max: int): Line {
    if |text| <= max then text else text[..if max - 1 < 0 then 0 else max - 1] + "…"
  }

  // ---- Counting ----

  function Tally(s: Stats, l: PreviewLine): Stats {
    if l.Add? then Stats(s.added + 1, s.removed) else if l.Del? then Stats(s.added, s.removed + 1) else s
  }

  function StatsOf(lines: seq<PreviewLine>): Stats {
    if |lines| == 0 then Stats(0, 0) else Tally(StatsOf(lines[..|lines| - 1]), lines[|lines| - 1])
  }

  function Plus(s: Stats, t: Stats): Stats {
    Stats(s.added + t.added, s.removed + t.removed)
  }

  method CountStats(lines: seq<PreviewLine>) returns (r: Stats)
    ensures r == StatsOf(lines)
  {
    var added, removed := 0, 0;
    for i := 0 to |lines|
      invariant Stats(added, removed) == StatsOf(lines[..i])
    {
      assert lines[..i + 1] == lines[..i] + [lines[i]];
      StatsOfSnoc(lines[..i], lines[i]);
      if lines[i].Add? {
        added := added + 1;
      } else if lines[i].Del? {
        removed := removed + 1;
      }
    }
    assert lines[..|lines|] == lines;
    r := Stats(added, removed);
  }

  lemma {:induction false} StatsOfSnoc(lines: seq<PreviewLine>, l: PreviewLine)
    ensures StatsOf(lines + [l]) == Tally(StatsOf(lines), l)
  {
    assert (lines + [l])[..|lines|] == lines;
  }

  lemma {:induction false} CountsAdd(a: seq<PreviewLine>, b: seq<PreviewLine>)
    ensures StatsOf(a + b) == Plus(StatsOf(a), StatsOf(b))
    decreases |b|
  {
    if |b| == 0 {
      assert a + b == a;
    } else {
      var init, l := b[..|b| - 1], b[|b| - 1];
      assert b == init + [l];
      assert a + b == (a + init) + [l];
      CountsAdd(a, init);
      StatsOfSnoc(a + init, l);
      StatsOfSnoc(init, l);
    }
  }

  // ---- Context ----

  predicate Changes(op: Op) {
    !op.Equal?
  }

  /** Within `c` operations of a change. */
  predicate Shown(ops: seq<Op>, c: int, j: nat)
    requires j < |ops|
  {
    exists i :: 0 <= i < |ops| && Changes(ops[i]) && i - c <= j <= i + c
  }

  function LineOf(op: Op): PreviewLine {
    match op
    case Equal(t, _, n) => Ctx(t, n)
    case Delete(t, o) => Del(t, Some(o))
    case Insert(t, n) => Add(t, Some(n))
  }

  /** The changed ones among the first `n` operations. */
  function ChangedLines(ops: seq<Op>, n: nat): seq<PreviewLine>
    requires n <= |ops|
  {
    if n == 0 then []
    else if Changes(ops[n - 1]) then ChangedLines(ops, n - 1) + [LineOf(ops[n - 1])]
    else ChangedLines(ops, n - 1)
  }

  datatype Rendering = Rendering(lines: seq<PreviewLine>, gap: bool)

  /** The rendering loop after its first `n` operations. */
  function RenderTo(ops: seq<Op>, c: int, n: nat): Rendering
    requires n <= |ops|
  {
    if n == 0 then Rendering([], false) else
      var r := RenderTo(ops, c, n - 1);
      var marked := r.gap && r.lines != [];
      if !Shown(ops, c, n - 1) then Rendering(r.lines, true)
      else Rendering(Push(r.lines, LineOf(ops[n - 1]), marked), r.gap && !marked)
  }

  /** Appends a line, after a gap marker when one is due. */
  function Push(lines: seq<PreviewLine>, l: PreviewLine, marked: bool): seq<PreviewLine> {
    (if marked then lines + [Meta(Gap)] else lines) + [l]
  }

  lemma {:induction false} PushCounts(lines: seq<PreviewLine>, l: PreviewLine, marked: bool)
    ensures StatsOf(Push(lines, l, marked)) == Tally(StatsOf(lines), l)
  {
    StatsOfSnoc(lines, Meta(Gap));
    StatsOfSnoc(if marked then lines + [Meta(Gap)] else lines, l);
  }

  function DiffLines(ops: seq<Op>, c: int): seq<PreviewLine> {
    if c <= 0 then ChangedLines(ops, |ops|) else RenderTo(ops, c, |ops|).lines
  }

  /** Marks every operation within reach of a change. */
  method MarkShown(ops: seq<Op>, c: int) returns (keep: array<bool>)
    requires c > 0
    ensures fresh(keep) && keep.Length == |ops|
    ensures forall j :: 0 <= j < |ops| ==> (keep[j] <==> Shown(ops, c, j))
  {
    keep := new bool[|ops|](_ => false);
    for i := 0 to |ops|
      invariant forall j :: 0 <= j < |ops| ==>
                  (keep[j] <==> exists k :: 0 <= k < i && Changes(ops[k]) && k - c <= j <= k + c)
    {
      if Changes(ops[i]) {
        ghost var was := keep[..];
        var low, high := if i - c < 0 then 0 else i - c, if i + c > |ops| - 1 then |ops| - 1 else i + c;
        var j := low;
        while j <= high
          invariant low <= j <= high + 1
          invariant forall x :: 0 <= x < |ops| ==> keep[x] == (was[x] || low <= x < j)
        {
          keep[j] := true;
          j := j + 1;
        }
      }
    }
  }

  method LineDiffWithContext(a: seq<Line>, b: seq<Line>, c: int) returns (lines: seq<PreviewLine>, ghost ops: seq<Op>)
    ensures IsScript(ops, a, b) && NumberedFrom(ops, 0, 0) && lines == DiffLines(ops, c)
    ensures Deletions(ops) == |a| - Lcs(a, b, |a|, |b|) && Insertions(ops) == |b| - Lcs(a, b, |a|, |b|)
  {
    var script := BuildEditScript(a, b);
    ops := script;
    if c <= 0 {
      return ChangedLines(script, |script|), ops;
    }
    var keep := MarkShown(script, c);
    var gap := false;
    lines := [];
    for i := 0 to |script|
      invariant Rendering(lines, gap) == RenderTo(script, c, i)
      invariant keep.Length == |script|
    {
      if !keep[i] {
        gap := true;
      } else {
        if gap && |lines| > 0 {
          lines := lines + [Meta(Gap)];
          gap := false;
        }
        lines := lines + [LineOf(script[i])];
      }
    }
  }

  /** Additions and removals among the first `n` operations. */
  function ScriptStats(ops: seq<Op>, n: nat): Stats
    requires n <= |ops|
  {
    if n == 0 then Stats(0, 0) else Tally(ScriptStats(ops, n - 1), LineOf(ops[n - 1]))
  }

  lemma {:induction false} ChangedLinesCounts(ops: seq<Op>, n: nat)
    requires n <= |ops|
    ensures StatsOf(ChangedLines(ops, n)) == ScriptStats(ops, n)
  {
    if n > 0 {
      ChangedLinesCounts(ops, n - 1);
      StatsOfSnoc(ChangedLines(ops, n - 1), LineOf(ops[n - 1]));
    }
  }

  lemma {:induction false} CountedFromEitherEnd(ops: seq<Op>, n: nat)
    requires n <= |ops|
    ensures ScriptStats(ops, n) == Stats(Insertions(ops[..n]), Deletions(ops[..n]))
  {
    if n > 0 {
      CountedFromEitherEnd(ops, n - 1);
      assert ops[..n] == ops[..n - 1] + [ops[n - 1]];
      Snoc(ops[..n - 1], ops[n - 1]);
    }
  }

  lemma {:induction false} RenderingCounts(ops: seq<Op>, c: int, n: nat)
    requires c > 0 && n <= |ops|
    ensures StatsOf(RenderTo(ops, c, n).lines) == ScriptStats(ops, n)
  {
    if n > 0 {
      RenderingCounts(ops, c, n - 1);
      var r, op := RenderTo(ops, c, n - 1), ops[n - 1];
      PushCounts(r.lines, LineOf(op), r.gap && r.lines != []);
      if Changes(op) { assert Shown(ops, c, n - 1); }
    }
  }

  /** Whatever the context width, the rendered additions and removals are those of the script. */
  lemma {:induction false} ContextKeepsCounts(ops: seq<Op>, c: int)
    ensures StatsOf(DiffLines(ops, c)) == Stats(Insertions(ops), Deletions(ops))
  {
    assert ops[..|ops|] == ops;
    CountedFromEitherEnd(ops, |ops|);
    if c <= 0 {
      ChangedLinesCounts(ops, |ops|);
    } else {
      RenderingCounts(ops, c, |ops|);
    }
  }

  // ---- When a gap marker stands between adjacent lines ----

  /** How many of the first `n` operations are shown. */
  function ShownCount(ops: seq<Op>, c: int, n: nat): nat
    requires n <= |ops|
  {
    if n == 0 then 0 else ShownCount(ops, c, n - 1) + if Shown(ops, c, n - 1) then 1 else 0
  }

  lemma {:induction false} GapFlag(ops: seq<Op>, c: int, n: nat)
    requires n <= |ops|
    ensures RenderTo(ops, c, n).lines == [] <==> ShownCount(ops, c, n) == 0
    ensures ShownCount(ops, c, n) == 0 ==> (RenderTo(ops, c, n).gap <==> n > 0)
    ensures ShownCount(ops, c, n) > 0 ==>
              (RenderTo(ops, c, n).gap <==> !Shown(ops, c, n - 1) || (ShownCount(ops, c, n) == 1 && !Shown(ops, c, 0)))
  {
    if n > 0 {
      GapFlag(ops, c, n - 1);
      if n == 1 { assert ShownCount(ops, c, 0) == 0; }
      FirstShown(ops, c, n - 1);
    }
  }

  lemma {:induction false} FirstShown(ops: seq<Op>, c: int, n: nat)
    requires n <= |ops|
    ensures ShownCount(ops, c, n) == 0 <==> forall j :: 0 <= j < n ==> !Shown(ops, c, j)
  {
    if n > 0 { FirstShown(ops, c, n - 1); }
  }

  /** The loop puts a marker between operations `v - 1` and `v` although both are shown. */
  predicate FalseMarker(ops: seq<Op>, c: int, v: nat)
    requires 0 < v < |ops|
  {
    && Shown(ops, c, v - 1) && Shown(ops, c, v)
    && RenderTo(ops, c, v + 1).lines == RenderTo(ops, c, v).lines + [Meta(Gap)] + [LineOf(ops[v])]
  }

  predicate FirstChange(ops: seq<Op>, f: nat) {
    f < |ops| && Changes(ops[f]) && forall i :: 0 <= i < f ==> !Changes(ops[i])
  }

  lemma ShownFrom(ops: seq<Op>, c: int, f: nat)
    requires c > 0 && FirstChange(ops, f)
    ensures forall j :: 0 <= j < |ops| && j < f - c ==> !Shown(ops, c, j)
    ensures forall j :: 0 <= j < |ops| && f - c <= j <= f ==> Shown(ops, c, j)
  {
  }

  lemma {:induction false} CountFrom(ops: seq<Op>, c: int, f: nat, n: nat)
    requires c > 0 && FirstChange(ops, f) && n <= f + 1
    ensures ShownCount(ops, c, n) == if n <= f - c then 0 else if f - c >= 0 then n - (f - c) else n
  {
    ShownFrom(ops, c, f);
    if n > 0 { CountFrom(ops, c, f, n - 1); }
  }

  lemma {:induction false} CountGrows(ops: seq<Op>, c: int, m: nat, n: nat)
    requires m <= n <= |ops|
    ensures ShownCount(ops, c, m) <= ShownCount(ops, c, n)
    decreases n - m
  {
    if m < n { CountGrows(ops, c, m, n - 1); }
  }

  /**
   * A marker stands between two adjacent lines exactly when more unchanged lines precede the first
   * change than the context shows; it is then the marker after the very first line.
   */
  lemma {:induction false} FalseMarkerExactly(ops: seq<Op>, c: int, f: nat)
    requires c > 0 && FirstChange(ops, f)
    ensures (exists v :: 0 < v < |ops| && FalseMarker(ops, c, v)) <==> f > c
  {
    ShownFrom(ops, c, f);
    forall v | 0 < v < |ops| ensures FalseMarker(ops, c, v) <==> f > c && v == f - c + 1 {
      GapFlag(ops, c, v);
      if f > c && v == f - c + 1 {
        CountFrom(ops, c, f, v);
      } else if Shown(ops, c, v - 1) && Shown(ops, c, v) {
        if f > c {
          CountFrom(ops, c, f, f - c + 2);
          CountGrows(ops, c, f - c + 2, v);
        }
      }
    }
    if f > c {
      assert FalseMarker(ops, c, f - c + 1);
    }
  }

  // ---- Truncation ----

  function Only(lines: seq<PreviewLine>, p: PreviewLine -> bool): (r: seq<PreviewLine>)
    ensures forall l :: l in r ==> l in lines && p(l)
  {
    if lines == [] then [] else (if p(lines[0]) then [lines[0]] else []) + Only(lines[1..], p)
  }

  /** `slice(0, end)` of the source: a negative end counts from the back. */
  function SliceTo(lines: seq<PreviewLine>, end: int): seq<PreviewLine> {
    if end < 0 then lines[..if |lines| + end < 0 then 0 else |lines| + end]
    else if end > |lines| then lines else lines[..end]
  }

  /** How many removed lines a balanced cut keeps; one line of the limit goes to the announcement. */
  function DelBudget(maxLines: int): int {
    if (maxLines - 1) / 2 > 1 then (maxLines - 1) / 2 else 1
  }

  function AddBudget(maxLines: int): int {
    if maxLines - 1 - DelBudget(maxLines) > 1 then maxLines - 1 - DelBudget(maxLines) else 1
  }

  function CutBothSides(dels: seq<PreviewLine>, adds: seq<PreviewLine>, others: nat, maxLines: int): seq<PreviewLine> {
    var keptDels, keptAdds := SliceTo(dels, DelBudget(maxLines)), SliceTo(adds, AddBudget(maxLines));
    var omitted := |dels| - |keptDels| + (|adds| - |keptAdds|) + others;
    keptDels + keptAdds + [Meta(Omitted(omitted))]
  }

  function CutTail(lines: seq<PreviewLine>, maxLines: int): seq<PreviewLine> {
    SliceTo(lines, maxLines - 1) + [Meta(Omitted(|lines| - (maxLines - 1)))]
  }

  function Dels(lines: seq<PreviewLine>): seq<PreviewLine> {
    Only(lines, (l: PreviewLine) => l.Del?)
  }

  function Adds(lines: seq<PreviewLine>): seq<PreviewLine> {
    Only(lines, (l: PreviewLine) => l.Add?)
  }

  function Others(lines: seq<PreviewLine>): seq<PreviewLine> {
    Only(lines, (l: PreviewLine) => !l.Del? && !l.Add?)
  }

  function BalancedTruncate(lines: seq<PreviewLine>, maxLines: int): (seq<PreviewLine>, bool) {
    if |lines| <= maxLines then (lines, false)
    else if !(exists l :: l in lines && l.Ctx?) && |Dels(lines)| > 0 && |Adds(lines)| > 0 && maxLines >= 4 then
      (CutBothSides(Dels(lines), Adds(lines), |Others(lines)|, maxLines), true)
    else (CutTail(lines, maxLines), true)
  }

  /** Lines shown as they are, and the number announced as left out. */
  function ShownLines(lines: seq<PreviewLine>): nat {
    if lines == [] then 0 else ShownLines(lines[..|lines| - 1]) + if IsOmission(lines[|lines| - 1]) then 0 else 1
  }

  function AnnouncedOmitted(lines: seq<PreviewLine>): int {
    if lines == [] then 0
    else AnnouncedOmitted(lines[..|lines| - 1])
         + if IsOmission(lines[|lines| - 1]) then lines[|lines| - 1].note.count else 0
  }

  predicate IsOmission(l: PreviewLine) {
    l.Meta? && l.note.Omitted?
  }

  lemma {:induction false} NoOmission(lines: seq<PreviewLine>)
    requires forall l :: l in lines ==> !IsOmission(l)
    ensures ShownLines(lines) == |lines| && AnnouncedOmitted(lines) == 0
    decreases |lines|
  {
    if lines != [] {
      NoOmission(lines[..|lines| - 1]);
      assert lines[|lines| - 1] in lines;
    }
  }

  lemma {:induction false} Partition(lines: seq<PreviewLine>)
    ensures |Dels(lines)| + |Adds(lines)| + |Others(lines)| == |lines|
  {
    if lines != [] { Partition(lines[1..]); }
  }

  /** A cut that keeps plain lines and ends in an announcement. */
  lemma {:induction false} CutCounts(kept: seq<PreviewLine>, n: int)
    requires forall l :: l in kept ==> !IsOmission(l)
    ensures ShownLines(kept + [Meta(Omitted(n))]) == |kept|
    ensures AnnouncedOmitted(kept + [Meta(Omitted(n))]) == n
  {
    NoOmission(kept);
    assert (kept + [Meta(Omitted(n))])[..|kept|] == kept;
  }

  lemma {:induction false} CutTailCounts(lines: seq<PreviewLine>, maxLines: int)
    requires |lines| > maxLines && forall l :: l in lines ==> !IsOmission(l)
    ensures var r := CutTail(lines, maxLines);
            && (ShownLines(r) + AnnouncedOmitted(r) == |lines| <==> maxLines >= 1)
            && (maxLines >= 1 ==> |r| == maxLines)
  {
    CutCounts(SliceTo(lines, maxLines - 1), |lines| - (maxLines - 1));
  }

  lemma {:induction false} CutBothSidesCounts(lines: seq<PreviewLine>, maxLines: int)
    requires maxLines >= 4 && forall l :: l in lines ==> !IsOmission(l)
    ensures var r := CutBothSides(Dels(lines), Adds(lines), |Others(lines)|, maxLines);
            ShownLines(r) + AnnouncedOmitted(r) == |lines| && |r| <= maxLines
  {
    Partition(lines);
    var kept := SliceTo(Dels(lines), DelBudget(maxLines)) + SliceTo(Adds(lines), AddBudget(maxLines));
    forall l | l in kept ensures !IsOmission(l) {
      assert l in Dels(lines) || l in Adds(lines);
    }
    var n := |lines| - |kept|;
    CutCounts(kept, n);
  }

  /**
   * A truncated preview announces exactly the lines it leaves out, and fits the limit, exactly when the
   * limit is positive or nothing had to be cut.
   */
  lemma {:induction false} TruncationAccountsForEveryLine(lines: seq<PreviewLine>, maxLines: int)
    requires forall l :: l in lines ==> !IsOmission(l)
    ensures var r := BalancedTruncate(lines, maxLines).0;
            && (ShownLines(r) + AnnouncedOmitted(r) == |lines| <==> (maxLines >= 1 || |lines| <= maxLines))
            && (maxLines >= 1 ==> |r| <= maxLines)
  {
    if |lines| <= maxLines {
      NoOmission(lines);
    } else {
      CutTailCounts(lines, maxLines);
      if maxLines >= 4 { CutBothSidesCounts(lines, maxLines); }
    }
  }

  /** Both sides of a change without context keep at least one line each. */
  lemma {:induction false} TruncationKeepsBothSides(lines: seq<PreviewLine>, maxLines: int)
    requires maxLines >= 4 && |lines| > maxLines && forall l :: l in lines ==> l.Add? || l.Del?
    requires (exists l :: l in lines && l.Add?) && (exists l :: l in lines && l.Del?)
    ensures var r := BalancedTruncate(lines, maxLines).0;
            (exists l :: l in r && l.Add?) && (exists l :: l in r && l.Del?)
  {
    BothSidesThere(lines);
    hide Dels, Adds, Others, CutBothSides, Only;
    HeadsSurvive(Dels(lines), Adds(lines), |Others(lines)|, maxLines);
    var d, a := Dels(lines)[0], Adds(lines)[0];
    assert forall l :: l in lines ==> !l.Ctx?;
    assert BalancedTruncate(lines, maxLines).0 == CutBothSides(Dels(lines), Adds(lines), |Others(lines)|, maxLines);
  }

  lemma {:induction false} BothSidesThere(lines: seq<PreviewLine>)
    requires (exists l :: l in lines && l.Add?) && (exists l :: l in lines && l.Del?)
    ensures Dels(lines) != [] && Dels(lines)[0].Del? && Adds(lines) != [] && Adds(lines)[0].Add?
  {
    OnlyFinds(lines, (l: PreviewLine) => l.Del?);
    OnlyFinds(lines, (l: PreviewLine) => l.Add?);
    assert Dels(lines)[0] in Dels(lines) && Adds(lines)[0] in Adds(lines);
  }

  lemma {:induction false} HeadsSurvive(dels: seq<PreviewLine>, adds: seq<PreviewLine>, others: nat, maxLines: int)
    requires dels != [] && adds != [] && maxLines >= 4
    ensures var r := CutBothSides(dels, adds, others, maxLines); dels[0] in r && adds[0] in r
  {
    var x, y := SliceTo(dels, DelBudget(maxLines)), SliceTo(adds, AddBudget(maxLines));
    assert x[0] == dels[0] && y[0] == adds[0];
    assert dels[0] in x && adds[0] in y;
  }

  lemma {:induction false} OnlyFinds(lines: seq<PreviewLine>, p: PreviewLine -> bool)
    requires exists l :: l in lines && p(l)
    ensures Only(lines, p) != []
  {
    if !p(lines[0]) { OnlyFinds(lines[1..], p); }
  }

  // ---- Overwrite previews and the independent line counts ----

  function FinalizeWith(lines: seq<PreviewLine>, maxLines: int): Preview {
    var cut := BalancedTruncate(lines, maxLines);
    Preview(cut.0, cut.1, StatsOf(lines))
  }

  function ClipPreview(l: PreviewLine, max: int): PreviewLine {
    match l
    case Ctx(t, n) => Ctx(ClipLine(t, max), n)
    case Del(t, n) => Del(ClipLine(t, max), n)
    case Add(t, n) => Add(ClipLine(t, max), n)
    case Meta(_) => l
  }

  function ClipAll(lines: seq<PreviewLine>, max: int): (r: seq<PreviewLine>)
    ensures |r| == |lines| && forall i :: 0 <= i < |r| ==> r[i] == ClipPreview(lines[i], max)
  {
    seq(|lines|, i requires 0 <= i < |lines| => ClipPreview(lines[i], max))
  }

  lemma {:induction false} ClippingKeepsCounts(lines: seq<PreviewLine>, max: int)
    ensures StatsOf(ClipAll(lines, max)) == StatsOf(lines)
    decreases |lines|
  {
    if lines != [] {
      var init, l := lines[..|lines| - 1], lines[|lines| - 1];
      assert ClipAll(lines, max) == ClipAll(init, max) + [ClipPreview(l, max)];
      ClippingKeepsCounts(init, max);
      StatsOfSnoc(ClipAll(init, max), ClipPreview(l, max));
    }
  }

  function AllDeleted(a: seq<Line>, max: int): (r: seq<PreviewLine>)
    ensures |r| == |a|
  {
    seq(|a|, i requires 0 <= i < |a| => Del(ClipLine(a[i], max), None))
  }

  function AllAdded(b: seq<Line>, max: int): (r: seq<PreviewLine>)
    ensures |r| == |b|
  {
    seq(|b|, i requires 0 <= i < |b| => Add(ClipLine(b[i], max), None))
  }

  lemma {:induction false} AllDeletedCounts(a: seq<Line>, max: int)
    ensures StatsOf(AllDeleted(a, max)) == Stats(0, |a|)
    decreases |a|
  {
    if a != [] {
      var init, l := a[..|a| - 1], Del(ClipLine(a[|a| - 1], max), None);
      assert AllDeleted(a, max) == AllDeleted(init, max) + [l];
      AllDeletedCounts(init, max);
      StatsOfSnoc(AllDeleted(init, max), l);
    }
  }

  lemma {:induction false} AllAddedCounts(b: seq<Line>, max: int)
    ensures StatsOf(AllAdded(b, max)) == Stats(|b|, 0)
    decreases |b|
  {
    if b != [] {
      var init, l := b[..|b| - 1], Add(ClipLine(b[|b| - 1], max), None);
      assert AllAdded(b, max) == AllAdded(init, max) + [l];
      AllAddedCounts(init, max);
      StatsOfSnoc(AllAdded(init, max), l);
    }
  }

  function Replacement(a: seq<Line>, b: seq<Line>, max: int): seq<PreviewLine> {
    AllDeleted(a, max) + AllAdded(b, max)
  }

  lemma {:induction false} ReplacementCounts(a: seq<Line>, b: seq<Line>, max: int)
    ensures StatsOf(Replacement(a, b, max)) == Stats(|b|, |a|)
  {
    AllDeletedCounts(a, max);
    AllAddedCounts(b, max);
    CountsAdd(AllDeleted(a, max), AllAdded(b, max));
  }

  predicate TableTooLarge(a: seq<Line>, b: seq<Line>, maxCells: int) {
    |a| * |b| > maxCells
  }

  /** Lines outside a longest common subsequence, on each side. */
  function LcsStats(a: seq<Line>, b: seq<Line>): Stats {
    LcsGrowsByAtMostOne(a, b, |a|, |b|);
    Stats(|b| - Lcs(a, b, |a|, |b|), |a| - Lcs(a, b, |a|, |b|))
  }

  /** What an overwrite preview counts: lines outside a longest common subsequence, or all of them when too large. */
  function PreviewStats(a: seq<Line>, b: seq<Line>, maxCells: int): Stats {
    if TableTooLarge(a, b, maxCells) && (|a| > 0 || |b| > 0) then Stats(|b|, |a|) else LcsStats(a, b)
  }

  /** What the change counter reports: the same, or the net difference when too large. */
  function ChangeStats(a: seq<Line>, b: seq<Line>): Stats {
    if TableTooLarge(a, b, 200_000) then
      Stats(if |b| > |a| then |b| - |a| else 0, if |a| > |b| then |a| - |b| else 0)
    else LcsStats(a, b)
  }

  const UNCHANGED := Preview([Meta(NoChanges)], false, Stats(0, 0))

  /** The preview of a script that fits the table limit. */
  function ScriptPreview(ops: seq<Op>, maxLines: int, maxLineChars: int, context: int): Preview {
    var raw := ClipAll(DiffLines(ops, context), maxLineChars);
    if raw == [] then UNCHANGED else FinalizeWith(raw, maxLines)
  }

  method BuildOverwriteDiffPreview(before: string, after: string, maxLines: int, maxLineChars: int, maxCells: int, context: int)
    returns (p: Preview, ghost ops: seq<Op>)
    ensures p.stats == PreviewStats(SplitLines(before), SplitLines(after), maxCells)
    ensures var a, b := SplitLines(before), SplitLines(after);
            if a == [] && b == [] then p == Preview([Meta(EmptyFile)], false, Stats(0, 0))
            else if TableTooLarge(a, b, maxCells) then p == FinalizeWith(Replacement(a, b, maxLineChars), maxLines)
            else IsScript(ops, a, b) && NumberedFrom(ops, 0, 0) && p == ScriptPreview(ops, maxLines, maxLineChars, context)
  {
    var a, b := SplitLines(before), SplitLines(after);
    ops := [];
    if |a| == 0 && |b| == 0 {
      return Preview([Meta(EmptyFile)], false, Stats(0, 0)), ops;
    }
    if TableTooLarge(a, b, maxCells) {
      ReplacementCounts(a, b, maxLineChars);
      return FinalizeWith(Replacement(a, b, maxLineChars), maxLines), ops;
    }
    p, ops := PreviewOfScript(a, b, maxLines, maxLineChars, context);
  }

  method PreviewOfScript(a: seq<Line>, b: seq<Line>, maxLines: int, maxLineChars: int, context: int)
    returns (p: Preview, ghost ops: seq<Op>)
    ensures p.stats == LcsStats(a, b)
    ensures IsScript(ops, a, b) && NumberedFrom(ops, 0, 0) && p == ScriptPreview(ops, maxLines, maxLineChars, context)
  {
    var raw;
    raw, ops := LineDiffWithContext(a, b, context);
    ContextKeepsCounts(ops, context);
    ClippingKeepsCounts(raw, maxLineChars);
    var clipped := ClipAll(raw, maxLineChars);
    p := if |clipped| == 0 then UNCHANGED else FinalizeWith(clipped, maxLines);
  }

  method LineDiffStats(before: string, after: string) returns (r: Stats)
    ensures r == ChangeStats(SplitLines(before), SplitLines(after))
  {
    var a, b := SplitLines(before), SplitLines(after);
    if |a| == 0 && |b| == 0 {
      return Stats(0, 0);
    }
    if TableTooLarge(a, b, 200_000) {
      return Stats(if |b| > |a| then |b| - |a| else 0, if |a| > |b| then |a| - |b| else 0);
    }
    LcsGrowsByAtMostOne(a, b, |a|, |b|);
    var lcs := LongestCommonSubsequenceLength(a, b);
    r := Stats(|b| - lcs, |a| - lcs);
  }

  /** The two counts agree exactly on inputs whose table fits the default limit. */
  lemma {:induction false} CountsAgreeExactlyWithinLimit(a: seq<Line>, b: seq<Line>)
    ensures PreviewStats(a, b, DEFAULT_MAX_LCS_CELLS) == ChangeStats(a, b) <==> |a| * |b| <= DEFAULT_MAX_LCS_CELLS
  {
    if |a| * |b| > DEFAULT_MAX_LCS_CELLS {
      assert |a| > 0 && |b| > 0;
    }
  }
}
