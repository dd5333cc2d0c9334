/** Splitting Markdown into blank-line separated blocks and packing them greedily into chunks. */
module Markdown {

  // ---- Text operations ----

  predicate IsSpace(c: char) {
    || '\t' <= c <= '\r' || '\U{1c}' <= c <= ' ' || c == '\U{85}' || c == '\U{a0}' || c == '\U{1680}'
    || '\U{2000}' <= c <= '\U{200a}' || c == '\U{2028}' || c == '\U{2029}' || c == '\U{202f}'
    || c == '\U{205f}' || c == '\U{3000}'
  }

  const SEP := "\n\n"

  function StripLeft(s: string): string {
    if |s| > 0 && IsSpace(s[0]) then StripLeft(s[1..]) else s
  }

  function StripRight(s: string): string {
    if |s| > 0 && IsSpace(s[|s| - 1]) then StripRight(s[..|s| - 1]) else s
  }

  function Strip(s: string): string {
    StripRight(StripLeft(s))
  }

  /** Nothing to strip at either end. */
  predicate Trimmed(s: string) {
    |s| > 0 ==> !IsSpace(s[0]) && !IsSpace(s[|s| - 1])
  }

  /** Pieces between separators, found from the left without overlap. */
  function SplitOnBlankLines(s: string): (r: seq<string>)
    ensures |r| > 0
    decreases |s|
  {
    if |s| == 0 then [""]
    else if SEP <= s then [""] + SplitOnBlankLines(s[2..])
    else
      var rest := SplitOnBlankLines(s[1..]);
      [[s[0]] + rest[0]] + rest[1..]
  }

  function StripAll(parts: seq<string>): seq<string> {
    if |parts| == 0 then []
    else (if Strip(parts[0]) == "" then [] else [Strip(parts[0])]) + StripAll(parts[1..])
  }

  function Blocks(text: string): seq<string> {
    StripAll(SplitOnBlankLines(Strip(text)))
  }

  function Join(parts: seq<string>): string {
    if |parts| == 0 then "" else if |parts| == 1 then parts[0] else parts[0] + SEP + Join(parts[1..])
  }

  // ---- Packing ----

  /** A run of blocks that may form one chunk. */
  predicate Fits(group: seq<string>, maxChars: int) {
    |group| == 1 || (|group| > 1 && |Join(group)| <= maxChars)
  }

  function Flatten(groups: seq<seq<string>>): seq<string> {
    if |groups| == 0 then [] else Flatten(groups[..|groups| - 1]) + groups[|groups| - 1]
  }

  /** A way of cutting the blocks, in order, into runs that may form chunks. */
  predicate IsGrouping(groups: seq<seq<string>>, blocks: seq<string>, maxChars: int) {
    Flatten(groups) == blocks && forall i :: 0 <= i < |groups| ==> Fits(groups[i], maxChars)
  }

  function JoinAll(groups: seq<seq<string>>): (r: seq<string>)
    ensures |r| == |groups| && forall i :: 0 <= i < |r| ==> r[i] == Join(groups[i])
  {
    seq(|groups|, i requires 0 <= i < |groups| => Join(groups[i]))
  }

  datatype Packing = Packing(closed: seq<seq<string>>, open: seq<string>)

  /** One block placed: in the open group when that still fits, else in a new one. */
  function Place(p: Packing, block: string, maxChars: int): Packing {
    if |p.open| > 0 && |Join(p.open)| + 2 + |block| > maxChars then Packing(p.closed + [p.open], [block])
    else Packing(p.closed, p.open + [block])
  }

  function Pack(blocks: seq<string>, maxChars: int): Packing {
    if |blocks| == 0 then Packing([], []) else Place(Pack(blocks[..|blocks| - 1], maxChars), blocks[|blocks| - 1], maxChars)
  }

  function Groups(p: Packing): seq<seq<string>> {
    if |p.open| == 0 then p.closed else p.closed + [p.open]
  }

  function Greedy(blocks: seq<string>, maxChars: int): seq<seq<string>> {
    Groups(Pack(blocks, maxChars))
  }

  lemma {:induction false} JoinSnoc(parts: seq<string>, x: string)
    requires |parts| > 0
    ensures Join(parts + [x]) == Join(parts) + SEP + x
  {
    var all := parts + [x];
    if |parts| == 1 {
      assert all[1..] == [x];
    } else {
      assert all[1..] == parts[1..] + [x];
      JoinSnoc(parts[1..], x);
      assert parts[0] + SEP + (Join(parts[1..]) + SEP + x) == (parts[0] + SEP + Join(parts[1..])) + SEP + x;
    }
  }

  /** The loop of the source, on strings. */
  method SplitMarkdown(text: string, maxChars: int) returns (chunks: seq<string>)
    ensures chunks == JoinAll(Greedy(Blocks(text), maxChars))
  {
    var body := Strip(text);
    chunks := [];
    if |body| == 0 {
      BlankTextHasNoBlocks(text);
      return;
    }
    var blocks := StripAll(SplitOnBlankLines(body));
    ghost var p := Packing([], []);
    StripAllNonEmpty(SplitOnBlankLines(body));
    var current := "";
    for i := 0 to |blocks|
      invariant p == Pack(blocks[..i], maxChars)
      invariant chunks == JoinAll(p.closed) && current == Join(p.open) && (|current| == 0 <==> |p.open| == 0)
    {
      var block := blocks[i];
      assert blocks[..i + 1][..i] == blocks[..i];
      assert block in blocks;
      ghost var next := Place(p, block, maxChars);
      if |p.open| > 0 { JoinSnoc(p.open, block); }
      if |current| > 0 && |current| + 2 + |block| > maxChars {
        assert JoinAll(p.closed + [p.open]) == JoinAll(p.closed) + [Join(p.open)];
        chunks := chunks + [current];
        current := block;
      } else {
        assert |p.open| == 0 ==> p.open + [block] == [block];
        current := if |current| == 0 then block else current + SEP + block;
      }
      p := next;
    }
    assert blocks[..|blocks|] == blocks;
    if |current| > 0 {
      assert JoinAll(p.closed + [p.open]) == JoinAll(p.closed) + [Join(p.open)];
      chunks := chunks + [current];
    }
  }

  lemma {:induction false} StripAllNonEmpty(parts: seq<string>)
    ensures forall b :: b in StripAll(parts) ==> |b| > 0
  {
    if |parts| > 0 { StripAllNonEmpty(parts[1..]); }
  }

  lemma {:induction false} BlankTextHasNoBlocks(text: string)
    requires Strip(text) == ""
    ensures Greedy(Blocks(text), 0) == [] && forall m :: Greedy(Blocks(text), m) == []
  {
    assert SplitOnBlankLines("") == [""];
    assert Strip("") == "" && [""][1..] == [];
    assert StripAll([""]) == [];
  }

  // ---- Greedy packing is a grouping, and no grouping is shorter ----

  /** The groups so far are a grouping of the blocks so far. */
  ghost predicate Packed(p: Packing, blocks: seq<string>, maxChars: int) {
    && Flatten(p.closed) + p.open == blocks
    && (forall i :: 0 <= i < |p.closed| ==> Fits(p.closed[i], maxChars))
    && (|p.open| > 0 ==> Fits(p.open, maxChars))
    && (|blocks| > 0 ==> |p.open| > 0)
  }

  lemma {:induction false} FlattenSnoc(groups: seq<seq<string>>, g: seq<string>)
    ensures Flatten(groups + [g]) == Flatten(groups) + g
  {
    assert (groups + [g])[..|groups|] == groups;
  }

  lemma {:induction false} PlaceKeepsPacked(p: Packing, blocks: seq<string>, x: string, maxChars: int)
    requires Packed(p, blocks, maxChars)
    ensures Packed(Place(p, x, maxChars), blocks + [x], maxChars)
  {
    if |p.open| > 0 {
      JoinSnoc(p.open, x);
      FlattenSnoc(p.closed, p.open);
    }
    assert Flatten(p.closed) + (p.open + [x]) == blocks + [x];
  }

  lemma {:induction false} GreedyIsPacked(blocks: seq<string>, maxChars: int)
    ensures Packed(Pack(blocks, maxChars), blocks, maxChars)
    decreases |blocks|
  {
    if |blocks| > 0 {
      var init := blocks[..|blocks| - 1];
      assert blocks == init + [blocks[|blocks| - 1]];
      GreedyIsPacked(init, maxChars);
      PlaceKeepsPacked(Pack(init, maxChars), init, blocks[|blocks| - 1], maxChars);
    }
  }

  /** The chunks hold all blocks in order, and each fits or is a single block. */
  lemma {:induction false} GreedyIsGrouping(blocks: seq<string>, maxChars: int)
    ensures IsGrouping(Greedy(blocks, maxChars), blocks, maxChars)
  {
    GreedyIsPacked(blocks, maxChars);
    var p := Pack(blocks, maxChars);
    FlattenSnoc(p.closed, p.open);
  }

  /** Dropping the front of a run keeps it fitting. */
  lemma {:induction false} SuffixFits(group: seq<string>, k: nat, maxChars: int)
    requires Fits(group, maxChars) && k < |group|
    ensures Fits(group[k..], maxChars) && |Join(group[k..])| <= |Join(group)|
    decreases k
  {
    if k > 0 {
      SuffixFits(group[1..], k - 1, maxChars);
      assert group[1..][k - 1..] == group[k..];
    } else {
      assert group[0..] == group;
    }
  }

  /** Greedy has used no more groups, and where it has used as many, its last group starts no earlier. */
  predicate Ahead(p: Packing, groups: seq<seq<string>>) {
    && |groups| > 0 && |Groups(p)| <= |groups|
    && (|Groups(p)| == |groups| ==> |p.open| <= |groups[|groups| - 1]|)
  }

  /** The other grouping puts the block in a group of its own. */
  lemma AheadAfterNewGroup(p: Packing, x: string, maxChars: int, front: seq<seq<string>>)
    requires |front| > 0 && |p.open| > 0 && Ahead(p, front)
    ensures Ahead(Place(p, x, maxChars), front + [[x]])
  {
  }

  /** The other grouping extends its last group by the block. */
  lemma {:induction false} AheadAfterExtension(p: Packing, init: seq<string>, x: string, maxChars: int, front: seq<seq<string>>, shorter: seq<string>)
    requires Packed(p, init, maxChars) && |shorter| > 0 && init == Flatten(front) + shorter
    requires Ahead(p, front + [shorter]) && Fits(shorter + [x], maxChars)
    ensures Ahead(Place(p, x, maxChars), front + [shorter + [x]])
  {
    assert |p.open| > 0;
    if |Groups(p)| == |front| + 1 {
      assert (front + [shorter])[|front|] == shorter;
      OpenIsSuffix(p, front, shorter, init);
      var last, k := shorter + [x], |shorter| - |p.open|;
      assert last[k..] == p.open + [x];
      SuffixFits(last, k, maxChars);
      JoinSnoc(p.open, x);
    }
  }

  lemma {:induction false} GreedyStaysAhead(blocks: seq<string>, maxChars: int, groups: seq<seq<string>>)
    requires IsGrouping(groups, blocks, maxChars) && |blocks| > 0
    ensures Ahead(Pack(blocks, maxChars), groups)
    decreases |blocks|
  {
    var init, x := blocks[..|blocks| - 1], blocks[|blocks| - 1];
    assert |groups| > 0;
    var front, last := groups[..|groups| - 1], groups[|groups| - 1];
    var shorter := last[..|last| - 1];
    SplitLast(blocks, groups, maxChars);
    GreedyIsPacked(init, maxChars);
    var p := Pack(init, maxChars);
    if |shorter| > 0 {
      GreedyStaysAhead(init, maxChars, front + [shorter]);
      AheadAfterExtension(p, init, x, maxChars, front, shorter);
    } else if |init| > 0 {
      GreedyStaysAhead(init, maxChars, front);
      AheadAfterNewGroup(p, x, maxChars, front);
    }
  }

  /** A grouping without the last block. */
  lemma {:induction false} SplitLast(blocks: seq<string>, groups: seq<seq<string>>, maxChars: int)
    requires IsGrouping(groups, blocks, maxChars) && |blocks| > 0 && |groups| > 0
    ensures var init, x := blocks[..|blocks| - 1], blocks[|blocks| - 1];
            var front, last := groups[..|groups| - 1], groups[|groups| - 1];
            && |last| > 0
            && var shorter := last[..|last| - 1];
               && last == shorter + [x] && groups == front + [last] && init == Flatten(front) + shorter
               && (if |shorter| > 0 then IsGrouping(front + [shorter], init, maxChars) else IsGrouping(front, init, maxChars))
  {
    var init := blocks[..|blocks| - 1];
    var front, last := groups[..|groups| - 1], groups[|groups| - 1];
    var shorter := last[..|last| - 1];
    assert blocks == Flatten(front) + last;
    assert init == Flatten(front) + shorter;
    if |shorter| > 0 {
      PrefixFits(last, maxChars);
      FlattenSnoc(front, shorter);
      assert forall i :: 0 <= i < |front| ==> Fits(front[i], maxChars);
    }
  }

  lemma {:induction false} PrefixFits(group: seq<string>, maxChars: int)
    requires Fits(group, maxChars) && |group| > 1
    ensures Fits(group[..|group| - 1], maxChars)
  {
    var init, x := group[..|group| - 1], group[|group| - 1];
    assert group == init + [x];
    JoinSnoc(init, x);
  }

  lemma {:induction false} OpenIsSuffix(p: Packing, front: seq<seq<string>>, shorter: seq<string>, init: seq<string>)
    requires init == Flatten(front) + shorter == Flatten(p.closed) + p.open && |p.open| <= |shorter|
    ensures p.open == shorter[|shorter| - |p.open|..]
  {
    assert p.open == init[|init| - |p.open|..];
    assert shorter == init[|init| - |shorter|..];
  }

  /** No way of cutting the blocks into fitting runs uses fewer chunks. */
  lemma {:induction false} GreedyIsOptimal(blocks: seq<string>, maxChars: int, groups: seq<seq<string>>)
    requires IsGrouping(groups, blocks, maxChars)
    ensures |Greedy(blocks, maxChars)| <= |groups|
  {
    if |blocks| > 0 {
      GreedyStaysAhead(blocks, maxChars, groups);
    }
  }

  // ---- Re-splitting the joined chunks ----

  /** Free of the separator. */
  predicate NoBlankLine(s: string) {
    forall i :: 0 <= i < |s| - 1 ==> !(s[i] == '\n' && s[i + 1] == '\n')
  }

  predicate CleanBlocks(blocks: seq<string>) {
    forall i :: 0 <= i < |blocks| ==> |blocks[i]| > 0 && Trimmed(blocks[i]) && NoBlankLine(blocks[i])
  }

  lemma {:induction false} StripIsInfix(s: string)
    ensures Trimmed(Strip(s)) && (NoBlankLine(s) ==> NoBlankLine(Strip(s)))
  {
    StripLeftWorks(s);
    StripRightWorks(StripLeft(s));
  }

  lemma {:induction false} StripLeftWorks(s: string)
    ensures var r := StripLeft(s); (|r| > 0 ==> !IsSpace(r[0])) && (NoBlankLine(s) ==> NoBlankLine(r))
  {
    if |s| > 0 && IsSpace(s[0]) {
      StripLeftWorks(s[1..]);
      assert NoBlankLine(s) ==> NoBlankLine(s[1..]) by {
        assert forall i :: 0 <= i < |s| - 1 ==> s[1..][i] == s[i + 1];
      }
    }
  }

  lemma {:induction false} StripRightWorks(s: string)
    ensures var r := StripRight(s);
            && |r| <= |s| && r == s[..|r|] && (|r| > 0 ==> !IsSpace(r[|r| - 1])) && (NoBlankLine(s) ==> NoBlankLine(r))
  {
    if |s| > 0 && IsSpace(s[|s| - 1]) {
      StripRightWorks(s[..|s| - 1]);
    }
  }

  lemma {:induction false} PiecesHaveNoBlankLine(s: string)
    ensures forall i :: 0 <= i < |SplitOnBlankLines(s)| ==> NoBlankLine(SplitOnBlankLines(s)[i])
    ensures |SplitOnBlankLines(s)[0]| > 0 ==> |s| > 0 && SplitOnBlankLines(s)[0][0] == s[0]
    decreases |s|
  {
    if |s| > 0 {
      if SEP <= s {
        PiecesHaveNoBlankLine(s[2..]);
      } else {
        PiecesHaveNoBlankLine(s[1..]);
        var rest := SplitOnBlankLines(s[1..]);
        var first := [s[0]] + rest[0];
        if |rest[0]| > 0 {
          assert rest[0][0] == s[1];
          var pair := s[..2];
          assert pair != SEP && pair == [s[0], s[1]];
        }
        assert forall i :: 0 < i < |first| ==> first[i] == rest[0][i - 1];
      }
    }
  }

  lemma {:induction false} StrippedPiecesAreClean(parts: seq<string>)
    requires forall i :: 0 <= i < |parts| ==> NoBlankLine(parts[i])
    ensures CleanBlocks(StripAll(parts))
  {
    if |parts| > 0 {
      StripIsInfix(parts[0]);
      StrippedPiecesAreClean(parts[1..]);
    }
  }

  lemma {:induction false} BlocksAreClean(text: string)
    ensures CleanBlocks(Blocks(text))
  {
    PiecesHaveNoBlankLine(Strip(text));
    StrippedPiecesAreClean(SplitOnBlankLines(Strip(text)));
  }

  lemma TrimmedStaysPut(s: string)
    requires Trimmed(s)
    ensures Strip(s) == s
  {
  }

  /** A separator-free, trimmed piece is split off whole. */
  lemma {:induction false} SplitTakesPiece(b: string, x: string)
    requires NoBlankLine(b) && (|b| > 0 ==> b[|b| - 1] != '\n')
    ensures SplitOnBlankLines(b + SEP + x) == [b] + SplitOnBlankLines(x)
    ensures SplitOnBlankLines(b) == [b]
  {
    var s := b + SEP + x;
    if |b| == 0 {
      assert s[..2] == SEP && s[2..] == x;
    } else {
      assert s[1..] == b[1..] + SEP + x;
      assert s[0] == b[0];
      assert !(SEP <= s) && !(SEP <= b) by {
        if b[0] == '\n' && |b| > 1 { assert b[1] != '\n'; }
      }
      assert forall i :: 0 <= i < |b| - 1 ==> b[1..][i] == b[i + 1];
      SplitTakesPiece(b[1..], x);
      assert [b[0]] + b[1..] == b;
    }
  }

  lemma {:induction false} JoinedBlocksSplitBack(blocks: seq<string>)
    requires CleanBlocks(blocks) && |blocks| > 0
    ensures SplitOnBlankLines(Join(blocks)) == blocks && StripAll(blocks) == blocks
    ensures |Join(blocks)| > 0 && Trimmed(Join(blocks))
  {
    var b, rest := blocks[0], blocks[1..];
    assert IsSpace('\n');
    assert blocks == [b] + rest;
    TrimmedStaysPut(b);
    if |rest| == 0 {
      SplitTakesPiece(b, "");
    } else {
      assert CleanBlocks(rest);
      JoinedBlocksSplitBack(rest);
      SplitTakesPiece(b, Join(rest));
      var j := Join(blocks);
      assert j[0] == b[0] && j[|j| - 1] == Join(rest)[|Join(rest)| - 1];
    }
  }

  lemma {:induction false} JoinAppend(a: seq<string>, b: seq<string>)
    requires |a| > 0 && |b| > 0
    ensures Join(a + b) == Join(a) + SEP + Join(b)
  {
    var all := a + b;
    if |a| == 1 {
      assert all[1..] == b;
    } else {
      assert all[1..] == a[1..] + b;
      JoinAppend(a[1..], b);
      assert a[0] + SEP + (Join(a[1..]) + SEP + Join(b)) == (a[0] + SEP + Join(a[1..])) + SEP + Join(b);
    }
  }

  /** Joining the joined groups is joining their blocks. */
  lemma {:induction false} JoinOfJoins(groups: seq<seq<string>>)
    requires forall i :: 0 <= i < |groups| ==> |groups[i]| > 0
    ensures Join(JoinAll(groups)) == Join(Flatten(groups))
    ensures |groups| > 0 ==> |Flatten(groups)| > 0
    decreases |groups|
  {
    if |groups| > 0 {
      var front, last := groups[..|groups| - 1], groups[|groups| - 1];
      assert JoinAll(groups) == JoinAll(front) + [Join(last)];
      JoinOfJoins(front);
      if |front| == 0 {
        assert JoinAll(groups) == [Join(last)] && Flatten(groups) == last;
      } else {
        JoinSnoc(JoinAll(front), Join(last));
        JoinAppend(Flatten(front), last);
      }
    }
  }

  /** Splitting the chunks joined by blank lines again gives the same blocks, hence the same chunks. */
  lemma {:induction false} ResplittingChangesNothing(text: string, maxChars: int)
    ensures var chunks := JoinAll(Greedy(Blocks(text), maxChars));
            && Blocks(Join(chunks)) == Blocks(text)
            && JoinAll(Greedy(Blocks(Join(chunks)), maxChars)) == chunks
  {
    var blocks := Blocks(text);
    BlocksAreClean(text);
    GreedyIsGrouping(blocks, maxChars);
    JoinOfJoins(Greedy(blocks, maxChars));
    if |blocks| == 0 {
      BlankTextHasNoBlocks("");
      assert Join([]) == "" && Strip("") == "";
    } else {
      JoinedBlocksSplitBack(blocks);
      TrimmedStaysPut(Join(blocks));
    }
  }
}
