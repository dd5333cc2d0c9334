/** Rebuilding a depth-first snapshot from an unordered set of entries, and composing final roots in place. */
module SnapshotOrder {
  import opened Paths
  import opened FileTree
  import opened Snapshots
  import opened MutationJournal
  import opened Composition

  /** Sibling paths compare as their last names do. */
  lemma {:induction false} SiblingsCompareByName(p: Path, n: Name, m: Name)
    ensures NameLess(Render(p + [n]), Render(p + [m])) <==> NameLess(n, m)
  {
    SlashedSplit(p, n);
    SlashedSplit(p, m);
    var x := Slashed(p);
    assert Render(p + [n]) == x + n && Render(p + [m]) == x + m;
    CommonPrefix(x, n, m);
  }

  lemma {:induction false} SlashedSplit(p: Path, n: Name)
    ensures Slashed(p + [n]) == Slashed(p) + n + [SLASH]
  {
    if p == [] {
      assert [n][1..] == [];
    } else {
      SlashedSplit(p[1..], n);
      assert (p + [n])[1..] == p[1..] + [n];
    }
  }

  lemma {:induction false} CommonPrefix(x: Name, a: Name, b: Name)
    ensures NameLess(x + a, x + b) <==> NameLess(a, b)
  {
    if x == [] {
      assert x + a == a && x + b == b;
    } else {
      CommonPrefix(x[1..], a, b);
      assert (x + a)[1..] == x[1..] + a && (x + b)[1..] == x[1..] + b;
    }
  }

  ghost predicate Listed(byPath: Tree, children: map<Path, seq<Name>>, p: Path) {
    if p in children then children[p] == Sorted(ChildNames(byPath, p)) else ChildNames(byPath, p) == {}
  }

  /** Everything from `p` downwards has its sorted children listed. */
  ghost predicate ListedFrom(byPath: Tree, children: map<Path, seq<Name>>, p: Path) {
    forall q :: p <= q && q in byPath ==> Listed(byPath, children, q)
  }

  lemma {:induction false} ListedFromChild(byPath: Tree, children: map<Path, seq<Name>>, p: Path, n: Name)
    requires ListedFrom(byPath, children, p)
    ensures ListedFrom(byPath, children, p + [n])
  {
    forall q | p + [n] <= q && q in byPath ensures Listed(byPath, children, q) {
      assert p <= p + [n];
    }
  }

  lemma JoinStep<T>(out: seq<T>, part: seq<T>, rest: seq<T>, total: seq<T>)
    requires out + (part + rest) == total
    ensures (out + part) + rest == total
  {
  }

  method Visit(byPath: Tree, children: map<Path, seq<Name>>, p: Path) returns (out: seq<Entry>)
    requires ListedFrom(byPath, children, p)
    ensures out == Capture(byPath, p)
    decreases Under(byPath, p), 1
  {
    if p !in byPath {
      return [];
    }
    var below: seq<Entry> := [];
    assert p <= p && Listed(byPath, children, p);
    if byPath[p].Directory? && p in children {
      below := VisitAll(byPath, children, p, children[p]);
    }
    if byPath[p].Directory? {
      assert ChildNames(byPath, p) == {} ==> Sorted(ChildNames(byPath, p)) == [];
      assert below == WalkAll(byPath, p, Sorted(ChildNames(byPath, p)));
    }
    out := [Entry(p, byPath[p])] + below;
  }

  method VisitAll(byPath: Tree, children: map<Path, seq<Name>>, p: Path, names: seq<Name>) returns (out: seq<Entry>)
    requires p in byPath && ListedFrom(byPath, children, p) && forall n :: n in names ==> p + [n] in byPath
    ensures out == WalkAll(byPath, p, names)
    decreases Under(byPath, p), 0
  {
    out := [];
    ghost var total := WalkAll(byPath, p, names);
    var i := 0;
    assert names[0..] == names;
    while i < |names|
      invariant 0 <= i <= |names| && out + WalkAll(byPath, p, names[i..]) == total
    {
      WalkAllStep(byPath, p, names, i);
      ListedFromChild(byPath, children, p, names[i]);
      var part := Visit(byPath, children, p + [names[i]]);
      JoinStep(out, part, WalkAll(byPath, p, names[i + 1..]), total);
      out := out + part;
      i := i + 1;
    }
    assert names[i..] == [];
  }

  /** `unsorted` lists, under each parent, the last names of all paths but the root. */
  ghost predicate Grouped(byPath: Tree, unsorted: map<Path, set<Name>>, root: Path) {
    && (forall q :: q in byPath ==> root <= q)
    && (forall p, n :: p in unsorted && n in unsorted[p] ==> p + [n] != root && p + [n] in byPath)
    && (forall q :: q in byPath && q != root ==> Parent(q) in unsorted && q[|q| - 1] in unsorted[Parent(q)])
  }

  lemma {:induction false} GroupOne(byPath: Tree, unsorted: map<Path, set<Name>>, root: Path, path: Path, node: Node)
    requires Grouped(byPath, unsorted, root) && root <= path && path != root
    ensures var parent, name := Parent(path), path[|path| - 1];
            var more := unsorted[parent := (if parent in unsorted then unsorted[parent] else {}) + {name}];
            Grouped(byPath[path := node], more, root)
  {
    var parent, name := Parent(path), path[|path| - 1];
    assert path == parent + [name];
  }

  lemma {:induction false} GroupedIsListed(byPath: Tree, unsorted: map<Path, set<Name>>, children: map<Path, seq<Name>>, root: Path)
    requires Grouped(byPath, unsorted, root) && children.Keys == unsorted.Keys
    requires forall p :: p in children ==> children[p] == Sorted(unsorted[p])
    ensures ListedFrom(byPath, children, root)
  {
    forall q | root <= q && q in byPath ensures Listed(byPath, children, q) {
      GroupedChildren(byPath, unsorted, root, q);
    }
  }

  lemma {:induction false} GroupedChildren(byPath: Tree, unsorted: map<Path, set<Name>>, root: Path, q: Path)
    requires Grouped(byPath, unsorted, root) && root <= q
    ensures ChildNames(byPath, q) == if q in unsorted then unsorted[q] else {}
  {
    forall n | q + [n] in byPath ensures q in unsorted && n in unsorted[q] {
      var c := q + [n];
      assert Parent(c) == q && c[|c| - 1] == n && c != root;
    }
  }

  method GroupByParent(entries: seq<Entry>, root: Path) returns (byPath: Tree, unsorted: map<Path, set<Name>>)
    requires forall e :: e in entries ==> root <= e.path
    ensures byPath == AddEntries(map[], entries) && Grouped(byPath, unsorted, root)
  {
    byPath, unsorted := map[], map[];
    var i := 0;
    while i < |entries|
      invariant 0 <= i <= |entries| && byPath == AddEntries(map[], entries[..i])
      invariant Grouped(byPath, unsorted, root)
    {
      var path, node := entries[i].path, entries[i].node;
      assert entries[i] in entries;
      assert entries[..i + 1][..i] == entries[..i];
      if path != root {
        GroupOne(byPath, unsorted, root, path, node);
        var parent := Parent(path);
        unsorted := unsorted[parent := (if parent in unsorted then unsorted[parent] else {}) + {path[|path| - 1]}];
      }
      byPath := byPath[path := node];
      i := i + 1;
    }
    assert entries[..i] == entries;
  }

  /** Sorts entries within a root into the order a capture of that root produces. */
  method OrderSnapshotEntries(entries: seq<Entry>, root: Path) returns (ordered: seq<Entry>)
    requires forall e :: e in entries ==> root <= e.path
    ensures ordered == Capture(AddEntries(map[], entries), root)
  {
    var byPath, unsorted := GroupByParent(entries, root);
    var children := SortGroups(unsorted);
    GroupedIsListed(byPath, unsorted, children, root);
    ordered := Visit(byPath, children, root);
  }

  method SortGroups(unsorted: map<Path, set<Name>>) returns (children: map<Path, seq<Name>>)
    ensures children.Keys == unsorted.Keys && forall p :: p in children ==> children[p] == Sorted(unsorted[p])
  {
    children := map[];
    var parents := unsorted.Keys;
    while parents != {}
      invariant parents <= unsorted.Keys && children.Keys == unsorted.Keys - parents
      invariant forall p :: p in children ==> children[p] == Sorted(unsorted[p])
    {
      var p :| p in parents;
      var names := SortNames(unsorted[p]);
      children := children[p := names];
      parents := parents - {p};
    }
  }

  /** The entries of a map that lie within a root, in some order. */
  method EntriesWithin(all: Tree, root: Path) returns (es: seq<Entry>)
    ensures forall e :: e in es ==> root <= e.path
    ensures AddEntries(map[], es) == Restrict(all, root)
  {
    es := [];
    var rest := Restrict(all, root).Keys;
    ghost var added: Tree := map[];
    while rest != {}
      invariant rest <= Restrict(all, root).Keys && added.Keys == Restrict(all, root).Keys - rest
      invariant added == AddEntries(map[], es) && forall q :: q in added ==> added[q] == all[q]
      invariant forall i :: 0 <= i < |es| ==> es[i].path in added && root <= es[i].path
    {
      var q :| q in rest;
      es := es + [Entry(q, all[q])];
      assert es[..|es| - 1] + [es[|es| - 1]] == es;
      added := added[q := all[q]];
      rest := rest - {q};
    }
    assert added == Restrict(all, root);
  }

  /** Writes the post snapshots of one record over the entry map. */
  method AddPosts(before: Tree, post: seq<RootSnapshot>) returns (entries: Tree)
    ensures entries == AddSnapshots(before, post)
  {
    entries := before;
    var k := 0;
    while k < |post|
      invariant 0 <= k <= |post| && entries == AddSnapshots(before, post[..k])
    {
      assert post[..k + 1][..k] == post[..k];
      entries := Remove(entries, post[k].path);
      ghost var cleared := entries;
      var added := post[k].entries;
      var j := 0;
      while j < |added|
        invariant 0 <= j <= |added| && entries == AddEntries(cleared, added[..j])
      {
        assert added[..j + 1][..j] == added[..j];
        entries := entries[added[j].path := added[j].node];
        j := j + 1;
      }
      assert added[..j] == added;
      k := k + 1;
    }
    assert post[..k] == post;
  }

  /** Replays post snapshots into one entry map, then orders each top-level root. */
  method ComposeRoots(records: seq<Record>) returns (r: seq<RootSnapshot>)
    ensures r == ComposeFinalRoots(records)
  {
    var rootPaths: seq<Path> := [];
    var entries: Tree := map[];
    var i := 0;
    while i < |records|
      invariant 0 <= i <= |records|
      invariant rootPaths == PostPaths(records[..i]) && entries == ComposeEntries(records[..i])
    {
      assert records[..i + 1][..i] == records[..i];
      rootPaths := rootPaths + PathsOf(records[i].post);
      entries := AddPosts(entries, records[i].post);
      i := i + 1;
    }
    assert records[..i] == records;
    r := OrderAll(entries, TopLevelRoots(rootPaths));
  }

  method OrderAll(entries: Tree, tops: seq<Path>) returns (r: seq<RootSnapshot>)
    ensures r == CaptureAll(entries, tops)
  {
    r := [];
    var i := 0;
    while i < |tops|
      invariant 0 <= i <= |tops| && |r| == i
      invariant forall k :: 0 <= k < i ==> r[k] == RootSnapshot(tops[k], Capture(entries, tops[k]))
    {
      var within := EntriesWithin(entries, tops[i]);
      var ordered := OrderSnapshotEntries(within, tops[i]);
      CaptureWithin(entries, tops[i]);
      r := r + [RootSnapshot(tops[i], ordered)];
      i := i + 1;
    }
  }

  lemma {:induction false} CaptureWithin(t: Tree, root: Path)
    ensures Capture(Restrict(t, root), root) == Capture(t, root)
  {
    var u := Restrict(t, root);
    assert root <= root;
    assert Restrict(u, root) == u;
    if root in t { WalkIsLocal(t, u, root); }
  }
}
