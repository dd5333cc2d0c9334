/** The blob store behind the snapshots: contents by digest, what a restore reads of them, and what a torn one does. */
module BlobStore {
  import opened Paths
  import opened FileTree
  import opened Snapshots
  import opened Wrappers

  /** By digest; a digest is written as the content it is the digest of. */
  type Blobs = map<Content, Content>

  /** What a restore reads for an entry; entries whose blob is missing cannot be read. */
  function Load(blobs: Blobs, node: Node): Node {
    if node.File? && node.content in blobs then File(blobs[node.content]) else node
  }

  function LoadEntries(blobs: Blobs, es: seq<Entry>): (r: seq<Entry>)
    ensures |r| == |es|
    ensures forall i :: 0 <= i < |r| ==> r[i] == Entry(es[i].path, Load(blobs, es[i].node))
  {
    seq(|es|, i requires 0 <= i < |es| => Entry(es[i].path, Load(blobs, es[i].node)))
  }

  function LoadSnapshots(blobs: Blobs, snaps: seq<RootSnapshot>): (r: seq<RootSnapshot>)
    ensures |r| == |snaps|
    ensures forall i :: 0 <= i < |r| ==> r[i] == RootSnapshot(snaps[i].path, LoadEntries(blobs, snaps[i].entries))
  {
    seq(|snaps|, i requires 0 <= i < |snaps| => RootSnapshot(snaps[i].path, LoadEntries(blobs, snaps[i].entries)))
  }

  predicate Readable(blobs: Blobs, es: seq<Entry>) {
    forall e :: e in es && e.node.File? ==> e.node.content in blobs
  }

  predicate AllReadable(blobs: Blobs, snaps: seq<RootSnapshot>) {
    forall i :: 0 <= i < |snaps| ==> Readable(blobs, snaps[i].entries)
  }

  /** Every blob the entries name is there and is the content its name promises. */
  predicate WholeIn(blobs: Blobs, es: seq<Entry>) {
    forall e :: e in es && e.node.File? ==> e.node.content in blobs && blobs[e.node.content] == e.node.content
  }

  predicate AllWhole(blobs: Blobs, snaps: seq<RootSnapshot>) {
    forall i :: 0 <= i < |snaps| ==> WholeIn(blobs, snaps[i].entries)
  }

  /** The name of no content is taken by anything else, so that a capture leaves all its blobs whole. */
  predicate Storable(blobs: Blobs, snaps: seq<RootSnapshot>) {
    forall i, e :: 0 <= i < |snaps| && e in snaps[i].entries && e.node.File? && e.node.content in blobs ==>
      blobs[e.node.content] == e.node.content
  }

  /** What is stored is never rewritten. */
  predicate Extends(was: Blobs, now: Blobs) {
    forall c :: c in was ==> c in now && now[c] == was[c]
  }

  /** What a capture does to the store: it adds whole blobs. */
  predicate Grew(was: Blobs, now: Blobs) {
    Extends(was, now) && forall c :: c in now && c !in was ==> now[c] == c
  }

  lemma GrewFurther(first: Blobs, was: Blobs, now: Blobs)
    requires Grew(first, was) && Grew(was, now)
    ensures Grew(first, now) && Extends(was, now)
  {
  }

  lemma {:induction false} WholeLoads(blobs: Blobs, snaps: seq<RootSnapshot>)
    requires AllReadable(blobs, snaps)
    ensures LoadSnapshots(blobs, snaps) == snaps <==> AllWhole(blobs, snaps)
  {
    if AllWhole(blobs, snaps) {
      forall i | 0 <= i < |snaps| ensures LoadEntries(blobs, snaps[i].entries) == snaps[i].entries {
        assert WholeIn(blobs, snaps[i].entries);
      }
    } else {
      var i :| 0 <= i < |snaps| && !WholeIn(blobs, snaps[i].entries);
      assert Readable(blobs, snaps[i].entries);
      var e :| e in snaps[i].entries && e.node.File? && blobs[e.node.content] != e.node.content;
      var k :| 0 <= k < |snaps[i].entries| && snaps[i].entries[k] == e;
      assert LoadEntries(blobs, snaps[i].entries)[k] != e;
      assert LoadSnapshots(blobs, snaps)[i].entries != snaps[i].entries;
    }
  }

  lemma {:induction false} WholeIsReadable(blobs: Blobs, snaps: seq<RootSnapshot>)
    requires AllWhole(blobs, snaps)
    ensures AllReadable(blobs, snaps) && LoadSnapshots(blobs, snaps) == snaps
  {
    forall i | 0 <= i < |snaps| ensures Readable(blobs, snaps[i].entries) {
      assert WholeIn(blobs, snaps[i].entries);
    }
    WholeLoads(blobs, snaps);
  }

  /** Whatever is stored later, also half, what could be read is read the same, whole or not. */
  lemma {:induction false} StoringKeepsReading(was: Blobs, now: Blobs, snaps: seq<RootSnapshot>)
    requires Extends(was, now) && AllReadable(was, snaps)
    ensures AllReadable(now, snaps) && LoadSnapshots(now, snaps) == LoadSnapshots(was, snaps)
    ensures AllWhole(now, snaps) <==> AllWhole(was, snaps)
  {
    forall i | 0 <= i < |snaps|
      ensures Readable(now, snaps[i].entries) && LoadEntries(now, snaps[i].entries) == LoadEntries(was, snaps[i].entries)
      ensures WholeIn(now, snaps[i].entries) <==> WholeIn(was, snaps[i].entries)
    {
      assert Readable(was, snaps[i].entries);
      forall e | e in snaps[i].entries && e.node.File? ensures e.node.content in was {
      }
    }
  }

  lemma {:induction false} CapturedAreWhole(was: Blobs, now: Blobs, snaps: seq<RootSnapshot>)
    requires Grew(was, now) && AllReadable(now, snaps)
    ensures AllWhole(now, snaps) <==> Storable(was, snaps)
  {
    if Storable(was, snaps) {
      forall i | 0 <= i < |snaps| ensures WholeIn(now, snaps[i].entries) {
        assert Readable(now, snaps[i].entries);
      }
    }
    if AllWhole(now, snaps) {
      forall i, e | 0 <= i < |snaps| && e in snaps[i].entries && e.node.File? && e.node.content in was
        ensures was[e.node.content] == e.node.content
      {
        assert WholeIn(now, snaps[i].entries);
      }
    }
  }

  /** The restore of a list of roots as it reads the store: None where a blob is missing or the file system refuses. */
  function RestoreStored(blobs: Blobs, t: Tree, snaps: seq<RootSnapshot>): Option<Tree> {
    if AllReadable(blobs, snaps) then RestoreRoots(t, LoadSnapshots(blobs, snaps)) else None
  }

  lemma LoadAppend(blobs: Blobs, a: seq<Entry>, b: seq<Entry>)
    ensures LoadEntries(blobs, a + b) == LoadEntries(blobs, a) + LoadEntries(blobs, b)
  {
  }

  function LoadTree(blobs: Blobs, t: Tree): Tree {
    map q | q in t :: Load(blobs, t[q])
  }

  lemma {:induction false} WalkLoads(blobs: Blobs, t: Tree, p: Path)
    requires p in t
    ensures Walk(LoadTree(blobs, t), p) == LoadEntries(blobs, Walk(t, p))
    decreases Under(t, p), 1, 0
  {
    var u := LoadTree(blobs, t);
    if t[p].Directory? {
      assert ChildNames(u, p) == ChildNames(t, p);
      var names := Sorted(ChildNames(t, p));
      WalkAllLoads(blobs, t, p, names);
      LoadAppend(blobs, [Entry(p, t[p])], WalkAll(t, p, names));
      assert LoadEntries(blobs, [Entry(p, t[p])]) == [Entry(p, u[p])];
    }
  }

  lemma {:induction false} WalkAllLoads(blobs: Blobs, t: Tree, p: Path, names: seq<Name>)
    requires p in t && forall n :: n in names ==> p + [n] in t
    ensures WalkAll(LoadTree(blobs, t), p, names) == LoadEntries(blobs, WalkAll(t, p, names))
    decreases Under(t, p), 0, |names|
  {
    if names != [] {
      var child := p + [names[0]];
      WalkAllStep(t, p, names, 0);
      WalkLoads(blobs, t, child);
      WalkAllLoads(blobs, t, p, names[1..]);
      LoadAppend(blobs, Walk(t, child), WalkAll(t, p, names[1..]));
    }
  }

  lemma {:induction false} LoadTreeKeepsShape(blobs: Blobs, t: Tree, u: Tree, roots: seq<Path>)
    requires TreeShaped(t) && ParentsExist(Overwrite(u, roots, t), roots)
    ensures TreeShaped(LoadTree(blobs, t)) && ParentsExist(Overwrite(u, roots, LoadTree(blobs, t)), roots)
  {
    var l := LoadTree(blobs, t);
    var r, x := Overwrite(u, roots, l), Overwrite(u, roots, t);
    forall i, a | 0 <= i < |roots| && ProperlyCovers(a, roots[i]) ensures IsDirectory(r, a) {
      assert ParentExists(x, roots[i]) && IsDirectory(x, a);
      if Covered(roots, a) { assert Same(r, l, a) && Same(x, t, a); } else { assert Same(r, u, a) && Same(x, u, a); }
    }
  }

  lemma {:induction false} LoadedCaptures(blobs: Blobs, t: Tree, roots: seq<Path>)
    ensures CaptureAll(LoadTree(blobs, t), roots) == LoadSnapshots(blobs, CaptureAll(t, roots))
  {
    var u := LoadTree(blobs, t);
    forall i | 0 <= i < |roots| ensures Capture(u, roots[i]) == LoadEntries(blobs, Capture(t, roots[i])) {
      if roots[i] in t { WalkLoads(blobs, t, roots[i]); }
    }
  }

  /** A restore through the store brings back what the store holds of `base`, whatever was there, and nothing else changes. */
  lemma {:induction false} RestoreStoredIsExact(blobs: Blobs, base: Tree, t: Tree, roots: seq<Path>)
    requires TreeShaped(base) && OuterRootsFirst(roots) && ParentsExist(Overwrite(t, roots, base), roots)
    requires AllReadable(blobs, CaptureAll(base, roots))
    ensures RestoreStored(blobs, t, CaptureAll(base, roots)) == Some(Overwrite(t, roots, LoadTree(blobs, base)))
  {
    LoadedCaptures(blobs, base, roots);
    LoadTreeKeepsShape(blobs, base, t, roots);
    RestoreRootsIsExact(t, roots, LoadTree(blobs, base));
  }

  /**
   * A blob half-written in a crash keeps its name and is never rewritten. Roots put back from the store are as
   * they were exactly when every blob their snapshots name is whole.
   */
  lemma {:induction false} RestoreNeedsWholeBlobs(blobs: Blobs, base: Tree, t: Tree, roots: seq<Path>)
    requires TreeShaped(base) && AllReadable(blobs, CaptureAll(base, roots))
    ensures Overwrite(t, roots, LoadTree(blobs, base)) == Overwrite(t, roots, base) <==>
            AllWhole(blobs, CaptureAll(base, roots))
  {
    var u := LoadTree(blobs, base);
    var got, want := Overwrite(t, roots, u), Overwrite(t, roots, base);
    if AllWhole(blobs, CaptureAll(base, roots)) {
      forall q ensures Same(got, want, q) {
        if Covered(roots, q) {
          WholeAt(blobs, base, roots, q);
          assert Same(got, u, q) && Same(want, base, q);
        } else {
          assert Same(got, t, q) && Same(want, t, q);
        }
      }
      SameEverywhere(got, want);
    }
    if got == want {
      forall q | Covered(roots, q) ensures Same(u, base, q) {
        assert Same(got, u, q) && Same(want, base, q);
      }
      CapturesAgree(u, base, roots);
      LoadedCaptures(blobs, base, roots);
      WholeLoads(blobs, CaptureAll(base, roots));
    }
  }

  lemma {:induction false} WholeAt(blobs: Blobs, base: Tree, roots: seq<Path>, q: Path)
    requires TreeShaped(base) && AllWhole(blobs, CaptureAll(base, roots)) && Covered(roots, q)
    ensures Same(LoadTree(blobs, base), base, q)
  {
    if q in base {
      var i :| 0 <= i < |roots| && roots[i] <= q;
      assert WholeIn(blobs, CaptureAll(base, roots)[i].entries);
      CaptureLists(base, roots[i], Entry(q, base[q]));
    }
  }
}
