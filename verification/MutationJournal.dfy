/** The mutation journal: its lines on disk, the state rebuilt from them, and the live object. */
module MutationJournal {
  import opened FileTree
  import opened Snapshots
  import opened Wrappers

  type Id = string

  datatype Prepared = Prepared(id: Id, runId: string, createdAt: int, pre: seq<RootSnapshot>)

  datatype Record = Record(id: Id, runId: string, createdAt: int, pre: seq<RootSnapshot>, post: seq<RootSnapshot>)

  datatype Event =
    | PreparedEvent(mutation: Prepared)
    | CommittedEvent(id: Id, post: seq<RootSnapshot>)
    | RolledBackEvent(id: Id, reason: string)
    | UndoneEvent(id: Id)

  /** Insertion-ordered maps are sequences with distinct ids. */
  datatype State = State(prepared: seq<Prepared>, committed: seq<Record>, inactive: set<Id>)

  const EMPTY := State([], [], {})

  function FindPrepared(s: seq<Prepared>, id: Id): (r: Option<Prepared>)
    ensures r.Some? ==> r.value in s && r.value.id == id
    ensures r.None? ==> forall m :: m in s ==> m.id != id
  {
    if s == [] then None else if s[0].id == id then Some(s[0]) else FindPrepared(s[1..], id)
  }

  /** Setting an existing key keeps its place. */
  function PutPrepared(s: seq<Prepared>, m: Prepared): seq<Prepared> {
    if s == [] then [m] else if s[0].id == m.id then [m] + s[1..] else [s[0]] + PutPrepared(s[1..], m)
  }

  function PutRecord(s: seq<Record>, m: Record): seq<Record> {
    if s == [] then [m] else if s[0].id == m.id then [m] + s[1..] else [s[0]] + PutRecord(s[1..], m)
  }

  function DropPrepared(s: seq<Prepared>, id: Id): seq<Prepared> {
    if s == [] then [] else if s[0].id == id then DropPrepared(s[1..], id) else [s[0]] + DropPrepared(s[1..], id)
  }

  function ToRecord(m: Prepared, post: seq<RootSnapshot>): Record {
    Record(m.id, m.runId, m.createdAt, m.pre, post)
  }

  /** What one journal line means to the loader. */
  function Apply(s: State, e: Event): State {
    match e
    case PreparedEvent(m) => s.(prepared := PutPrepared(s.prepared, m))
    case CommittedEvent(id, post) =>
      (match FindPrepared(s.prepared, id)
       case None => s
       case Some(m) =>
         s.(committed := PutRecord(s.committed, ToRecord(m, post)), prepared := DropPrepared(s.prepared, id)))
    case RolledBackEvent(id, _) => s.(prepared := DropPrepared(s.prepared, id), inactive := s.inactive + {id})
    case UndoneEvent(id) => s.(inactive := s.inactive + {id})
  }

  function Replay(lines: seq<Event>): State {
    if lines == [] then EMPTY else Apply(Replay(lines[..|lines| - 1]), lines[|lines| - 1])
  }

  lemma {:induction false} ReplayAppend(lines: seq<Event>, e: Event)
    ensures Replay(lines + [e]) == Apply(Replay(lines), e)
  {
    assert (lines + [e])[..|lines|] == lines;
  }

  lemma {:induction false} ReplayPrefix(lines: seq<Event>, n: nat)
    requires n < |lines|
    ensures Replay(lines[..n + 1]) == Apply(Replay(lines[..n]), lines[n])
  {
    assert lines[..n + 1] == lines[..n] + [lines[n]];
    ReplayAppend(lines[..n], lines[n]);
  }

  /** How the file ends: with a newline, with half a line, or with a whole event that lacks only its newline. */
  datatype Tail = Whole | Torn | Unterminated

  /** The file: the events the loader reads from it, and its end. */
  datatype JournalFile = JournalFile(lines: seq<Event>, tail: Tail) {
    /** The events whose lines are complete; an unterminated last one is read but not safe. */
    function Kept(): seq<Event> {
      if tail.Unterminated? && lines != [] then lines[..|lines| - 1] else lines
    }

    /** What is glued to an incomplete line makes one malformed line with it, which the loader skips. */
    function Append(e: Event): JournalFile {
      JournalFile(if tail.Whole? then lines + [e] else Kept(), Whole)
    }

    /** An append that a crash cuts short: `readable` when only the newline is missing. */
    function Cut(e: Event, readable: bool): JournalFile {
      if tail.Whole? && readable then JournalFile(lines + [e], Unterminated) else JournalFile(Kept(), Torn)
    }
  }

  /** An append that finds an incomplete line is lost, and takes an event that only lacked its newline with it. */
  lemma {:induction false} AppendKeepsExactly(file: JournalFile, e: Event)
    ensures file.Append(e).lines == file.lines + [e] <==> file.tail.Whole?
    ensures file.lines <= file.Append(e).lines <==> !(file.tail.Unterminated? && file.lines != [])
  {
    if !file.tail.Whole? {
      assert |file.Append(e).lines| <= |file.lines|;
    }
  }

  function AppendAll(file: JournalFile, es: seq<Event>): JournalFile {
    if es == [] then file else AppendAll(file, es[..|es| - 1]).Append(es[|es| - 1])
  }

  lemma {:induction false} AppendOneMore(file: JournalFile, es: seq<Event>, e: Event)
    ensures AppendAll(file, es + [e]) == AppendAll(file, es).Append(e)
  {
    assert (es + [e])[..|es|] == es;
  }

  lemma {:induction false} WholeFilesGrow(file: JournalFile, es: seq<Event>)
    requires file.tail.Whole?
    ensures AppendAll(file, es) == JournalFile(file.lines + es, Whole)
  {
    if es == [] {
      assert file.lines + es == file.lines;
    } else {
      WholeFilesGrow(file, es[..|es| - 1]);
      assert file.lines + es == file.lines + es[..|es| - 1] + [es[|es| - 1]];
    }
  }

  // ---- Active records, in creation order ----

  function Active(s: State): seq<Record> {
    ActiveAmong(s.committed, s.inactive)
  }

  function ActiveAmong(rs: seq<Record>, inactive: set<Id>): seq<Record> {
    if rs == [] then [] else
      var n := |rs| - 1;
      ActiveAmong(rs[..n], inactive) + if rs[n].id in inactive then [] else [rs[n]]
  }

  function InsertByTime(r: Record, rs: seq<Record>): seq<Record> {
    if rs == [] || r.createdAt <= rs[0].createdAt then [r] + rs else [rs[0]] + InsertByTime(r, rs[1..])
  }

  /** The stable sort by creation time. */
  function ByTime(rs: seq<Record>): seq<Record> {
    if rs == [] then [] else InsertByTime(rs[0], ByTime(rs[1..]))
  }

  predicate TimesAscend(rs: seq<Record>) {
    forall i, j :: 0 <= i < j < |rs| ==> rs[i].createdAt <= rs[j].createdAt
  }

  lemma {:induction false} InsertIsPermutation(r: Record, rs: seq<Record>)
    ensures multiset(InsertByTime(r, rs)) == multiset(rs) + multiset{r}
  {
    if rs == [] || r.createdAt <= rs[0].createdAt {
      assert multiset([r] + rs) == multiset{r} + multiset(rs);
    } else {
      InsertIsPermutation(r, rs[1..]);
      assert rs == [rs[0]] + rs[1..];
      assert multiset(rs) == multiset{rs[0]} + multiset(rs[1..]);
    }
  }

  lemma {:induction false} InsertKeepsOrder(r: Record, rs: seq<Record>)
    requires TimesAscend(rs)
    ensures TimesAscend(InsertByTime(r, rs))
    ensures rs != [] && rs[0].createdAt < r.createdAt ==> InsertByTime(r, rs)[0] == rs[0]
  {
    if rs != [] && rs[0].createdAt < r.createdAt {
      var tail := rs[1..];
      assert forall i, j :: 0 <= i < j < |tail| ==> tail[i] == rs[i + 1] && tail[j] == rs[j + 1];
      InsertKeepsOrder(r, tail);
      var t := InsertByTime(r, tail);
      assert InsertByTime(r, rs) == [rs[0]] + t;
      assert rs[0].createdAt <= t[0].createdAt;
      assert forall j :: 0 < j < |t| ==> t[0].createdAt <= t[j].createdAt;
    }
  }

  lemma {:induction false} ByTimeSorts(rs: seq<Record>)
    ensures TimesAscend(ByTime(rs)) && multiset(ByTime(rs)) == multiset(rs)
  {
    hide InsertByTime;
    if rs != [] {
      ByTimeSorts(rs[1..]);
      InsertKeepsOrder(rs[0], ByTime(rs[1..]));
      InsertIsPermutation(rs[0], ByTime(rs[1..]));
      assert rs == [rs[0]] + rs[1..];
    }
  }

  /** What the listing holds: each committed record that is not inactive, as often as it was committed. */
  lemma {:induction false} ActiveIsExact(rs: seq<Record>, inactive: set<Id>, r: Record)
    ensures multiset(ActiveAmong(rs, inactive))[r] == if r.id in inactive then 0 else multiset(rs)[r]
    ensures r in ActiveAmong(rs, inactive) <==> r in rs && r.id !in inactive
    decreases |rs|
  {
    if rs != [] {
      var n := |rs| - 1;
      ActiveIsExact(rs[..n], inactive, r);
      assert rs == rs[..n] + [rs[n]];
    }
  }

  /** The records made at one time, in their order. */
  function At(rs: seq<Record>, t: int): seq<Record> {
    if rs == [] then [] else (if rs[0].createdAt == t then [rs[0]] else []) + At(rs[1..], t)
  }

  lemma {:induction false} InsertGoesFirst(r: Record, rs: seq<Record>, t: int)
    ensures At(InsertByTime(r, rs), t) == At([r], t) + At(rs, t)
  {
    if rs != [] && r.createdAt > rs[0].createdAt {
      InsertGoesFirst(r, rs[1..], t);
    } else {
      assert ([r] + rs)[1..] == rs;
    }
  }

  /** Records of the same time stay in journal order. */
  lemma {:induction false} ByTimeIsStable(rs: seq<Record>, t: int)
    ensures At(ByTime(rs), t) == At(rs, t)
  {
    if rs != [] {
      ByTimeIsStable(rs[1..], t);
      InsertGoesFirst(rs[0], ByTime(rs[1..]), t);
    }
  }

  lemma {:induction false} AtFindsTime(rs: seq<Record>, t: int)
    ensures At(rs, t) != [] <==> exists i :: 0 <= i < |rs| && rs[i].createdAt == t
  {
    if rs != [] && rs[0].createdAt != t {
      AtFindsTime(rs[1..], t);
      if i :| 0 <= i < |rs| && rs[i].createdAt == t { assert rs[1..][i - 1].createdAt == t; }
    }
  }

  /** Equal times come in the same order in both lists. */
  ghost predicate SameAtAnyTime(xs: seq<Record>, ys: seq<Record>) {
    forall t :: At(xs, t) == At(ys, t)
  }

  lemma {:induction false} HeadsAgree(xs: seq<Record>, ys: seq<Record>)
    requires TimesAscend(xs) && TimesAscend(ys) && SameAtAnyTime(xs, ys) && xs != []
    ensures ys != [] && ys[0] == xs[0]
  {
    var t := xs[0].createdAt;
    assert At(xs, t)[0] == xs[0] && At(ys, t) == At(xs, t);
    AtFindsTime(ys, t);
    AtFindsTime(xs, ys[0].createdAt);
    assert At(ys, ys[0].createdAt)[0] == ys[0] && At(xs, ys[0].createdAt) == At(ys, ys[0].createdAt);
  }

  /** Ascending times and an order kept among equal times leave only one list. */
  lemma {:induction false} StableOrderIsUnique(xs: seq<Record>, ys: seq<Record>)
    requires TimesAscend(xs) && TimesAscend(ys) && SameAtAnyTime(xs, ys)
    ensures xs == ys
  {
    var t := if ys == [] then 0 else ys[0].createdAt;
    assert At(xs, t) == At(ys, t);
    if xs != [] {
      HeadsAgree(xs, ys);
      forall u ensures At(xs[1..], u) == At(ys[1..], u) {
        var n := if xs[0].createdAt == u then 1 else 0;
        assert At(xs, u)[n..] == At(xs[1..], u) && At(ys, u)[n..] == At(ys[1..], u) && At(xs, u) == At(ys, u);
      }
      StableOrderIsUnique(xs[1..], ys[1..]);
      assert xs == [xs[0]] + xs[1..] && ys == [ys[0]] + ys[1..];
    }
  }

  lemma {:induction false} ListingHolds(s: State, r: Record)
    ensures r in ByTime(Active(s)) <==> r in s.committed && r.id !in s.inactive
  {
    ByTimeSorts(Active(s));
    assert r in ByTime(Active(s)) <==> r in multiset(ByTime(Active(s)));
    ActiveIsExact(s.committed, s.inactive, r);
  }

  /**
   * The listing holds exactly the committed records that are not inactive, oldest first and records of one
   * time in journal order, and no other list does.
   */
  lemma {:induction false} ListingIsExact(s: State, rs: seq<Record>)
    ensures forall r :: r in ByTime(Active(s)) <==> r in s.committed && r.id !in s.inactive
    ensures rs == ByTime(Active(s)) <==> TimesAscend(rs) && SameAtAnyTime(rs, Active(s))
  {
    hide TimesAscend, ByTime, At, Active;
    var listing := ByTime(Active(s));
    forall r ensures r in listing <==> r in s.committed && r.id !in s.inactive {
      ListingHolds(s, r);
    }
    ByTimeSorts(Active(s));
    forall t ensures At(listing, t) == At(Active(s), t) {
      ByTimeIsStable(Active(s), t);
    }
    if TimesAscend(rs) && SameAtAnyTime(rs, Active(s)) {
      forall t ensures At(rs, t) == At(listing, t) {
        assert At(rs, t) == At(Active(s), t);
      }
      StableOrderIsUnique(rs, listing);
    }
  }

  /** The listing keeps journal order exactly when the clock never ran backwards between records. */
  lemma {:induction false} ListingKeepsJournalOrder(rs: seq<Record>)
    ensures ByTime(rs) == rs <==> TimesAscend(rs)
  {
    hide TimesAscend, ByTime, At;
    ByTimeSorts(rs);
    forall t ensures At(rs, t) == At(ByTime(rs), t) {
      ByTimeIsStable(rs, t);
    }
    if TimesAscend(rs) {
      StableOrderIsUnique(rs, ByTime(rs));
    }
  }

  // ---- The live object ----

  class Journal {
    var prepared: seq<Prepared>
    var committed: seq<Record>
    var inactive: set<Id>
    var file: JournalFile

    function Live(): State
      reads this
    {
      State(prepared, committed, inactive)
    }

    /** What a restart would rebuild is what the object holds. */
    predicate InStep()
      reads this
    {
      Live() == Replay(file.lines)
    }

    constructor (onDisk: JournalFile)
      ensures file == onDisk && InStep()
    {
      prepared, committed, inactive, file := [], [], {}, onDisk;
      new;
      var n := 0;
      while n < |onDisk.lines|
        invariant 0 <= n <= |onDisk.lines| && file == onDisk
        invariant Live() == Replay(onDisk.lines[..n])
      {
        var event := onDisk.lines[n];
        ghost var before := Live();
        match event {
          case PreparedEvent(m) => prepared := PutPrepared(prepared, m);
          case CommittedEvent(id, post) =>
            var found := FindPrepared(prepared, id);
            if found.Some? {
              committed := PutRecord(committed, ToRecord(found.value, post));
              prepared := DropPrepared(prepared, id);
            }
          case RolledBackEvent(id, _) =>
            prepared := DropPrepared(prepared, id);
            inactive := inactive + {id};
          case UndoneEvent(id) => inactive := inactive + {id};
        }
        assert Live() == Apply(before, event);
        ReplayPrefix(onDisk.lines, n);
        n := n + 1;
      }
      assert onDisk.lines[..n] == onDisk.lines;
    }

    method AppendPrepared(m: Prepared)
      modifies this
      ensures Live() == Apply(old(Live()), PreparedEvent(m)) && file == old(file).Append(PreparedEvent(m))
      ensures old(InStep()) && old(file).tail.Whole? ==> InStep()
    {
      ReplayAppend(file.lines, PreparedEvent(m));
      file := file.Append(PreparedEvent(m));
      prepared := PutPrepared(prepared, m);
    }

    /** Refuses an id with no prepared mutation, and then writes nothing. */
    method AppendCommitted(id: Id, post: seq<RootSnapshot>) returns (r: Option<Record>)
      modifies this
      ensures r.None? <==> FindPrepared(old(prepared), id).None?
      ensures r.None? ==> Live() == old(Live()) && file == old(file)
      ensures r.Some? ==> Live() == Apply(old(Live()), CommittedEvent(id, post))
      ensures r.Some? ==> file == old(file).Append(CommittedEvent(id, post))
      ensures r.Some? ==> r.value == ToRecord(FindPrepared(old(prepared), id).value, post)
      ensures old(InStep()) && old(file).tail.Whole? ==> InStep()
    {
      var found := FindPrepared(prepared, id);
      if found.None? {
        return None;
      }
      ReplayAppend(file.lines, CommittedEvent(id, post));
      file := file.Append(CommittedEvent(id, post));
      var record := ToRecord(found.value, post);
      committed := PutRecord(committed, record);
      prepared := DropPrepared(prepared, id);
      r := Some(record);
    }

    method AppendRolledBack(id: Id, reason: string)
      modifies this
      ensures Live() == Apply(old(Live()), RolledBackEvent(id, reason))
      ensures file == old(file).Append(RolledBackEvent(id, reason))
      ensures old(InStep()) && old(file).tail.Whole? ==> InStep()
    {
      ReplayAppend(file.lines, RolledBackEvent(id, reason));
      file := file.Append(RolledBackEvent(id, reason));
      prepared := DropPrepared(prepared, id);
      inactive := inactive + {id};
    }

    method AppendUndone(id: Id)
      modifies this
      ensures Live() == Apply(old(Live()), UndoneEvent(id)) && file == old(file).Append(UndoneEvent(id))
      ensures old(InStep()) && old(file).tail.Whole? ==> InStep()
    {
      ReplayAppend(file.lines, UndoneEvent(id));
      file := file.Append(UndoneEvent(id));
      inactive := inactive + {id};
    }

    method ListActive() returns (rs: seq<Record>)
      ensures rs == ByTime(Active(Live()))
      ensures forall r :: r in rs <==> r in committed && r.id !in inactive
      ensures TimesAscend(rs) && SameAtAnyTime(rs, Active(Live()))
    {
      rs := ByTime(ActiveAmong(committed, inactive));
      ListingIsExact(Live(), rs);
    }
  }
}
