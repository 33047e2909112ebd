/** Conflict detection between the change lists of several branches. */
module Conflicts {

  type BranchId = nat
  type FilePath = string

  datatype Kind = Modified | Added | Deleted

  datatype FileChange = FileChange(kind: Kind, path: FilePath)

  datatype BranchResult = BranchResult(id: BranchId, changes: seq<FileChange>)

  datatype Conflict = Conflict(path: FilePath, branches: seq<BranchId>)

  predicate ChangesConflict(a: FileChange, b: FileChange) {
    a.path == b.path
    && ((a.kind.Modified? && b.kind.Modified?) || a.kind.Deleted? || b.kind.Deleted?
       || (a.kind.Added? && b.kind.Added?))
  }

  /** All change occurrences, branch after branch. */
  function All(branches: seq<BranchResult>): seq<FileChange> {
    if branches == [] then [] else All(branches[..|branches| - 1]) + branches[|branches| - 1].changes
  }

  /** Two distinct occurrences on `p` conflict. */
  ghost predicate Clashes(all: seq<FileChange>, p: FilePath) {
    exists i, j :: 0 <= i < j < |all| && all[i].path == p && ChangesConflict(all[i], all[j])
  }

  function On(changes: seq<FileChange>, p: FilePath): seq<FileChange> {
    if changes == [] then []
    else On(changes[..|changes| - 1], p)
         + if changes[|changes| - 1].path == p then [changes[|changes| - 1]] else []
  }

  /** The branch `id`, once for each of its changes on `p`. */
  function OwnersIn(id: BranchId, changes: seq<FileChange>, p: FilePath): seq<BranchId> {
    if changes == [] then []
    else OwnersIn(id, changes[..|changes| - 1], p) + if changes[|changes| - 1].path == p then [id] else []
  }

  /** For each occurrence on `p`, the branch it comes from. */
  function Owners(branches: seq<BranchResult>, p: FilePath): seq<BranchId> {
    if branches == [] then []
    else Owners(branches[..|branches| - 1], p)
         + OwnersIn(branches[|branches| - 1].id, branches[|branches| - 1].changes, p)
  }

  /** Where a change is: in which branch, and at which of its changes. */
  datatype Place = Place(branch: nat, change: nat)

  predicate Earlier(a: Place, b: Place) {
    a.branch < b.branch || (a.branch == b.branch && a.change < b.change)
  }

  ghost predicate InOrder(at: seq<Place>) {
    forall i, j :: 0 <= i < j < |at| ==> Earlier(at[i], at[j])
  }

  predicate IsOn(branches: seq<BranchResult>, p: FilePath, q: Place) {
    && q.branch < |branches| && q.change < |branches[q.branch].changes|
    && branches[q.branch].changes[q.change].path == p
  }

  /** `at` lists the places of the changes on `p` in order. */
  ghost predicate Locates(branches: seq<BranchResult>, p: FilePath, at: seq<Place>) {
    InOrder(at) && forall q :: q in at <==> IsOn(branches, p, q)
  }

  /** `owners` are the branches of the changes on `p`, in order and once for each change. */
  ghost predicate AreOwners(branches: seq<BranchResult>, p: FilePath, owners: seq<BranchId>) {
    exists at: seq<Place> :: Locates(branches, p, at) && |owners| == |at|
      && forall k :: 0 <= k < |at| ==> at[k].branch < |branches| && owners[k] == branches[at[k].branch].id
  }

  lemma {:induction false} OnConcat(a: seq<FileChange>, b: seq<FileChange>, p: FilePath)
    ensures On(a + b, p) == On(a, p) + On(b, p)
  {
    if b == [] {
      assert a + b == a;
    } else {
      assert (a + b)[..|a + b| - 1] == a + b[..|b| - 1];
      OnConcat(a, b[..|b| - 1], p);
    }
  }

  lemma {:induction false} OnMembers(all: seq<FileChange>, p: FilePath)
    ensures forall c :: c in On(all, p) <==> c in all && c.path == p
  {
    if all != [] {
      OnMembers(all[..|all| - 1], p);
      assert all == all[..|all| - 1] + [all[|all| - 1]];
    }
  }

  lemma {:induction false} OwnersLength(branches: seq<BranchResult>, p: FilePath)
    ensures |Owners(branches, p)| == |On(All(branches), p)|
  {
    if branches != [] {
      var n := |branches| - 1;
      OwnersLength(branches[..n], p);
      OnConcat(All(branches[..n]), branches[n].changes, p);
      OwnersInLength(branches[n].id, branches[n].changes, p);
    }
  }

  lemma {:induction false} OwnersInLength(id: BranchId, changes: seq<FileChange>, p: FilePath)
    ensures |OwnersIn(id, changes, p)| == |On(changes, p)|
  {
    if changes != [] {
      OwnersInLength(id, changes[..|changes| - 1], p);
    }
  }

  lemma {:induction false} OwnersInAre(id: BranchId, changes: seq<FileChange>, p: FilePath)
    ensures forall k :: 0 <= k < |OwnersIn(id, changes, p)| ==> OwnersIn(id, changes, p)[k] == id
  {
    if changes != [] {
      OwnersInAre(id, changes[..|changes| - 1], p);
    }
  }

  predicate IsOnIn(changes: seq<FileChange>, p: FilePath, n: nat, q: Place) {
    q.branch == n && q.change < |changes| && changes[q.change].path == p
  }

  /** `at` lists in order the places of the changes on `p` in branch `n`. */
  ghost predicate LocatesIn(changes: seq<FileChange>, p: FilePath, n: nat, at: seq<Place>) {
    InOrder(at) && forall q :: q in at <==> IsOnIn(changes, p, n, q)
  }

  lemma LocatesSnoc(changes: seq<FileChange>, c: FileChange, p: FilePath, n: nat, at: seq<Place>)
    requires LocatesIn(changes, p, n, at)
    ensures LocatesIn(changes + [c], p, n, if c.path == p then at + [Place(n, |changes|)] else at)
  {
    var at' := if c.path == p then at + [Place(n, |changes|)] else at;
    forall k | 0 <= k < |at| ensures Earlier(at[k], Place(n, |changes|)) {
      assert at[k] in at;
    }
    forall q ensures q in at' <==> IsOnIn(changes + [c], p, n, q) {
      assert q in at <==> IsOnIn(changes, p, n, q);
    }
  }

  lemma {:induction false} OwnersInLocated(id: BranchId, changes: seq<FileChange>, p: FilePath, n: nat)
    returns (at: seq<Place>)
    ensures LocatesIn(changes, p, n, at) && |OwnersIn(id, changes, p)| == |at|
  {
    if changes == [] {
      at := [];
    } else {
      var init, c := changes[..|changes| - 1], changes[|changes| - 1];
      at := OwnersInLocated(id, init, p, n);
      LocatesSnoc(init, c, p, n, at);
      assert changes == init + [c];
      at := if c.path == p then at + [Place(n, |init|)] else at;
    }
  }

  lemma {:induction false} OwnersLocated(branches: seq<BranchResult>, p: FilePath) returns (at: seq<Place>)
    ensures Locates(branches, p, at) && |Owners(branches, p)| == |at|
    ensures forall k :: 0 <= k < |at| ==>
              at[k].branch < |branches| && Owners(branches, p)[k] == branches[at[k].branch].id
  {
    if branches == [] {
      at := [];
    } else {
      var n := |branches| - 1;
      var before := OwnersLocated(branches[..n], p);
      var last := OwnersInLocated(branches[n].id, branches[n].changes, p, n);
      at := before + last;
      OwnersInAre(branches[n].id, branches[n].changes, p);
      PlacesAppend(branches, p, before, last);
    }
  }

  lemma PlacesAppend(branches: seq<BranchResult>, p: FilePath, before: seq<Place>, last: seq<Place>)
    requires branches != [] && Locates(branches[..|branches| - 1], p, before)
    requires LocatesIn(branches[|branches| - 1].changes, p, |branches| - 1, last)
    ensures Locates(branches, p, before + last)
    ensures forall k :: 0 <= k < |last| ==> last[k].branch == |branches| - 1
  {
    var n, at := |branches| - 1, before + last;
    forall k | 0 <= k < |before| ensures before[k].branch < n {
      assert before[k] in before;
    }
    forall k | 0 <= k < |last| ensures last[k].branch == n {
      assert last[k] in last;
    }
    forall q ensures q in at <==> IsOn(branches, p, q) {
      assert q in before <==> IsOn(branches[..n], p, q);
      assert q in last <==> IsOnIn(branches[n].changes, p, n, q);
    }
  }

  lemma ClashesSnoc(init: seq<FileChange>, e: FileChange, p: FilePath)
    ensures Clashes(init + [e], p) <==>
              Clashes(init, p) || exists x :: x in init && x.path == p && ChangesConflict(x, e)
  {
    var all := init + [e];
    if Clashes(all, p) {
      var i, j :| 0 <= i < j < |all| && all[i].path == p && ChangesConflict(all[i], all[j]);
      assert all[i] == init[i] && init[i] in init;
      assert j < |init| ==> all[j] == init[j];
    }
    if Clashes(init, p) {
      var i, j :| 0 <= i < j < |init| && init[i].path == p && ChangesConflict(init[i], init[j]);
      assert all[i] == init[i] && all[j] == init[j];
    }
    if x :| x in init && x.path == p && ChangesConflict(x, e) {
      var i :| 0 <= i < |init| && init[i] == x;
      assert all[i] == x && all[|init|] == e;
    }
  }

  /** Restricting to one path neither loses nor invents a conflicting pair. */
  lemma {:induction false} PairsSurvive(all: seq<FileChange>, p: FilePath)
    ensures Clashes(On(all, p), p) <==> Clashes(all, p)
  {
    if all != [] {
      var init, e := all[..|all| - 1], all[|all| - 1];
      assert all == init + [e];
      PairsSurvive(init, p);
      OnMembers(init, p);
      ClashesSnoc(init, e, p);
      if e.path == p {
        ClashesSnoc(On(init, p), e, p);
      } else {
        assert On(init, p) + [] == On(init, p);
      }
    }
  }

  lemma {:induction false} OnlyPath(all: seq<FileChange>, p: FilePath)
    ensures forall i :: 0 <= i < |On(all, p)| ==> On(all, p)[i].path == p
  {
    OnMembers(all, p);
    forall i | 0 <= i < |On(all, p)| ensures On(all, p)[i].path == p {
      assert On(all, p)[i] in On(all, p);
    }
  }

  function Kinds(changes: seq<FileChange>): seq<Kind> {
    seq(|changes|, i requires 0 <= i < |changes| => changes[i].kind)
  }

  /** On one path, everything conflicts except a single change, or one addition with one
      modification; in particular three or more occurrences always do. */
  lemma ClashByKinds(all: seq<FileChange>, p: FilePath)
    ensures Clashes(all, p) <==> |On(all, p)| >= 2 && multiset(Kinds(On(all, p))) != multiset{Added, Modified}
    ensures |On(all, p)| >= 3 ==> Clashes(all, p)
  {
    PairsSurvive(all, p);
    OnlyPath(all, p);
    ClashOfPath(On(all, p), p);
  }

  lemma ClashOfPath(xs: seq<FileChange>, p: FilePath)
    requires forall i :: 0 <= i < |xs| ==> xs[i].path == p
    ensures Clashes(xs, p) <==> |xs| >= 2 && multiset(Kinds(xs)) != multiset{Added, Modified}
    ensures |xs| >= 3 ==> Clashes(xs, p)
  {
    var ks := Kinds(xs);
    if |xs| >= 3 {
      assert ChangesConflict(xs[0], xs[1]) || ChangesConflict(xs[0], xs[2]) || ChangesConflict(xs[1], xs[2]);
      assert |multiset(ks)| == |ks|;
    } else if |xs| == 2 {
      assert Clashes(xs, p) <==> ChangesConflict(xs[0], xs[1]);
      assert ks == [ks[0], ks[1]];
      PairOfKinds(ks[0], ks[1]);
    }
  }

  lemma PairOfKinds(a: Kind, b: Kind)
    ensures multiset([a, b]) == multiset{Added, Modified} <==> (a.Added? && b.Modified?) || (a.Modified? && b.Added?)
  {}

  /** The kinds of the occurrences on `p`, as a multiset. */
  function KindsOn(all: seq<FileChange>, p: FilePath): multiset<Kind> {
    multiset(Kinds(On(all, p)))
  }

  lemma KindsOfConcat(x: seq<FileChange>, y: seq<FileChange>)
    ensures multiset(Kinds(x + y)) == multiset(Kinds(x)) + multiset(Kinds(y))
  {
    assert Kinds(x + y) == Kinds(x) + Kinds(y);
  }

  lemma KindsConcat(a: seq<FileChange>, b: seq<FileChange>, p: FilePath)
    ensures KindsOn(a + b, p) == KindsOn(a, p) + KindsOn(b, p)
  {
    OnConcat(a, b, p);
    KindsOfConcat(On(a, p), On(b, p));
  }

  lemma {:induction false} AllConcat(a: seq<BranchResult>, b: seq<BranchResult>)
    ensures All(a + b) == All(a) + All(b)
  {
    if b == [] {
      assert a + b == a;
    } else {
      var init, last := b[..|b| - 1], b[|b| - 1];
      AllConcat(a, init);
      assert (a + b)[..|a + b| - 1] == a + init && (a + b)[|a + b| - 1] == last;
      assert (All(a) + All(init)) + last.changes == All(a) + (All(init) + last.changes);
    }
  }

  lemma KindsOnInsert(a: seq<BranchResult>, x: BranchResult, b: seq<BranchResult>, p: FilePath)
    ensures KindsOn(All(a + [x] + b), p) == KindsOn(All(a + b), p) + KindsOn(x.changes, p)
  {
    AllConcat(a + [x], b);
    AllConcat(a, [x]);
    AllConcat(a, b);
    assert All([x]) == x.changes by { assert [x][..0] == []; }
    KindsConcat(All(a + [x]), All(b), p);
    KindsConcat(All(a), x.changes, p);
    KindsConcat(All(a), All(b), p);
  }

  lemma {:induction false} KindsOnPermutes(bs: seq<BranchResult>, cs: seq<BranchResult>, p: FilePath)
    requires multiset(bs) == multiset(cs)
    ensures KindsOn(All(bs), p) == KindsOn(All(cs), p)
    decreases |bs|
  {
    assert |bs| == |multiset(bs)| == |multiset(cs)| == |cs|;
    if bs != [] {
      var n, x := |bs| - 1, bs[|bs| - 1];
      assert bs == bs[..n] + [x] + [];
      assert x in multiset(cs);
      var i :| 0 <= i < |cs| && cs[i] == x;
      var rest := cs[..i] + cs[i + 1..];
      assert cs == cs[..i] + [x] + cs[i + 1..];
      assert multiset(bs[..n]) == multiset(bs) - multiset{x};
      assert multiset(rest) == multiset(cs) - multiset{x};
      KindsOnPermutes(bs[..n], rest, p);
      assert bs[..n] + [] == bs[..n];
      KindsOnInsert(bs[..n], x, [], p);
      KindsOnInsert(cs[..i], x, cs[i + 1..], p);
    }
  }

  /** The reported paths do not depend on the order of the branches. */
  lemma OrderDoesNotMatter(bs: seq<BranchResult>, cs: seq<BranchResult>, p: FilePath)
    requires multiset(bs) == multiset(cs)
    ensures Clashes(All(bs), p) <==> Clashes(All(cs), p)
  {
    KindsOnPermutes(bs, cs, p);
    ClashByKinds(All(bs), p);
    ClashByKinds(All(cs), p);
    assert |Kinds(On(All(bs), p))| == |KindsOn(All(bs), p)| && |Kinds(On(All(cs), p))| == |KindsOn(All(cs), p)|;
  }

  function PathsOf(conflicts: seq<Conflict>): set<FilePath> {
    set c | c in conflicts :: c.path
  }

  lemma PathsOfSnoc(cs: seq<Conflict>, c: Conflict)
    ensures PathsOf(cs + [c]) == PathsOf(cs) + {c.path}
  {}

  /** Reported once each: exactly the paths with two conflicting occurrences, with the
      branches of all their occurrences. */
  method DetectConflicts(branches: seq<BranchResult>) returns (conflicts: seq<Conflict>)
    ensures forall i, j :: 0 <= i < j < |conflicts| ==> conflicts[i].path != conflicts[j].path
    ensures forall p :: p in PathsOf(conflicts) <==> Clashes(All(branches), p)
    ensures forall c :: c in conflicts ==> AreOwners(branches, c.path, c.branches)
  {
    var fileToBranches := MapFiles(branches);
    conflicts := [];
    var todo := fileToBranches.Keys;
    while todo != {}
      invariant todo <= fileToBranches.Keys
      invariant forall i, j :: 0 <= i < j < |conflicts| ==> conflicts[i].path != conflicts[j].path
      invariant forall c :: c in conflicts ==> c.path !in todo && AreOwners(branches, c.path, c.branches)
      invariant forall p :: p in PathsOf(conflicts) <==>
                              p in fileToBranches && p !in todo && Clashes(All(branches), p)
    {
      var p :| p in todo;
      todo := todo - {p};
      NeedsTwoOwners(branches, p);
      assert Lookup(fileToBranches, p) == Owners(branches, p);
      if |fileToBranches[p]| > 1 {
        var hasConflict := ScanPairs(branches, p);
        if hasConflict {
          ghost var at := OwnersLocated(branches, p);
          PathsOfSnoc(conflicts, Conflict(p, fileToBranches[p]));
          conflicts := conflicts + [Conflict(p, fileToBranches[p])];
        }
      }
    }
    forall p | p !in fileToBranches ensures !Clashes(All(branches), p) {
      assert Lookup(fileToBranches, p) == Owners(branches, p);
      NeedsTwoOwners(branches, p);
    }
  }

  lemma NeedsTwoOwners(branches: seq<BranchResult>, p: FilePath)
    ensures Clashes(All(branches), p) ==> |Owners(branches, p)| > 1
  {
    OwnersLength(branches, p);
    ClashByKinds(All(branches), p);
  }

  function Lookup(m: map<FilePath, seq<BranchId>>, p: FilePath): seq<BranchId> {
    if p in m then m[p] else []
  }

  /** Collects, for each path, the branches of its occurrences. */
  method MapFiles(branches: seq<BranchResult>) returns (m: map<FilePath, seq<BranchId>>)
    ensures forall p :: Lookup(m, p) == Owners(branches, p)
  {
    m := map[];
    for i := 0 to |branches|
      invariant forall p :: Lookup(m, p) == Owners(branches[..i], p)
    {
      m := MapBranch(m, branches[i]);
      assert branches[..i + 1][..i] == branches[..i];
    }
    assert branches[..|branches|] == branches;
  }

  method MapBranch(m0: map<FilePath, seq<BranchId>>, b: BranchResult) returns (m: map<FilePath, seq<BranchId>>)
    ensures forall p :: Lookup(m, p) == Lookup(m0, p) + OwnersIn(b.id, b.changes, p)
  {
    m := m0;
    for j := 0 to |b.changes|
      invariant forall p :: Lookup(m, p) == Lookup(m0, p) + OwnersIn(b.id, b.changes[..j], p)
    {
      ghost var before := m;
      m := PushOwner(m, b.changes[j].path, b.id);
      forall p ensures Lookup(m, p) == Lookup(m0, p) + OwnersIn(b.id, b.changes[..j + 1], p) {
        OwnerPushed(m0, before, b, j, p);
      }
    }
    assert b.changes[..|b.changes|] == b.changes;
  }

  function PushOwner(m: map<FilePath, seq<BranchId>>, path: FilePath, id: BranchId): map<FilePath, seq<BranchId>> {
    m[path := Lookup(m, path) + [id]]
  }

  lemma OwnerPushed(m0: map<FilePath, seq<BranchId>>, m: map<FilePath, seq<BranchId>>, b: BranchResult, j: nat,
                    p: FilePath)
    requires j < |b.changes| && Lookup(m, p) == Lookup(m0, p) + OwnersIn(b.id, b.changes[..j], p)
    ensures Lookup(PushOwner(m, b.changes[j].path, b.id), p) == Lookup(m0, p) + OwnersIn(b.id, b.changes[..j + 1], p)
  {
    assert b.changes[..j + 1][..j] == b.changes[..j];
    if b.changes[j].path == p {
      Associates(Lookup(m0, p), OwnersIn(b.id, b.changes[..j], p), [b.id]);
    }
  }

  lemma Associates(a: seq<BranchId>, b: seq<BranchId>, c: seq<BranchId>)
    ensures (a + b) + c == a + (b + c)
  {}

  /** The pairwise scan, leaving both loops at the first conflict. */
  method ScanPairs(branches: seq<BranchResult>, p: FilePath) returns (hasConflict: bool)
    ensures hasConflict <==> Clashes(All(branches), p)
  {
    var changes := On(All(branches), p);
    PairsSurvive(All(branches), p);
    OnlyPath(All(branches), p);
    hasConflict := false;
    var i := 0;
    while i < |changes|
      invariant 0 <= i <= |changes|
      invariant !hasConflict
      invariant forall a, b :: 0 <= a < i && a < b < |changes| ==> !ChangesConflict(changes[a], changes[b])
    {
      var j := i + 1;
      while j < |changes|
        invariant i < j <= |changes| && !hasConflict
        invariant forall b :: i < b < j ==> !ChangesConflict(changes[i], changes[b])
      {
        if ChangesConflict(changes[i], changes[j]) {
          hasConflict := true;
          break;
        }
        j := j + 1;
      }
      if hasConflict {
        break;
      }
      i := i + 1;
    }
  }
}
