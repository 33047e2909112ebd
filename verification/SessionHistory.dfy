/** Many sessions on one base: which commits are accepted, and when no update is lost. */
module SessionHistory {
  import opened Prelude
  import opened FileTree
  import opened SessionDiff
  import opened SessionCommit
  import opened DirectoryDigest

  type SessionId = nat

  /** A session: the base it was copied from, its own tree, and the digest taken then. */
  datatype OpenSession = OpenSession(origin: Tree, work: Tree, snapshot: Digest)

  /** What changed the base: a commit of a session copied from `from` that left `to`, or one
      that failed and left `to`. */
  datatype Update = Committed(from: Files, to: Files) | Broken(to: Files)

  datatype World = World(base: Tree, sessions: map<SessionId, OpenSession>, log: seq<Update>)

  /** A commit with its staging name, its answer, and the base after it. */
  datatype Step =
    | Begin(sid: SessionId)
    | Edit(sid: SessionId, work: Tree)
    | Commit(sid: SessionId, staging: Name, answer: Outcome<CommitError>, after: Tree)
    | Rollback(sid: SessionId)

  predicate Accepted(treeDigest: Tree -> Digest, w: World, sid: SessionId) {
    sid in w.sessions && treeDigest(w.base) == w.sessions[sid].snapshot
  }

  /** Commits may fail half-way; their effect is that of `CommitSession`. */
  ghost predicate Legal(hash: Content -> Digest, treeDigest: Tree -> Digest, w: World, s: Step) {
    match s
    case Begin(sid) => sid !in w.sessions
    case Edit(sid, work) => sid in w.sessions && work.WellFormed()
    case Commit(sid, staging, answer, after) =>
      && sid in w.sessions
      && CommitEffect(hash, treeDigest, w.sessions[sid].snapshot, w.sessions[sid].work, w.base, staging, answer, after)
    case Rollback(sid) => sid in w.sessions
  }

  /** A session whose commit is refused or fails stays open, with its old digest. */
  function Next(treeDigest: Tree -> Digest, w: World, s: Step): World {
    match s
    case Begin(sid) => w.(sessions := w.sessions[sid := OpenSession(w.base, w.base, treeDigest(w.base))])
    case Edit(sid, work) =>
      if sid in w.sessions then w.(sessions := w.sessions[sid := w.sessions[sid].(work := work)]) else w
    case Commit(sid, _, answer, after) =>
      if !Accepted(treeDigest, w, sid) then w
      else if answer.Pass? then
        World(after, w.sessions - {sid}, w.log + [Committed(w.sessions[sid].origin.files, after.files)])
      else w.(base := after, log := w.log + [Broken(after.files)])
    case Rollback(sid) => w.(sessions := w.sessions - {sid})
  }

  ghost predicate LegalRun(hash: Content -> Digest, treeDigest: Tree -> Digest, w: World, steps: seq<Step>)
    decreases |steps|
  {
    steps == []
    || (Legal(hash, treeDigest, w, steps[0]) && LegalRun(hash, treeDigest, Next(treeDigest, w, steps[0]), steps[1..]))
  }

  function Run(treeDigest: Tree -> Digest, w: World, steps: seq<Step>): World
    decreases |steps|
  {
    if steps == [] then w else Run(treeDigest, Next(treeDigest, w, steps[0]), steps[1..])
  }

  /** The files after the first `n` changes of the base. */
  function After(start: Files, log: seq<Update>, n: nat): Files
    requires n <= |log|
  {
    if n == 0 then start else log[n - 1].to
  }

  /** The base is what the last change left, and the snapshots are what was digested. */
  ghost predicate Recorded(treeDigest: Tree -> Digest, start: Files, w: World) {
    && w.base.files == After(start, w.log, |w.log|)
    && forall sid :: sid in w.sessions ==> w.sessions[sid].snapshot == treeDigest(w.sessions[sid].origin)
  }

  /** No lost update: each session that was committed had been copied from exactly what the
      change before it left, a failed commit's remains included. */
  ghost predicate Serial(start: Files, log: seq<Update>) {
    forall i :: 0 <= i < |log| && log[i].Committed? ==> log[i].from == After(start, log, i)
  }

  lemma SerialSnoc(start: Files, log: seq<Update>, u: Update)
    ensures Serial(start, log + [u])
       <==> Serial(start, log) && (u.Committed? ==> u.from == After(start, log, |log|))
  {
    var log' := log + [u];
    forall i | 0 <= i < |log| ensures log'[i] == log[i] && After(start, log', i) == After(start, log, i) {}
    assert log'[|log|] == u && After(start, log', |log|) == After(start, log, |log|);
  }

  /** The commit goes through although the base is not what the session was copied from. */
  predicate Overlooks(treeDigest: Tree -> Digest, w: World, s: Step) {
    s.Commit? && Accepted(treeDigest, w, s.sid) && s.answer.Pass? && w.base.files != w.sessions[s.sid].origin.files
  }

  /** For any digest: a step keeps the history serial if and only if it is not such a commit. */
  lemma StepIsSerialExactly(treeDigest: Tree -> Digest, start: Files, w: World, s: Step)
    requires Recorded(treeDigest, start, w)
    ensures Recorded(treeDigest, start, Next(treeDigest, w, s))
    ensures Serial(start, Next(treeDigest, w, s).log) <==> Serial(start, w.log) && !Overlooks(treeDigest, w, s)
  {
    if s.Commit? && Accepted(treeDigest, w, s.sid) {
      SerialSnoc(start, w.log, Next(treeDigest, w, s).log[|w.log|]);
    }
  }

  ghost predicate OverlooksNothing(treeDigest: Tree -> Digest, w: World, steps: seq<Step>)
    decreases |steps|
  {
    steps != [] ==>
      && !Overlooks(treeDigest, w, steps[0])
      && OverlooksNothing(treeDigest, Next(treeDigest, w, steps[0]), steps[1..])
  }

  lemma {:induction false} RunIsSerialExactly(treeDigest: Tree -> Digest, start: Files, w: World, steps: seq<Step>)
    requires Recorded(treeDigest, start, w)
    ensures Recorded(treeDigest, start, Run(treeDigest, w, steps))
    ensures Serial(start, Run(treeDigest, w, steps).log)
       <==> Serial(start, w.log) && OverlooksNothing(treeDigest, w, steps)
    decreases |steps|
  {
    if steps != [] {
      StepIsSerialExactly(treeDigest, start, w, steps[0]);
      RunIsSerialExactly(treeDigest, start, Next(treeDigest, w, steps[0]), steps[1..]);
    }
  }

  // ---- With the digest of the code ----

  /** At every commit that goes through, the base has the paths and sizes of the tree that
      the session was copied from. */
  ghost predicate KeepsShapes(e: Digesting, w: World, steps: seq<Step>)
    decreases |steps|
  {
    steps != [] ==>
      && (var s := steps[0];
          s.Commit? && Accepted(TreeDigest(e), w, s.sid) && s.answer.Pass? ==>
            SameShape(w.base.files, w.sessions[s.sid].origin.files))
      && KeepsShapes(e, Next(TreeDigest(e), w, steps[0]), steps[1..])
  }

  lemma {:induction false} ShapesDecide(e: Digesting, start: Files, w: World, steps: seq<Step>)
    requires Proper(e) && Recorded(TreeDigest(e), start, w)
    ensures OverlooksNothing(TreeDigest(e), w, steps) <==> KeepsShapes(e, w, steps)
    decreases |steps|
  {
    if steps != [] {
      var s := steps[0];
      StepIsSerialExactly(TreeDigest(e), start, w, s);
      ShapesDecide(e, start, Next(TreeDigest(e), w, s), steps[1..]);
      if s.Commit? && Accepted(TreeDigest(e), w, s.sid) {
        DigestTellsExactly(e, w.base.files, w.sessions[s.sid].origin.files);
      }
    }
  }

  /** Over every run of sessions on one base, failing commits included, no update is lost if
      and only if each commit that goes through finds the paths and sizes of the base as they
      were when its session began. */
  lemma NoLostUpdatesExactly(e: Digesting, base: Tree, steps: seq<Step>)
    requires Proper(e)
    ensures Serial(base.files, Run(TreeDigest(e), World(base, map[], []), steps).log)
       <==> KeepsShapes(e, World(base, map[], []), steps)
  {
    var w := World(base, map[], []);
    RunIsSerialExactly(TreeDigest(e), base.files, w, steps);
    ShapesDecide(e, base.files, w, steps);
  }

  /** After every run, a session is accepted exactly when the base gives the byte stream that
      the session's origin gave; so if a failed commit changed the stream, its session is
      refused whenever it is tried again on that base. */
  lemma AcceptedExactly(e: Digesting, base: Tree, steps: seq<Step>, sid: SessionId)
    requires Proper(e)
    ensures var w := Run(TreeDigest(e), World(base, map[], []), steps);
            && (sid in w.sessions ==>
                  (Accepted(TreeDigest(e), w, sid)
                   <==> Stream(e, w.base.files) == Stream(e, w.sessions[sid].origin.files)))
            && forall staging, answer: Outcome<CommitError>, after: Tree ::
                 Accepted(TreeDigest(e), w, sid) && answer.Fail? ==>
                   var w' := Next(TreeDigest(e), w, Commit(sid, staging, answer, after));
                   sid in w'.sessions
                   && (Accepted(TreeDigest(e), w', sid)
                       <==> Stream(e, after.files) == Stream(e, w.sessions[sid].origin.files))
  {
    RunIsSerialExactly(TreeDigest(e), base.files, World(base, map[], []), steps);
  }

  // ---- A session that is over ----

  ghost predicate NeverBegins(steps: seq<Step>, sid: SessionId) {
    forall i :: 0 <= i < |steps| ==> !(steps[i].Begin? && steps[i].sid == sid)
  }

  /** A session that is not open stays out, changes nothing and is not accepted, until one is
      begun under its id. */
  lemma {:induction false} OverStaysOver(treeDigest: Tree -> Digest, w: World, steps: seq<Step>, sid: SessionId)
    requires sid !in w.sessions && NeverBegins(steps, sid)
    ensures var w' := Run(treeDigest, w, steps);
            && sid !in w'.sessions && !Accepted(treeDigest, w', sid)
            && (forall staging, answer, after :: Next(treeDigest, w', Commit(sid, staging, answer, after)) == w')
            && forall work :: Next(treeDigest, w', Edit(sid, work)) == w'
    decreases |steps|
  {
    if steps != [] {
      assert NeverBegins(steps[1..], sid);
      OverStaysOver(treeDigest, Next(treeDigest, w, steps[0]), steps[1..], sid);
    }
  }

  /** After a rollback, and after a commit that goes through, the session is over. */
  lemma RolledBackIsOver(treeDigest: Tree -> Digest, w: World, end: Step, steps: seq<Step>, sid: SessionId)
    requires end == Rollback(sid)
             || (end.Commit? && end.sid == sid && end.answer.Pass? && Accepted(treeDigest, w, sid))
    requires NeverBegins(steps, sid)
    ensures sid !in Run(treeDigest, Next(treeDigest, w, end), steps).sessions
    ensures !Accepted(treeDigest, Run(treeDigest, Next(treeDigest, w, end), steps), sid)
    ensures end.Rollback? ==> Next(treeDigest, w, end).base == w.base && Next(treeDigest, w, end).log == w.log
  {
    OverStaysOver(treeDigest, Next(treeDigest, w, end), steps, sid);
  }

  /** What an open session offers to commit is the tree of its last edit, or else the base it
      was begun on; other sessions have no part in it. */
  lemma {:induction false} WorkIsLastEdit(treeDigest: Tree -> Digest, w: World, steps: seq<Step>, sid: SessionId)
    requires sid in w.sessions && sid in Run(treeDigest, w, steps).sessions
    requires NeverBegins(steps, sid)
    ensures var s, s' := w.sessions[sid], Run(treeDigest, w, steps).sessions[sid];
            s' == s.(work := LastEdit(s.work, steps, sid))
    decreases |steps|
  {
    if steps != [] {
      assert NeverBegins(steps[1..], sid);
      if sid !in Next(treeDigest, w, steps[0]).sessions {
        OverStaysOver(treeDigest, Next(treeDigest, w, steps[0]), steps[1..], sid);
      }
      WorkIsLastEdit(treeDigest, Next(treeDigest, w, steps[0]), steps[1..], sid);
    }
  }

  function LastEdit(work: Tree, steps: seq<Step>, sid: SessionId): Tree
    decreases |steps|
  {
    if steps == [] then work
    else LastEdit(if steps[0].Edit? && steps[0].sid == sid then steps[0].work else work, steps[1..], sid)
  }

  // ---- A lost update ----

  lemma RunPrepend(hash: Content -> Digest, treeDigest: Tree -> Digest, w: World, s: Step, rest: seq<Step>)
    requires Legal(hash, treeDigest, w, s) && LegalRun(hash, treeDigest, Next(treeDigest, w, s), rest)
    ensures LegalRun(hash, treeDigest, w, [s] + rest)
    ensures Run(treeDigest, w, [s] + rest) == Run(treeDigest, Next(treeDigest, w, s), rest)
  {
    assert ([s] + rest)[1..] == rest;
  }

  function OneFile(name: Name, c: Content): Tree { Tree(map[[name] := c], {[]}) }

  lemma OneFileIsWellFormed(name: Name, c: Content)
    ensures OneFile(name, c).WellFormed()
  {
    forall q | Below(q, [name]) ensures q == [] {
      assert q == [name][..|q|];
    }
  }

  /** Both commits go through although the second session started before the first one. */
  lemma BothCommit(hash: Content -> Digest, td: Tree -> Digest, before: Tree, first: Tree, second: Tree, staging: Name)
    returns (steps: seq<Step>)
    requires first.WellFormed() && second.WellFormed() && td(before) == td(first)
    ensures var w := World(before, map[0 := OpenSession(before, first, td(before)),
                                       1 := OpenSession(before, second, td(before))], []);
            && LegalRun(hash, td, w, steps)
            && Run(td, w, steps)
            == World(second, map[], [Committed(before.files, first.files), Committed(before.files, second.files)])
  {
    var x, y := OpenSession(before, first, td(before)), OpenSession(before, second, td(before));
    var c, d := Commit(0, staging, Pass, first), Commit(1, staging, Pass, second);
    var w := World(before, map[0 := x, 1 := y], []);
    var w1 := World(first, map[1 := y], [Committed(before.files, first.files)]);
    assert w.sessions - {0} == w1.sessions && w1.sessions - {1} == map[];
    assert Next(td, w, c) == w1;
    RunPrepend(hash, td, w1, d, []);
    RunPrepend(hash, td, w, c, [d] + []);
    steps := [c] + ([d] + []);
  }

  /** Two sessions are begun and edited, and then both are committed. */
  lemma BothAccepted(hash: Content -> Digest, td: Tree -> Digest, before: Tree, first: Tree, second: Tree,
                     staging: Name)
    returns (steps: seq<Step>)
    requires first.WellFormed() && second.WellFormed() && td(before) == td(first)
    ensures LegalRun(hash, td, World(before, map[], []), steps)
    ensures Run(td, World(before, map[], []), steps)
         == World(second, map[], [Committed(before.files, first.files), Committed(before.files, second.files)])
  {
    var s := OpenSession(before, before, td(before));
    var w0, w1 := World(before, map[], []), World(before, map[0 := s], []);
    var w2 := World(before, map[0 := s, 1 := s], []);
    var w3 := World(before, map[0 := s.(work := first), 1 := s], []);
    var w4 := World(before, map[0 := s.(work := first), 1 := s.(work := second)], []);
    assert Next(td, w0, Begin(0)) == w1 && Next(td, w1, Begin(1)) == w2;
    assert Next(td, w2, Edit(0, first)) == w3 && Next(td, w3, Edit(1, second)) == w4;
    steps := BothCommit(hash, td, before, first, second, staging);
    RunPrepend(hash, td, w3, Edit(1, second), steps);
    steps := [Edit(1, second)] + steps;
    RunPrepend(hash, td, w2, Edit(0, first), steps);
    steps := [Edit(0, first)] + steps;
    RunPrepend(hash, td, w1, Begin(1), steps);
    steps := [Begin(1)] + steps;
    RunPrepend(hash, td, w0, Begin(0), steps);
    steps := [Begin(0)] + steps;
  }

  /** Two sessions start from a file `a`. One moves the first bytes of its contents into its
      name; the other one changes its contents. Both commits are accepted, and the second
      one undoes the first. */
  lemma UpdateIsLost(e: Digesting, hash: Content -> Digest, a: Name, x: string, c: Content, d: Content, staging: Name)
    returns (steps: seq<Step>)
    requires Proper(e) && x != ""
    ensures var w := World(OneFile(a, e.utf8(x) + c), map[], []);
            && LegalRun(hash, TreeDigest(e), w, steps)
            && Run(TreeDigest(e), w, steps).base == OneFile(a, d)
            && |Run(TreeDigest(e), w, steps).log| == 2
            && !Serial(w.base.files, Run(TreeDigest(e), w, steps).log)
  {
    var before, renamed, edited := OneFile(a, e.utf8(x) + c), OneFile(a + x, c), OneFile(a, d);
    StreamsCollide(e, a, x, c);
    OneFileIsWellFormed(a + x, c);
    OneFileIsWellFormed(a, d);
    steps := BothAccepted(hash, TreeDigest(e), before, renamed, edited, staging);
    var log := [Committed(before.files, renamed.files), Committed(before.files, edited.files)];
    assert [a] in before.files && [a] !in renamed.files;
    assert log[1].Committed? && log[1].from != After(before.files, log, 1);
  }
}
