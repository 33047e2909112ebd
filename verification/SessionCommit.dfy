/** Committing a session: conflict check, diff and staged apply. */
module SessionCommit {
  import opened Prelude
  import opened FileTree
  import opened SessionDiff
  import opened StagedApply

  datatype CommitError = BaseChanged | ApplyFailed(error: IoError)

  /** What a commit does, whatever call the device fails: nothing if the digest shows that
      the base changed since the session began; else each path outside the staging directory
      holds its old or its session value, and the session's value if the commit passes. */
  ghost predicate CommitEffect(hash: Content -> Digest, treeDigest: Tree -> Digest, snapshot: Digest,
                               s: Tree, b: Tree, staging: Name, r: Outcome<CommitError>, b': Tree) {
    && b'.WellFormed() && PerPathAtomic(b'.files, b.files, s.files, staging)
    && (r == Fail(BaseChanged) <==> treeDigest(b) != snapshot)
    && (r == Fail(BaseChanged) ==> b' == b)
    && (r.Pass? && DigestSound(hash, s.files, b.files) ==> AgreeOutside(b'.files, s.files, [staging]))
  }

  /** `snapshot` is the digest of the base taken when the session began. It is not taken
      again: after a commit that failed half-way, trying again compares the half-changed base
      with the old digest. */
  method CommitSession(session: FileSystem, base: FileSystem, hash: Content -> Digest,
                       treeDigest: Tree -> Digest, snapshot: Digest, staging: Name)
    returns (r: Outcome<CommitError>)
    requires session != base && session.Valid() && base.Valid()
    requires Fresh(staging, session.tree) && Fresh(staging, base.tree)
    modifies base
    ensures base.Valid()
    ensures r == Fail(BaseChanged) <==> treeDigest(old(base.tree)) != snapshot
    ensures r == Fail(BaseChanged) ==> base.tree == old(base.tree) && base.history == old(base.history)
    ensures AtomicSince(base.history, |old(base.history)|, old(base.tree.files), session.tree.files, staging)
    ensures treeDigest(old(base.tree)) == snapshot && !base.mayFault ==>
              && r.Pass?
              && (base.tree.files == session.tree.files
                  <==> DigestSound(hash, session.tree.files, old(base.tree.files)))
    ensures treeDigest(old(base.tree)) == snapshot && !base.mayFault
            && (forall p, q :: p in session.tree.files && q in old(base.tree.files)
                               && hash(session.tree.files[p]) == hash(old(base.tree.files)[q]) ==>
                                 session.tree.files[p] == old(base.tree.files)[q]) ==>
              base.tree.files == session.tree.files
    ensures CommitEffect(hash, treeDigest, snapshot, session.tree, old(base.tree), staging, r, base.tree)
  {
    if treeDigest(base.tree) != snapshot {
      return Fail(BaseChanged);
    }
    var changes := ComputeDiff(session, base, hash);
    DiffIsConsistent(changes, hash, session.tree.files, base.tree.files);
    if changes == [] {
      AppliedNothing(session.tree, base.tree);
      return Pass;
    }
    var applied := ApplyChanges(session, base, changes, staging);
    return if applied.Pass? then Pass else Fail(ApplyFailed(applied.error));
  }
}
