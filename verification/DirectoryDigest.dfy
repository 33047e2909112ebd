/** The digest of a whole directory, by which a commit notices that the base has changed. */
module DirectoryDigest {
  import opened Prelude
  import opened FileTree
  import opened SessionDiff

  /** What the digest is made with: the bytes of a text, the hash of a byte stream, and the
      order of the files, which sorting by file name makes a function of their paths. */
  datatype Digesting = Digesting(utf8: string -> seq<bv8>, sha: Content -> Digest, order: set<Path> -> seq<Path>)

  /** Texts are encoded character by character, the hash has no collisions, and the walk
      visits each file once. */
  ghost predicate Proper(e: Digesting) {
    && (forall a, b :: e.utf8(a + b) == e.utf8(a) + e.utf8(b))
    && (forall a, b :: e.sha(a) == e.sha(b) ==> a == b)
    && forall s :: NoDup(e.order(s)) && forall p :: p in e.order(s) <==> p in s
  }

  function PathText(p: Path): string {
    if p == [] then "" else if |p| == 1 then p[0] else PathText(Parent(p)) + "/" + p[|p| - 1]
  }

  function Decimal(n: nat): string {
    if n < 10 then [('0' as int + n) as char] else Decimal(n / 10) + [('0' as int + n % 10) as char]
  }

  /** Path and contents of each file, with nothing in between. */
  function Entries(e: Digesting, files: Files, visited: seq<Path>): seq<bv8> {
    if visited == [] then []
    else
      var p := visited[|visited| - 1];
      Entries(e, files, visited[..|visited| - 1]) + e.utf8(PathText(p)) + if p in files then files[p] else []
  }

  /** The bytes that are hashed: the entries and then the number of files. */
  function Stream(e: Digesting, files: Files): seq<bv8> {
    Entries(e, files, e.order(files.Keys)) + e.utf8(Decimal(|e.order(files.Keys)|))
  }

  method ComputeDirectoryHash(root: FileSystem, e: Digesting) returns (digest: Digest)
    requires Proper(e)
    ensures digest == TreeDigest(e)(root.tree)
  {
    var hashed: seq<bv8> := [];
    var count := 0;
    var visited := e.order(root.tree.files.Keys);
    for i := 0 to |visited|
      invariant hashed == Entries(e, root.tree.files, visited[..i]) && count == i
    {
      assert visited[..i + 1][..i] == visited[..i];
      hashed := hashed + e.utf8(PathText(visited[i]));
      hashed := hashed + root.tree.files[visited[i]];
      count := count + 1;
    }
    assert visited[..|visited|] == visited;
    hashed := hashed + e.utf8(Decimal(count));
    assert hashed == Stream(e, root.tree.files);
    digest := e.sha(hashed);
  }

  function TreeDigest(e: Digesting): Tree -> Digest {
    (t: Tree) => e.sha(Stream(e, t.files))
  }

  // ---- What is in the stream ----

  function DigitsValue(s: string): int {
    if s == "" then 0 else 10 * DigitsValue(s[..|s| - 1]) + (s[|s| - 1] as int - '0' as int)
  }

  lemma {:induction false} DecimalIsRead(n: nat)
    ensures DigitsValue(Decimal(n)) == n
  {
    if n >= 10 {
      DecimalIsRead(n / 10);
      assert Decimal(n)[..|Decimal(n)| - 1] == Decimal(n / 10);
    } else {
      assert Decimal(n)[..0] == "";
    }
  }

  /** The stream ends with the number of files. */
  lemma StreamEndsWithCount(e: Digesting, files: Files)
    requires Proper(e)
    ensures var count := e.utf8(Decimal(|files|));
            |count| <= |Stream(e, files)| && Stream(e, files)[|Stream(e, files)| - |count|..] == count
    ensures DigitsValue(Decimal(|files|)) == |files|
  {
    DecimalIsRead(|files|);
    DistinctCount(e.order(files.Keys));
    assert Elements(e.order(files.Keys)) == files.Keys;
  }

  predicate IsName(name: Name) { name != "" && '/' !in name }

  ghost predicate HasNames(p: Path) { forall i :: 0 <= i < |p| ==> IsName(p[i]) }

  /** The last slash of a text is the one before its last name. */
  lemma LastSlash(a: string, x: Name)
    requires '/' !in x
    ensures var s := a + "/" + x; s[|a|] == '/' && forall i :: |a| < i < |s| ==> s[i] != '/'
  {
    var s := a + "/" + x;
    forall i | |a| < i < |s| ensures s[i] != '/' {
      assert s[i] == x[i - |a| - 1];
    }
  }

  lemma LastNameTells(a: string, x: Name, b: string, y: Name)
    requires '/' !in x && '/' !in y && a + "/" + x == b + "/" + y
    ensures a == b && x == y
  {
    var s, t := a + "/" + x, b + "/" + y;
    LastSlash(a, x);
    LastSlash(b, y);
    assert |a| == |b|;
    assert s[..|a|] == a && t[..|a|] == b && s[|a| + 1..] == x && t[|a| + 1..] == y;
  }

  lemma SlashesTell(p: Path)
    requires HasNames(p)
    ensures '/' in PathText(p) <==> |p| > 1
    ensures PathText(p) == "" <==> p == []
  {
    if |p| > 1 {
      assert PathText(p)[|PathText(Parent(p))|] == '/';
    } else if |p| == 1 {
      assert IsName(p[0]);
    }
  }

  /** Different paths have different texts. */
  lemma {:induction false} PathTextTells(p: Path, q: Path)
    requires HasNames(p) && HasNames(q) && PathText(p) == PathText(q)
    ensures p == q
    decreases |p|
  {
    SlashesTell(p);
    SlashesTell(q);
    if |p| > 1 {
      assert IsName(p[|p| - 1]) && IsName(q[|q| - 1]);
      LastNameTells(PathText(Parent(p)), p[|p| - 1], PathText(Parent(q)), q[|q| - 1]);
      PathTextTells(Parent(p), Parent(q));
      assert p == Parent(p) + [p[|p| - 1]] && q == Parent(q) + [q[|q| - 1]];
    }
  }

  // ---- What the stream does not tell apart ----

  lemma SingleOrder(e: Digesting, p: Path)
    requires Proper(e)
    ensures e.order({p}) == [p]
  {
    var s := e.order({p});
    DistinctCount(s);
    assert Elements(s) == {p};
    assert s[0] in s;
  }

  lemma SingleStream(e: Digesting, name: Name, c: Content)
    requires Proper(e)
    ensures Stream(e, map[[name] := c]) == e.utf8(name) + c + e.utf8(Decimal(1))
  {
    var files: Files := map[[name] := c];
    assert files.Keys == {[name]};
    SingleOrder(e, [name]);
    assert [[name]][..0] == [];
    assert Entries(e, files, [[name]]) == e.utf8(name) + c;
  }

  /** A file `a` whose contents begin with the text `x` and a file `ax` without that beginning
      give one stream, so one digest under any hash. */
  lemma StreamsCollide(e: Digesting, a: Name, x: string, c: Content)
    requires Proper(e)
    ensures Stream(e, map[[a] := e.utf8(x) + c]) == Stream(e, map[[a + x] := c])
    ensures x != "" ==> [a] != [a + x]
  {
    SingleStream(e, a, e.utf8(x) + c);
    SingleStream(e, a + x, c);
    assert e.utf8(a) + (e.utf8(x) + c) == e.utf8(a + x) + c;
    assert x != "" ==> |a + x| > |a| && [a][0] != [a + x][0];
  }

  // ---- What it does ----

  /** Equal paths and equal sizes. */
  ghost predicate SameShape(f: Files, g: Files) {
    f.Keys == g.Keys && forall p :: p in f ==> |f[p]| == |g[p]|
  }

  lemma {:induction false} EntriesLength(e: Digesting, f: Files, g: Files, visited: seq<Path>)
    requires SameShape(f, g) && forall p :: p in visited ==> p in f
    ensures |Entries(e, f, visited)| == |Entries(e, g, visited)|
  {
    if visited != [] {
      EntriesLength(e, f, g, visited[..|visited| - 1]);
      assert visited[|visited| - 1] in visited;
    }
  }

  lemma {:induction false} EntriesTell(e: Digesting, f: Files, g: Files, visited: seq<Path>)
    requires SameShape(f, g) && forall p :: p in visited ==> p in f
    requires Entries(e, f, visited) == Entries(e, g, visited)
    ensures forall p :: p in visited ==> f[p] == g[p]
  {
    if visited != [] {
      var init, p := visited[..|visited| - 1], visited[|visited| - 1];
      assert p in visited && visited == init + [p];
      EntriesLength(e, f, g, init);
      SplitEqual(Entries(e, f, init) + e.utf8(PathText(p)), f[p], Entries(e, g, init) + e.utf8(PathText(p)), g[p]);
      SplitEqual(Entries(e, f, init), e.utf8(PathText(p)), Entries(e, g, init), e.utf8(PathText(p)));
      EntriesTell(e, f, g, init);
    }
  }

  lemma SplitEqual(a: seq<bv8>, b: seq<bv8>, c: seq<bv8>, d: seq<bv8>)
    requires a + b == c + d && |a| == |c|
    ensures a == c && b == d
  {
    assert (a + b)[..|a|] == a && (c + d)[..|c|] == c;
    assert (a + b)[|a|..] == b && (c + d)[|c|..] == d;
  }

  /** Trees of one digest have the same files if and only if they have the same paths with
      the same sizes. */
  lemma DigestTellsExactly(e: Digesting, f: Files, g: Files)
    requires Proper(e) && e.sha(Stream(e, f)) == e.sha(Stream(e, g))
    ensures f == g <==> SameShape(f, g)
  {
    if SameShape(f, g) {
      var visited := e.order(f.Keys);
      var count := e.utf8(Decimal(|visited|));
      EntriesLength(e, f, g, visited);
      SplitEqual(Entries(e, f, visited), count, Entries(e, g, visited), count);
      EntriesTell(e, f, g, visited);
    }
  }
}
