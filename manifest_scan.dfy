/** The offline-cache manifest: a walk of the build directory driven by a counter of pending
    `stat`/`readdir` calls, and the manifest text made from the files it collects. The file
    system is a tree given as data; each call completes in a step of its own, in any order. */
module ManifestScan {
  import opened Js

  /** What `stat` and `readdir` report: a file, or a directory with its entries in listing order. */
  datatype Node = FileNode | DirNode(entries: seq<Entry>)
  datatype Entry = Entry(name: string, node: Node)

  /** `subpath[0] === '.'`; an empty name has no first character and is scanned. */
  predicate Hidden(name: string) {
    |name| > 0 && name[0] == '.'
  }

  /** `path.join(path, subpath)` for a plain entry name. */
  function Child(path: string, name: string): string {
    path + "/" + name
  }

  /** The paths (relative to the root, reached through `rel`) of every non-directory reachable
      from `node` without entering an entry whose name starts with '.', depth first. */
  function Reachable(rel: string, node: Node): seq<string>
    decreases node, 1, 0
  {
    match node
    case FileNode => [rel]
    case DirNode(es) => ReachableIn(rel, node, |es|)
  }

  /** The reachable paths under the first `k` entries of a directory. */
  function ReachableIn(rel: string, dir: Node, k: nat): seq<string>
    requires dir.DirNode? && k <= |dir.entries|
    decreases dir, 0, k
  {
    if k == 0 then [] else ReachableIn(rel, dir, k - 1) + EntryPaths(rel, dir, k - 1)
  }

  /** The reachable paths under entry `i` of a directory: none when its name is hidden. */
  function EntryPaths(rel: string, dir: Node, i: nat): seq<string>
    requires dir.DirNode? && i < |dir.entries|
    decreases dir, 0, i
  {
    var e := dir.entries[i];
    if Hidden(e.name) then [] else Reachable(Child(rel, e.name), e.node)
  }

  /** Entry names as `readdir` gives them: none contains a '/'. */
  predicate PlainNames(node: Node) {
    match node
    case FileNode => true
    case DirNode(es) => forall i :: 0 <= i < |es| ==> '/' !in es[i].name && PlainNames(es[i].node)
  }

  /** No segment of `p` that begins after position `from` starts with '.'. */
  predicate NoHiddenSegment(p: string, from: nat) {
    forall k :: from <= k < |p| - 1 && p[k] == '/' ==> p[k + 1] != '.'
  }

  /** `p` is `rel` itself or lies below it. */
  predicate Below(p: string, rel: string) {
    p == rel || (|p| > |rel| && p[..|rel| + 1] == rel + "/")
  }

  /** A list holding each reachable file of a tree with `readdir`-style names once holds no
      path with a segment that starts with '.'. */
  lemma CollectedShape(node: Node, collected: seq<string>)
    requires PlainNames(node) && multiset(collected) == multiset(Reachable("", node))
    ensures forall p :: p in collected ==> NoHiddenSegment(p, 0)
  {
    forall p | p in collected
      ensures NoHiddenSegment(p, 0)
    {
      assert p in multiset(collected);
      ReachableShape("", node, p);
    }
  }

  /** Every path the walk reaches from `rel` is `rel` or below it, and no segment after `rel`
      names a hidden entry. */
  lemma {:induction false} ReachableShape(rel: string, node: Node, p: string)
    requires PlainNames(node) && p in Reachable(rel, node)
    ensures Below(p, rel) && NoHiddenSegment(p, |rel|)
    decreases node, 1, 0
  {
    if node.DirNode? {
      ReachableInShape(rel, node, |node.entries|, p);
    }
  }

  lemma {:induction false} ReachableInShape(rel: string, dir: Node, k: nat, p: string)
    requires dir.DirNode? && k <= |dir.entries| && PlainNames(dir) && p in ReachableIn(rel, dir, k)
    ensures Below(p, rel) && NoHiddenSegment(p, |rel|)
    decreases dir, 0, k
  {
    if p in ReachableIn(rel, dir, k - 1) {
      ReachableInShape(rel, dir, k - 1, p);
    } else {
      EntryShape(rel, dir, k - 1, p);
    }
  }

  lemma {:induction false} EntryShape(rel: string, dir: Node, i: nat, p: string)
    requires dir.DirNode? && i < |dir.entries| && PlainNames(dir) && p in EntryPaths(rel, dir, i)
    ensures Below(p, rel) && NoHiddenSegment(p, |rel|)
    decreases dir, 0, i
  {
    var e := dir.entries[i];
    var c := Child(rel, e.name);
    assert !Hidden(e.name) && '/' !in e.name;
    ReachableShape(c, e.node, p);
    assert p[..|c|] == c by {
      if p != c {
        assert p[..|c|] == p[..|c| + 1][..|c|];
      }
    }
    assert p[..|rel| + 1] == rel + "/" by {
      assert p[..|rel| + 1] == p[..|c|][..|rel| + 1];
    }
    forall k | |rel| <= k < |p| - 1 && p[k] == '/'
      ensures p[k + 1] != '.'
    {
      if k == |rel| {
        if |e.name| > 0 {
          assert p[k + 1] == c[k + 1] == e.name[0];
        } else {
          assert p != c && k + 1 == |c|;
          assert p[k + 1] == p[..|c| + 1][|c|] == '/';
        }
      }
    }
  }

  /** An outstanding file-system call: `stat` on a path, or `readdir` on a directory. */
  datatype Op = Stat(path: string, node: Node) | ReadDir(path: string, dir: Node)

  /** The `stat` calls that listing the first `k` entries of a directory issues. */
  function ChildStats(path: string, dir: Node, k: nat): seq<Op>
    requires dir.DirNode? && k <= |dir.entries|
  {
    if k == 0 then []
    else
      var e := dir.entries[k - 1];
      ChildStats(path, dir, k - 1) + (if Hidden(e.name) then [] else [Stat(Child(path, e.name), e.node)])
  }

  /** The calls a walk still has to make below a node, plus one (termination measure). */
  function Weight(node: Node): nat
    decreases node, 1, 0
  {
    match node
    case FileNode => 1
    case DirNode(es) => 2 + WeightIn(node, |es|)
  }

  function WeightIn(dir: Node, k: nat): nat
    requires dir.DirNode? && k <= |dir.entries|
    decreases dir, 0, k
  {
    if k == 0 then 0 else WeightIn(dir, k - 1) + Weight(dir.entries[k - 1].node)
  }

  /** The calls a completed call issues: a directory's `stat` its `readdir`, a `readdir` a
      `stat` for every entry whose name does not start with '.'; a file's `stat` none. */
  function Issued(op: Op): seq<Op> {
    match op
    case Stat(path, node) => if node.DirNode? then [ReadDir(path, node)] else []
    case ReadDir(path, dir) => if dir.DirNode? then ChildStats(path, dir, |dir.entries|) else []
  }

  /** The paths a completed call records: a file's `stat` its path relative to the root;
      every other call none. */
  function Recorded(rootDir: string, op: Op): seq<string> {
    if op.Stat? && !op.node.DirNode? then [Rel(rootDir, op.path)] else []
  }

  function OpWeight(op: Op): nat {
    match op
    case Stat(_, n) => Weight(n)
    case ReadDir(_, d) => if d.DirNode? then Weight(d) - 1 else 0
  }

  function PendingWeight(ops: seq<Op>): nat {
    if ops == [] then 0 else PendingWeight(ops[..|ops| - 1]) + OpWeight(ops[|ops| - 1])
  }

  /** The well-formed calls of a walk of `rootDir`: every path lies below the root and every
      `readdir` is on a directory. */
  predicate WellFormed(rootDir: string, op: Op) {
    StartsWith(op.path, rootDir) && (op.ReadDir? ==> op.dir.DirNode?)
  }

  /** A path relative to the root. */
  function Rel(rootDir: string, path: string): string {
    if StartsWith(path, rootDir) then path[|rootDir|..] else path
  }

  /** The files a call will still contribute, relative to the root. */
  function OpYield(rootDir: string, op: Op): multiset<string>
  {
    match op
    case Stat(p, n) => multiset(Reachable(Rel(rootDir, p), n))
    case ReadDir(p, d) => if d.DirNode? then multiset(ReachableIn(Rel(rootDir, p), d, |d.entries|)) else multiset{}
  }

  function PendingYield(rootDir: string, ops: seq<Op>): multiset<string>
  {
    if ops == [] then multiset{}
    else PendingYield(rootDir, ops[..|ops| - 1]) + OpYield(rootDir, ops[|ops| - 1])
  }

  lemma PendingAppend(rootDir: string, a: seq<Op>, b: seq<Op>)
    ensures PendingYield(rootDir, a + b) == PendingYield(rootDir, a) + PendingYield(rootDir, b)
    ensures PendingWeight(a + b) == PendingWeight(a) + PendingWeight(b)
  {
    YieldAppend(rootDir, a, b);
    WeightAppend(a, b);
  }

  lemma {:induction false} YieldAppend(rootDir: string, a: seq<Op>, b: seq<Op>)
    ensures PendingYield(rootDir, a + b) == PendingYield(rootDir, a) + PendingYield(rootDir, b)
    decreases |b|
  {
    if b == [] {
      assert a + b == a;
    } else {
      var init, last := b[..|b| - 1], b[|b| - 1];
      calc {
        PendingYield(rootDir, a + b);
        { assert a + b == (a + init) + [last]; YieldSnoc(rootDir, a + init, last); }
        PendingYield(rootDir, a + init) + OpYield(rootDir, last);
        { YieldAppend(rootDir, a, init); }
        PendingYield(rootDir, a) + PendingYield(rootDir, init) + OpYield(rootDir, last);
        PendingYield(rootDir, a) + PendingYield(rootDir, b);
      }
    }
  }

  lemma {:induction false} WeightAppend(a: seq<Op>, b: seq<Op>)
    ensures PendingWeight(a + b) == PendingWeight(a) + PendingWeight(b)
    decreases |b|
  {
    if b == [] {
      assert a + b == a;
    } else {
      var init, last := b[..|b| - 1], b[|b| - 1];
      calc {
        PendingWeight(a + b);
        { assert a + b == (a + init) + [last]; WeightSnoc(a + init, last); }
        PendingWeight(a + init) + OpWeight(last);
        { WeightAppend(a, init); }
        PendingWeight(a) + PendingWeight(init) + OpWeight(last);
        PendingWeight(a) + PendingWeight(b);
      }
    }
  }

  lemma YieldSnoc(rootDir: string, ops: seq<Op>, op: Op)
    ensures PendingYield(rootDir, ops + [op]) == PendingYield(rootDir, ops) + OpYield(rootDir, op)
  {
    assert (ops + [op])[..|ops|] == ops;
  }

  lemma WeightSnoc(ops: seq<Op>, op: Op)
    ensures PendingWeight(ops + [op]) == PendingWeight(ops) + OpWeight(op)
  {
    assert (ops + [op])[..|ops|] == ops;
  }

  /** Taking call `i` out of the pending list removes exactly its contribution. */
  lemma RemovePending(rootDir: string, ops: seq<Op>, i: nat)
    requires i < |ops|
    ensures PendingYield(rootDir, ops[..i] + ops[i + 1..]) + OpYield(rootDir, ops[i]) == PendingYield(rootDir, ops)
    ensures PendingWeight(ops[..i] + ops[i + 1..]) + OpWeight(ops[i]) == PendingWeight(ops)
  {
    assert ops == ops[..i] + [ops[i]] + ops[i + 1..];
    PendingAppend(rootDir, ops[..i] + [ops[i]], ops[i + 1..]);
    PendingAppend(rootDir, ops[..i], [ops[i]]);
    PendingAppend(rootDir, ops[..i], ops[i + 1..]);
    assert PendingYield(rootDir, [ops[i]]) == OpYield(rootDir, ops[i]) by {
      assert [ops[i]][..0] == [];
    }
    assert PendingWeight([ops[i]]) == OpWeight(ops[i]) by {
      assert [ops[i]][..0] == [];
    }
  }

  /** The `stat` calls of a listing are on paths below the root. */
  lemma {:induction false} ChildStatsWellFormed(rootDir: string, path: string, dir: Node, k: nat)
    requires dir.DirNode? && k <= |dir.entries| && StartsWith(path, rootDir)
    ensures forall op :: op in ChildStats(path, dir, k) ==> WellFormed(rootDir, op)
    decreases k
  {
    if k > 0 {
      var e := dir.entries[k - 1];
      ChildStatsWellFormed(rootDir, path, dir, k - 1);
      assert Child(path, e.name)[..|rootDir|] == path[..|rootDir|];
    }
  }

  /** Appending one call adds its contribution. */
  lemma PendingSnoc(rootDir: string, ops: seq<Op>, op: Op)
    ensures PendingYield(rootDir, ops + [op]) == PendingYield(rootDir, ops) + OpYield(rootDir, op)
    ensures PendingWeight(ops + [op]) == PendingWeight(ops) + OpWeight(op)
  {
    YieldSnoc(rootDir, ops, op);
    WeightSnoc(ops, op);
  }

  /** Listing one more entry adds the `stat` of that entry unless it is hidden. */
  lemma ChildStatsStep(rootDir: string, path: string, dir: Node, k: nat)
    requires dir.DirNode? && 0 < k <= |dir.entries| && StartsWith(path, rootDir)
    ensures PendingYield(rootDir, ChildStats(path, dir, k))
      == PendingYield(rootDir, ChildStats(path, dir, k - 1)) + multiset(EntryPaths(path[|rootDir|..], dir, k - 1))
  {
    var e := dir.entries[k - 1];
    var prev := ChildStats(path, dir, k - 1);
    if !Hidden(e.name) {
      var op := Stat(Child(path, e.name), e.node);
      assert ChildStats(path, dir, k) == prev + [op];
      assert Child(path, e.name)[..|rootDir|] == path[..|rootDir|];
      assert Rel(rootDir, Child(path, e.name)) == Child(path[|rootDir|..], e.name);
      PendingSnoc(rootDir, prev, op);
    } else {
      assert ChildStats(path, dir, k) == prev;
    }
  }

  /** The `stat` calls for the first `k` entries of a listing contribute exactly the files
      below those entries, `rel` being the listed directory's path relative to the root. */
  predicate StatsYieldEntries(rootDir: string, path: string, rel: string, dir: Node, k: nat)
    requires dir.DirNode? && k <= |dir.entries|
  {
    PendingYield(rootDir, ChildStats(path, dir, k)) == multiset(ReachableIn(rel, dir, k))
  }

  /** The `stat` calls of a listing contribute exactly the files below the listed entries. */
  lemma ChildStatsYield(rootDir: string, path: string, dir: Node, k: nat)
    requires dir.DirNode? && k <= |dir.entries| && StartsWith(path, rootDir)
    ensures StatsYieldEntries(rootDir, path, path[|rootDir|..], dir, k)
  {
    var rel := path[|rootDir|..];
    assert ChildStats(path, dir, 0) == [];
    var j := 0;
    while j < k
      invariant j <= k && StatsYieldEntries(rootDir, path, rel, dir, j)
    {
      ChildStatsYieldStep(rootDir, path, rel, dir, j + 1);
      j := j + 1;
    }
  }

  lemma ChildStatsYieldStep(rootDir: string, path: string, rel: string, dir: Node, k: nat)
    requires dir.DirNode? && 0 < k <= |dir.entries| && StartsWith(path, rootDir) && rel == path[|rootDir|..]
    requires StatsYieldEntries(rootDir, path, rel, dir, k - 1)
    ensures StatsYieldEntries(rootDir, path, rel, dir, k)
  {
    ChildStatsStep(rootDir, path, dir, k);
    ReachableInStep(rel, dir, k);
  }

  lemma ReachableInStep(rel: string, dir: Node, k: nat)
    requires dir.DirNode? && 0 < k <= |dir.entries|
    ensures multiset(ReachableIn(rel, dir, k))
      == multiset(ReachableIn(rel, dir, k - 1)) + multiset(EntryPaths(rel, dir, k - 1))
  {
    assert ReachableIn(rel, dir, k) == ReachableIn(rel, dir, k - 1) + EntryPaths(rel, dir, k - 1);
  }

  /** The `stat` calls of a listing weigh no more than the listed entries. */
  lemma {:induction false} ChildStatsWeight(path: string, dir: Node, k: nat)
    requires dir.DirNode? && k <= |dir.entries|
    ensures PendingWeight(ChildStats(path, dir, k)) <= WeightIn(dir, k)
    decreases k
  {
    if k > 0 {
      var e := dir.entries[k - 1];
      var prev := ChildStats(path, dir, k - 1);
      ChildStatsWeight(path, dir, k - 1);
      if !Hidden(e.name) {
        var op := Stat(Child(path, e.name), e.node);
        assert ChildStats(path, dir, k) == prev + [op];
        assert (prev + [op])[..|prev|] == prev;
      } else {
        assert ChildStats(path, dir, k) == prev;
      }
    }
  }

  /** A completed listing replaces its `readdir` by the `stat` calls of its visible entries:
      the files still to come are the same, and the remaining work shrinks. */
  lemma ListingDone(rootDir: string, path: string, dir: Node, base: seq<Op>)
    requires dir.DirNode? && StartsWith(path, rootDir)
    requires forall o :: o in base ==> WellFormed(rootDir, o)
    ensures var after := base + ChildStats(path, dir, |dir.entries|);
      && (forall o :: o in after ==> WellFormed(rootDir, o))
      && PendingYield(rootDir, after) == PendingYield(rootDir, base) + OpYield(rootDir, ReadDir(path, dir))
      && PendingWeight(after) < PendingWeight(base) + OpWeight(ReadDir(path, dir))
  {
    var listed := ChildStats(path, dir, |dir.entries|);
    ChildStatsWellFormed(rootDir, path, dir, |dir.entries|);
    ChildStatsYield(rootDir, path, dir, |dir.entries|);
    ChildStatsWeight(path, dir, |dir.entries|);
    PendingAppend(rootDir, base, listed);
    assert Rel(rootDir, path) == path[|rootDir|..];
  }

  /** The walk's bookkeeping: every outstanding call is well formed, and the files collected
      so far together with those the outstanding calls will still yield are `expected`. */
  predicate Consistent(rootDir: string, files: seq<string>, pending: seq<Op>, expected: multiset<string>) {
    && (forall op :: op in pending ==> WellFormed(rootDir, op))
    && multiset(files) + PendingYield(rootDir, pending) == expected
  }

  /** Taking call `i` out of the list and putting it last changes nothing that is owed. */
  lemma TakeOut(rootDir: string, files: seq<string>, pending: seq<Op>, i: nat, expected: multiset<string>)
    requires i < |pending| && Consistent(rootDir, files, pending, expected)
    ensures var rest := pending[..i] + pending[i + 1..];
      && WellFormed(rootDir, pending[i])
      && Consistent(rootDir, files, rest + [pending[i]], expected)
      && PendingWeight(rest) + OpWeight(pending[i]) == PendingWeight(pending)
  {
    var rest := pending[..i] + pending[i + 1..];
    RemovePending(rootDir, pending, i);
    PendingSnoc(rootDir, rest, pending[i]);
    forall o | o in rest + [pending[i]]
      ensures WellFormed(rootDir, o)
    {
      if o in pending[..i] {
        assert o in pending;
      } else if o in pending[i + 1..] {
        assert o in pending;
      }
    }
  }

  /** The walk starts with one `stat` of the root, which owes every reachable file. */
  lemma Started(rootDir: string, node: Node)
    ensures Consistent(rootDir, [], [Stat(rootDir, node)], multiset(Reachable("", node)))
  {
    assert rootDir[|rootDir|..] == "";
    assert [Stat(rootDir, node)][..0] == [];
  }

  /** A `stat` that finds a file records the path with the root removed. */
  lemma FileStatted(rootDir: string, files: seq<string>, pending: seq<Op>, path: string, node: Node,
                    expected: multiset<string>)
    requires node.FileNode? && Consistent(rootDir, files, pending + [Stat(path, node)], expected)
    ensures StartsWith(path, rootDir)
    ensures Consistent(rootDir, files + [path[|rootDir|..]], pending, expected)
  {
    assert Stat(path, node) in pending + [Stat(path, node)];
    PendingSnoc(rootDir, pending, Stat(path, node));
    assert OpYield(rootDir, Stat(path, node)) == multiset{path[|rootDir|..]};
    assert multiset(files + [path[|rootDir|..]]) == multiset(files) + multiset{path[|rootDir|..]};
    forall o | o in pending
      ensures WellFormed(rootDir, o)
    {
      assert o in pending + [Stat(path, node)];
    }
  }

  /** A `stat` that finds a directory is replaced by its `readdir`, which owes the same files
      and less work. */
  lemma DirStatted(rootDir: string, files: seq<string>, pending: seq<Op>, path: string, node: Node,
                   expected: multiset<string>)
    requires node.DirNode? && Consistent(rootDir, files, pending + [Stat(path, node)], expected)
    ensures Consistent(rootDir, files, pending + [ReadDir(path, node)], expected)
    ensures PendingWeight(pending + [ReadDir(path, node)]) < PendingWeight(pending) + OpWeight(Stat(path, node))
  {
    assert Stat(path, node) in pending + [Stat(path, node)];
    PendingSnoc(rootDir, pending, Stat(path, node));
    PendingSnoc(rootDir, pending, ReadDir(path, node));
    assert OpYield(rootDir, ReadDir(path, node)) == OpYield(rootDir, Stat(path, node));
    forall o | o in pending + [ReadDir(path, node)]
      ensures WellFormed(rootDir, o)
    {
      if o in pending {
        assert o in pending + [Stat(path, node)];
      }
    }
  }

  /** A `readdir` that completes is replaced by the `stat` calls of the visible entries. */
  lemma Listed(rootDir: string, files: seq<string>, base: seq<Op>, path: string, dir: Node,
               expected: multiset<string>)
    requires dir.DirNode? && Consistent(rootDir, files, base + [ReadDir(path, dir)], expected)
    ensures var after := base + ChildStats(path, dir, |dir.entries|);
      && Consistent(rootDir, files, after, expected)
      && PendingWeight(after) < PendingWeight(base) + OpWeight(ReadDir(path, dir))
  {
    assert ReadDir(path, dir) in base + [ReadDir(path, dir)];
    PendingSnoc(rootDir, base, ReadDir(path, dir));
    forall o | o in base
      ensures WellFormed(rootDir, o)
    {
      assert o in base + [ReadDir(path, dir)];
    }
    ListingDone(rootDir, path, dir, base);
  }

  /** The manifest's fixed opening lines. */
  const ManifestHeader: string :=
    "CACHE MANIFEST \n"
    + "# List of all resources required by this project \n"
    + "# Explicitly cached entries (only the \"CACHE\" needs to be added) \n"
    + "CACHE:\n"

  const NetworkSection: string := "NETWORK:\n*"

  function CacheLine(buildVersion: string, file: string): string {
    "/" + buildVersion + file + "\n"
  }

  /** The cache section: one line per file, in the order the files were collected. */
  function CacheLines(buildVersion: string, files: seq<string>): string
  {
    if files == [] then ""
    else CacheLines(buildVersion, files[..|files| - 1]) + CacheLine(buildVersion, files[|files| - 1])
  }

  /** The manifest text. */
  function ManifestText(buildVersion: string, files: seq<string>): (text: string)
    ensures StartsWith(text, ManifestHeader)
    ensures |NetworkSection| <= |text| && text[|text| - |NetworkSection|..] == NetworkSection
    ensures |text| == |ManifestHeader| + |NetworkSection| + |CacheLines(buildVersion, files)|
  {
    var text := ManifestHeader + CacheLines(buildVersion, files) + NetworkSection;
    assert text[..|ManifestHeader|] == ManifestHeader;
    assert text[|text| - |NetworkSection|..] == NetworkSection;
    text
  }

  lemma {:induction false} CacheLinesAppend(buildVersion: string, a: seq<string>, b: seq<string>)
    ensures CacheLines(buildVersion, a + b) == CacheLines(buildVersion, a) + CacheLines(buildVersion, b)
    decreases |b|
  {
    if b == [] {
      assert a + b == a;
    } else {
      var init, last := b[..|b| - 1], b[|b| - 1];
      calc {
        CacheLines(buildVersion, a + b);
        { assert a + b == (a + init) + [last]; }
        CacheLines(buildVersion, (a + init) + [last]);
        { CacheLinesSnoc(buildVersion, a + init, last); }
        CacheLines(buildVersion, a + init) + CacheLine(buildVersion, last);
        { CacheLinesAppend(buildVersion, a, init); }
        CacheLines(buildVersion, a) + CacheLines(buildVersion, init) + CacheLine(buildVersion, last);
        { ConcatAssoc(CacheLines(buildVersion, a), CacheLines(buildVersion, init), CacheLine(buildVersion, last)); }
        CacheLines(buildVersion, a) + (CacheLines(buildVersion, init) + CacheLine(buildVersion, last));
        CacheLines(buildVersion, a) + CacheLines(buildVersion, b);
      }
    }
  }

  lemma CacheLinesSnoc(buildVersion: string, files: seq<string>, file: string)
    ensures CacheLines(buildVersion, files + [file]) == CacheLines(buildVersion, files) + CacheLine(buildVersion, file)
  {
    assert (files + [file])[..|files|] == files;
  }

  /** The manifest opens with its header, closes with the network wildcard, and holds the
      line `/<buildVersion><file>` of the `i`-th file right after the lines of the files
      before it. */
  lemma ManifestLayout(buildVersion: string, files: seq<string>, i: nat)
    requires i < |files|
    ensures var text := ManifestText(buildVersion, files);
      var at := |ManifestHeader| + |CacheLines(buildVersion, files[..i])|;
      var line := CacheLine(buildVersion, files[i]);
      StartsWith(text, ManifestHeader)
      && |NetworkSection| <= |text| && text[|text| - |NetworkSection|..] == NetworkSection
      && at + |line| <= |text| && text[at..at + |line|] == line
  {
    CacheLayout(ManifestHeader, NetworkSection, buildVersion, files, i);
  }

  /** The layout of any text made of a header, the cache lines and a trailer. */
  lemma CacheLayout(header: string, trailer: string, buildVersion: string, files: seq<string>, i: nat)
    requires i < |files|
    ensures var text := header + CacheLines(buildVersion, files) + trailer;
      var at := |header| + |CacheLines(buildVersion, files[..i])|;
      var line := CacheLine(buildVersion, files[i]);
      text[..|header|] == header
      && |trailer| <= |text| && text[|text| - |trailer|..] == trailer
      && at + |line| <= |text| && text[at..at + |line|] == line
  {
    var pre, mid, post := files[..i], [files[i]], files[i + 1..];
    var before, line, rest := CacheLines(buildVersion, pre), CacheLine(buildVersion, files[i]), CacheLines(buildVersion, post);
    assert files == (pre + mid) + post;
    assert CacheLines(buildVersion, mid) == line by {
      assert mid[..0] == [];
    }
    calc {
      CacheLines(buildVersion, files);
      CacheLines(buildVersion, (pre + mid) + post);
      { CacheLinesAppend(buildVersion, pre + mid, post); }
      CacheLines(buildVersion, pre + mid) + rest;
      { CacheLinesAppend(buildVersion, pre, mid); }
      before + line + rest;
    }
    Placed(header, CacheLines(buildVersion, files), trailer, before, line, rest);
  }

  /** A body made of three parts, framed by a header and a trailer. */
  lemma Placed(header: string, body: string, trailer: string, before: string, line: string, rest: string)
    requires body == before + line + rest
    ensures var text := header + body + trailer;
      var at := |header| + |before|;
      text[..|header|] == header
      && |trailer| <= |text| && text[|text| - |trailer|..] == trailer
      && at + |line| <= |text| && text[at..at + |line|] == line
  {
    Slices(header, before, line, rest, trailer);
  }

  /** Where the parts of a five-part text sit. */
  lemma Slices(a: string, b: string, c: string, d: string, e: string)
    ensures var t := a + (b + c + d) + e;
      t[..|a|] == a && |e| <= |t| && t[|t| - |e|..] == e
      && |a| + |b| + |c| <= |t| && t[|a| + |b|..|a| + |b| + |c|] == c
  {
    var t := a + (b + c + d) + e;
    assert t == (a + b) + c + (d + e);
    var i := |a| + |b|;
    assert forall k :: 0 <= k < |c| ==> t[i + k] == c[k];
    assert forall k :: 0 <= k < |e| ==> t[|t| - |e| + k] == e[k];
  }

  /** The walk of `manifest`: the pending-call counter, the collected files, the outstanding
      calls, and the file lists handed to the completion callback. */
  class Scanner {
    const rootDir: string
    var count: int
    var files: seq<string>
    var pending: seq<Op>
    var reports: seq<seq<string>>
    ghost const expected: multiset<string>

    ghost predicate Valid()
      reads this
    {
      && count == |pending|
      && Consistent(rootDir, files, pending, expected)
      && |reports| <= 1
      && (pending == [] <==> |reports| == 1)
      && (reports != [] ==> reports[0] == files)
    }

    /** `new Scanner(app, callback).scan(rootDir)`: the root is stat'ed. */
    constructor (root: string, node: Node)
      ensures Valid() && rootDir == root && expected == multiset(Reachable("", node))
      ensures count == 1 && files == [] && pending == [Stat(root, node)] && reports == []
    {
      rootDir, expected := root, multiset(Reachable("", node));
      count, files, reports := 0, [], [];
      pending := [];
      new;
      Started(root, node);
      Scan(root, node);
    }

    /** `scan(path)`: count the call, then issue `stat`. */
    method Scan(path: string, node: Node)
      modifies this`count, this`pending
      ensures count == old(count) + 1 && pending == old(pending) + [Stat(path, node)]
      ensures files == old(files) && reports == old(reports)
    {
      count := count + 1;
      pending := pending + [Stat(path, node)];
    }

    /** `callbackIfDone`: the callback receives the files once no call is pending. */
    method CallbackIfDone()
      modifies this`reports
      ensures reports == old(reports) + (if count <= 0 then [files] else [])
    {
      if count <= 0 {
        reports := reports + [files];
      }
    }

    /** The walk once call `op` has been taken out of the pending list and the counter. */
    ghost predicate Awaiting(op: Op)
      reads this
    {
      && count == |pending|
      && WellFormed(rootDir, op)
      && Consistent(rootDir, files, pending + [op], expected)
      && reports == []
    }

    /** The event loop: outstanding calls complete one at a time, in an order the file
        system chooses, until none is left; the callback has then received every reachable
        file exactly once. */
    method Run()
      requires Valid()
      modifies this
      ensures Valid() && pending == [] && |reports| == 1
      ensures multiset(reports[0]) == expected
    {
      while pending != []
        invariant Valid()
        decreases PendingWeight(pending)
      {
        var i :| 0 <= i < |pending|;
        Complete(i);
      }
      assert PendingYield(rootDir, pending) == multiset{};
    }

    /** The `i`-th outstanding call completes: `that.count -= 1`, then its callback runs. */
    method Complete(i: nat)
      requires Valid() && i < |pending|
      modifies this
      ensures Valid()
      ensures PendingWeight(pending) < old(PendingWeight(pending))
      ensures pending == old(pending)[..i] + old(pending)[i + 1..] + Issued(old(pending)[i])
      ensures files == old(files) + Recorded(rootDir, old(pending)[i])
      ensures reports == old(reports) + (if pending == [] then [files] else [])
    {
      var op := pending[i];
      var rest := pending[..i] + pending[i + 1..];
      TakeOut(rootDir, files, pending, i, expected);
      pending := rest;
      count := count - 1;
      Finish(op);
    }

    /** The callback of a completed call. */
    method Finish(op: Op)
      requires Awaiting(op)
      modifies this
      ensures Valid()
      ensures PendingWeight(pending) < old(PendingWeight(pending)) + OpWeight(op)
      ensures pending == old(pending) + Issued(op)
      ensures files == old(files) + Recorded(rootDir, op)
      ensures reports == old(reports) + (if pending == [] then [files] else [])
    {
      if op.Stat? {
        StatDone(op.path, op.node);
      } else {
        ReadDirDone(op.path, op.dir);
      }
    }

    /** A `stat` completes: a directory gets its `readdir`; a file's path is recorded with the
        root removed. */
    method StatDone(path: string, node: Node)
      requires Awaiting(Stat(path, node))
      modifies this
      ensures Valid()
      ensures PendingWeight(pending) < old(PendingWeight(pending)) + OpWeight(Stat(path, node))
      ensures reports == old(reports) + (if pending == [] then [files] else [])
      ensures pending == old(pending) + (if node.DirNode? then [ReadDir(path, node)] else [])
      ensures files == old(files) + (if node.DirNode? then [] else [path[|rootDir|..]])
    {
      if node.DirNode? {
        DirStatted(rootDir, files, pending, path, node, expected);
        count := count + 1;
        pending := pending + [ReadDir(path, node)];
      } else {
        FileStatted(rootDir, files, pending, path, node, expected);
        ReplacePrefixByEmpty(path, rootDir);
        files := files + [ReplaceFirst(path, rootDir, "")];
      }
      CallbackIfDone();
    }

    /** `subpaths.forEach(...)`: scan every entry whose name does not start with '.'. */
    method List(path: string, dir: Node)
      requires dir.DirNode? && count == |pending|
      modifies this`count, this`pending
      ensures pending == old(pending) + ChildStats(path, dir, |dir.entries|) && count == |pending|
      ensures files == old(files) && reports == old(reports)
    {
      var k := 0;
      while k < |dir.entries|
        invariant k <= |dir.entries|
        invariant pending == old(pending) + ChildStats(path, dir, k) && count == |pending|
        invariant files == old(files) && reports == old(reports)
      {
        var e := dir.entries[k];
        ghost var listed := ChildStats(path, dir, k);
        if !Hidden(e.name) {
          Scan(Child(path, e.name), e.node);
          assert ChildStats(path, dir, k + 1) == listed + [Stat(Child(path, e.name), e.node)];
        } else {
          assert ChildStats(path, dir, k + 1) == listed;
        }
        k := k + 1;
      }
    }

    /** A `readdir` completes: every entry whose name does not start with '.' is scanned. */
    method ReadDirDone(path: string, dir: Node)
      requires Awaiting(ReadDir(path, dir)) && dir.DirNode?
      modifies this`count, this`pending, this`reports
      ensures Valid()
      ensures PendingWeight(pending) < old(PendingWeight(pending)) + OpWeight(ReadDir(path, dir))
      ensures reports == old(reports) + (if pending == [] then [files] else [])
      ensures pending == old(pending) + ChildStats(path, dir, |dir.entries|)
      ensures files == old(files)
    {
      ghost var base, before := pending, files;
      assert Consistent(rootDir, before, base + [ReadDir(path, dir)], expected);
      List(path, dir);
      Listed(rootDir, before, base, path, dir, expected);
      assert files == before && pending == base + ChildStats(path, dir, |dir.entries|);
      assert Consistent(rootDir, files, pending, expected);
      CallbackIfDone();
      assert count == |pending| && Consistent(rootDir, files, pending, expected);
      assert |reports| <= 1 && (pending == [] <==> |reports| == 1) && (reports != [] ==> reports[0] == files);
    }
  }
}
