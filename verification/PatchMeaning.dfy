/** What the operations of a patch do to the files, said path by path, and laws that follow: moving there and back,
    creating and deleting, independent operations in either order. */
module PatchMeaning {
  import opened Base
  import opened Workspace
  import opened PatchPlanner
  import Text = ExactText

  /** The file at `p` exists and has the expected digest. */
  ghost predicate Expects(files: FileMap, p: Path, expected: Digest) {
    p in files && Sha256(files[p]) == expected
  }

  /** Every path outside `paths` keeps what it had. */
  ghost predicate KeepsOthers(files: FileMap, now: FileMap, paths: set<Path>) {
    forall r :: r !in paths ==> Get(now, r) == Get(files, r)
  }

  function PathsOf(op: Operation): set<Path> {
    if op.Relocate? then {op.path, op.destination} else {op.path}
  }

  /** One accepted operation, as a relation between the files before and after. */
  ghost predicate Does(site: Site, files: FileMap, op: Operation, now: FileMap) {
    && KeepsOthers(files, now, PathsOf(op))
    && match op
       case ReplaceFile(p, expected, content) => Expects(files, p, expected) && Get(now, p) == Some(content)
       case ReplaceText(p, expected, edits) =>
         p in files && Get(now, p).Some? && Text.TextReplacement(files[p], expected, edits, site.isUtf8) == Ok(now[p])
       case CreateFile(p, content) => Get(files, p) == None && Get(now, p) == Some(content)
       case DeleteFile(p, expected) => Expects(files, p, expected) && Get(now, p) == None
       case Relocate(p, q, expected) =>
         Expects(files, p, expected) && Get(files, q) == None && Get(now, p) == None && Get(now, q) == Get(files, p)
  }

  /** The result is the only one that the relation allows. */
  lemma DoesOnce(site: Site, files: FileMap, op: Operation, a: FileMap, b: FileMap)
    requires Does(site, files, op, a) && Does(site, files, op, b)
    ensures a == b
  {
    forall r ensures Get(a, r) == Get(b, r) {}
    SameFiles(a, b);
  }

  lemma RunOneDoes(site: Site, files: FileMap, op: Operation)
    ensures RunOne(site, files, op).Ok? ==> Does(site, files, op, RunOne(site, files, op).value)
  {
  }

  lemma DoesIsAccepted(site: Site, files: FileMap, op: Operation, now: FileMap)
    requires Does(site, files, op, now)
    ensures RunOne(site, files, op).Ok?
  {
  }

  /** An operation is accepted with result `now` exactly when it relates the files to `now`. */
  lemma RunOneMeans(site: Site, files: FileMap, op: Operation, now: FileMap)
    ensures RunOne(site, files, op) == Ok(now) <==> Does(site, files, op, now)
  {
    RunOneDoes(site, files, op);
    if Does(site, files, op, now) {
      DoesIsAccepted(site, files, op, now);
      DoesOnce(site, files, op, now, RunOne(site, files, op).value);
    }
  }

  /** Why an operation is refused: what must be there is missing, or what is there is not what was expected. */
  lemma RefusalMeans(site: Site, files: FileMap, op: Operation)
    requires RunOne(site, files, op).Err?
    ensures var code := RunOne(site, files, op).error;
      if op.CreateFile? then op.path in files && code == StateMismatch
      else if op.path !in files then code == MissingFile
      else if op.ReplaceText? then Text.TextReplacement(files[op.path], op.expected, op.edits, site.isUtf8) == Err(code)
      else code == StateMismatch && (Sha256(files[op.path]) != op.expected || (op.Relocate? && op.destination in files))
  {
  }

  // ----- Whole lists -----

  /** The file maps between the operations of a list. */
  ghost predicate IsTrace(site: Site, files: FileMap, ops: seq<Operation>, maps: seq<FileMap>) {
    && |maps| == |ops| + 1 && maps[0] == files
    && forall i :: 0 <= i < |ops| ==> Does(site, maps[i], ops[i], maps[i + 1])
  }

  lemma {:induction false} RunHasTrace(site: Site, files: FileMap, ops: seq<Operation>) returns (maps: seq<FileMap>)
    requires RunAll(site, files, ops).Ok?
    ensures IsTrace(site, files, ops, maps) && maps[|ops|] == RunAll(site, files, ops).value
    decreases |ops|
  {
    if ops == [] {
      maps := [files];
    } else {
      var init := ops[..|ops| - 1];
      var before := RunHasTrace(site, files, init);
      RunOneDoes(site, before[|init|], ops[|ops| - 1]);
      maps := before + [RunAll(site, files, ops).value];
      forall i | 0 <= i < |ops| ensures Does(site, maps[i], ops[i], maps[i + 1]) {
        if i < |init| { assert init[i] == ops[i]; }
      }
    }
  }

  lemma {:induction false} TraceIsRun(site: Site, files: FileMap, ops: seq<Operation>, maps: seq<FileMap>)
    requires IsTrace(site, files, ops, maps)
    ensures RunAll(site, files, ops) == Ok(maps[|ops|])
    decreases |ops|
  {
    if ops != [] {
      var init, before := ops[..|ops| - 1], maps[..|ops|];
      forall i | 0 <= i < |init| ensures Does(site, before[i], init[i], before[i + 1]) {
        assert init[i] == ops[i] && before[i] == maps[i] && before[i + 1] == maps[i + 1];
      }
      TraceIsRun(site, files, init, before);
      RunOneMeans(site, maps[|init|], ops[|init|], maps[|ops|]);
    }
  }

  /** A list is accepted with result `now` exactly when its operations, in their order, lead from the files to `now`. */
  lemma RunAllMeans(site: Site, files: FileMap, ops: seq<Operation>, now: FileMap)
    ensures RunAll(site, files, ops) == Ok(now) <==> exists maps :: IsTrace(site, files, ops, maps) && maps[|ops|] == now
  {
    if RunAll(site, files, ops) == Ok(now) {
      var maps := RunHasTrace(site, files, ops);
      assert IsTrace(site, files, ops, maps) && maps[|ops|] == now;
    }
    if maps :| IsTrace(site, files, ops, maps) && maps[|ops|] == now {
      TraceIsRun(site, files, ops, maps);
    }
  }

  lemma TwoSteps(site: Site, files: FileMap, a: Operation, b: Operation, mid: FileMap, now: FileMap)
    requires Does(site, files, a, mid) && Does(site, mid, b, now)
    ensures RunAll(site, files, [a, b]) == Ok(now)
  {
    assert IsTrace(site, files, [a, b], [files, mid, now]);
    TraceIsRun(site, files, [a, b], [files, mid, now]);
  }

  lemma TwoStepsBack(site: Site, files: FileMap, a: Operation, b: Operation) returns (mid: FileMap)
    requires RunAll(site, files, [a, b]).Ok?
    ensures Does(site, files, a, mid) && Does(site, mid, b, RunAll(site, files, [a, b]).value)
  {
    var maps := RunHasTrace(site, files, [a, b]);
    mid := maps[1];
    assert [a, b][0] == a && [a, b][1] == b;
  }

  // ----- Laws -----

  /** Moving a file away and back leaves everything as it was. */
  lemma ThereAndBack(site: Site, files: FileMap, p: Path, q: Path)
    requires p in files && q !in files
    ensures RunAll(site, files, [Relocate(p, q, Sha256(files[p])), Relocate(q, p, Sha256(files[p]))]) == Ok(files)
  {
    var mid := (files - {p})[q := files[p]];
    TwoSteps(site, files, Relocate(p, q, Sha256(files[p])), Relocate(q, p, Sha256(files[p])), mid, files);
  }

  /** Creating a file and deleting it leaves everything as it was. */
  lemma CreateThenDelete(site: Site, files: FileMap, p: Path, content: Bytes)
    requires p !in files
    ensures RunAll(site, files, [CreateFile(p, content), DeleteFile(p, Sha256(content))]) == Ok(files)
  {
    TwoSteps(site, files, CreateFile(p, content), DeleteFile(p, Sha256(content)), files[p := content], files);
  }

  /** So does deleting a file and creating it again with its bytes. */
  lemma DeleteThenCreate(site: Site, files: FileMap, p: Path)
    requires p in files
    ensures RunAll(site, files, [DeleteFile(p, Sha256(files[p])), CreateFile(p, files[p])]) == Ok(files)
  {
    TwoSteps(site, files, DeleteFile(p, Sha256(files[p])), CreateFile(p, files[p]), files - {p}, files);
  }

  /** A move keeps the number of files and the contents that occur among them. */
  lemma MoveConserves(site: Site, files: FileMap, p: Path, q: Path, expected: Digest)
    requires RunOne(site, files, Relocate(p, q, expected)).Ok?
    ensures var now := RunOne(site, files, Relocate(p, q, expected)).value;
      |now| == |files| && now.Values == files.Values && p !in now
  {
    var now := RunOne(site, files, Relocate(p, q, expected)).value;
    RunOneDoes(site, files, Relocate(p, q, expected));
    forall r ensures r in now.Keys <==> r in files.Keys - {p} + {q} {
      assert Get(now, r) == if r == p then None else if r == q then Get(files, p) else Get(files, r);
    }
    assert now.Keys == files.Keys - {p} + {q};
    forall b ensures b in now.Values <==> b in files.Values {
      if b in now.Values {
        var r :| r in now && now[r] == b;
        assert Get(now, r) == if r == q then Get(files, p) else Get(files, r);
      }
      if b in files.Values {
        var r :| r in files && files[r] == b;
        var s := if r == p then q else r;
        assert Get(now, s) == Some(b);
      }
    }
  }

  /** An operation sees and changes only its own paths. */
  lemma Local(site: Site, files: FileMap, other: FileMap, op: Operation, now: FileMap)
    requires Does(site, files, op, now) && forall r :: r in PathsOf(op) ==> Get(other, r) == Get(files, r)
    ensures RunOne(site, other, op).Ok?
    ensures forall r :: Get(RunOne(site, other, op).value, r) == if r in PathsOf(op) then Get(now, r) else Get(other, r)
  {
    assert op.path in PathsOf(op) && Get(other, op.path) == Get(files, op.path);
    if op.Relocate? { assert Get(other, op.destination) == Get(files, op.destination); }
    assert RunOne(site, other, op).Ok?;
    RunOneDoes(site, other, op);
  }

  /** Operations on different paths may be done in either order. */
  lemma IndependentCommute(site: Site, files: FileMap, a: Operation, b: Operation)
    requires PathsOf(a) !! PathsOf(b) && RunAll(site, files, [a, b]).Ok?
    ensures RunAll(site, files, [b, a]) == RunAll(site, files, [a, b])
  {
    var now := RunAll(site, files, [a, b]).value;
    var mid := TwoStepsBack(site, files, a, b);
    Local(site, mid, files, b, now);
    var first := RunOne(site, files, b).value;
    Local(site, files, first, a, mid);
    var last := RunOne(site, first, a).value;
    forall r ensures Get(last, r) == Get(now, r) {
      assert Get(last, r) == if r in PathsOf(a) then Get(mid, r) else Get(first, r);
      assert Get(first, r) == if r in PathsOf(b) then Get(now, r) else Get(files, r);
    }
    SameFiles(last, now);
    RunOneDoes(site, files, b);
    RunOneDoes(site, first, a);
    TwoSteps(site, files, b, a, first, last);
  }

  // ----- Plans -----

  /** The planned paths are those that some operation names, each once. */
  lemma {:induction false} TouchedExactly(ops: seq<Operation>, p: Path)
    ensures p in TouchOrder(ops) <==> exists i :: 0 <= i < |ops| && p in PathsOf(ops[i])
    decreases |ops|
  {
    if ops != [] {
      var init, last := ops[..|ops| - 1], ops[|ops| - 1];
      TouchedExactly(init, p);
      forall i | 0 <= i < |ops| && p in PathsOf(ops[i]) ensures p in TouchOrder(ops) {
        if i < |init| { assert init[i] == ops[i]; }
      }
      if p in TouchOrder(init) {
        var i :| 0 <= i < |init| && p in PathsOf(init[i]);
        assert p in PathsOf(ops[i]);
      } else if p in TouchOrder(ops) {
        assert p in PathsOf(ops[|ops| - 1]);
      }
    }
  }

  ghost function Touched(ops: seq<Operation>): set<Path> {
    set i, p | 0 <= i < |ops| && p in PathsOf(ops[i]) :: p
  }

  lemma {:induction false} TouchedOnce(ops: seq<Operation>)
    ensures forall i, j :: 0 <= i < j < |TouchOrder(ops)| ==> TouchOrder(ops)[i] != TouchOrder(ops)[j]
    decreases |ops|
  {
    if ops != [] {
      TouchedOnce(ops[..|ops| - 1]);
    }
  }

  lemma {:induction false} ElementCount(s: seq<Path>)
    requires forall i, j :: 0 <= i < j < |s| ==> s[i] != s[j]
    ensures |set p | p in s| == |s|
  {
    if s != [] {
      var init, last := s[..|s| - 1], s[|s| - 1];
      ElementCount(init);
      assert s == init + [last];
      assert (set p | p in s) == (set p | p in init) + {last};
    }
  }

  /** The limits on the named paths, as a set: at most two hundred, each in scope, regular and of bounded size, no two the
      same file on a case-insensitive disk, and bounded together. */
  lemma AdmitsExactly(site: Site, files: FileMap, ops: seq<Operation>)
    ensures Admits(site, files, TouchOrder(ops)) <==>
      && |Touched(ops)| <= 200
      && (forall p :: p in Touched(ops) ==> site.allowed(p) && !site.irregular(p) && (p in files ==> |files[p]| <= 1048576))
      && (forall p, q :: p in Touched(ops) && q in Touched(ops) && p != q ==> site.identity(p) != site.identity(q))
      && TotalSize(files, TouchOrder(ops)) <= 16777216
  {
    var order := TouchOrder(ops);
    TouchedOnce(ops);
    ElementCount(order);
    forall p ensures p in order <==> p in Touched(ops) {
      TouchedExactly(ops, p);
    }
    assert (set p | p in order) == Touched(ops);
  }

  /** The change list of a plan holds exactly the paths whose content changes, with both contents. */
  lemma ChangesExactly(plan: Plan, files: FileMap, after: FileMap, touched: seq<Path>, x: Item)
    requires PlanMeans(plan, files, after, touched)
    ensures x in plan.changed <==>
      x.before == Get(files, x.path) && x.after == Get(after, x.path) && x.before != x.after
  {
    NetChangesMeans(plan.paths);
    if x in plan.changed {
      var i :| 0 <= i < |plan.paths| && plan.paths[i] == x;
    }
    if x.before == Get(files, x.path) && x.after == Get(after, x.path) && x.before != x.after {
      assert x.path in Paths(plan.changed);
      var i :| 0 <= i < |plan.changed| && plan.changed[i].path == x.path;
      var y := plan.changed[i];
      assert y in plan.changed && y in plan.paths;
      assert y == x;
    }
  }

  /** A relocation alone is planned as exactly two changes: the old path goes, the new one comes with its bytes. */
  lemma MovePlan(site: Site, files: FileMap, p: Path, q: Path, expected: Digest, plan: Plan)
    requires var ops := [Relocate(p, q, expected)];
      RunAll(site, files, ops).Ok? && PlanMeans(plan, files, RunAll(site, files, ops).value, TouchOrder(ops))
    ensures p in files && q !in files && |plan.changed| == 2
    ensures Item(p, Some(files[p]), None) in plan.changed && Item(q, None, Some(files[p])) in plan.changed
  {
    var ops := [Relocate(p, q, expected)];
    var now := RunAll(site, files, ops).value;
    var maps := RunHasTrace(site, files, ops);
    assert ops[0] == Relocate(p, q, expected) && Does(site, files, ops[0], now);
    assert p in files && q !in files;
    var gone, come := Item(p, Some(files[p]), None), Item(q, None, Some(files[p]));
    ChangesExactly(plan, files, now, TouchOrder(ops), gone);
    ChangesExactly(plan, files, now, TouchOrder(ops), come);
    forall x | x in plan.changed ensures x in {gone, come} {
      ChangesExactly(plan, files, now, TouchOrder(ops), x);
    }
    TwoDistinct(plan.changed, gone, come);
  }

  lemma {:induction false} PathCount(s: seq<Item>)
    requires ValidItems(s)
    ensures |Paths(s)| == |s|
  {
    if s != [] {
      var init, last := s[..|s| - 1], s[|s| - 1];
      PathCount(init);
      assert Paths(s) == Paths(init) + {last.path};
    }
  }

  lemma TwoDistinct(s: seq<Item>, a: Item, b: Item)
    requires ValidItems(s) && a in s && b in s && a.path != b.path && forall x :: x in s ==> x in {a, b}
    ensures |s| == 2
  {
    PathCount(s);
    forall p ensures p in Paths(s) <==> p in {a.path, b.path} {
      if p in Paths(s) {
        var i :| 0 <= i < |s| && s[i].path == p;
        assert s[i] in s;
      }
    }
    assert Paths(s) == {a.path, b.path};
  }
}
