/** Planning a multi-file patch: the operations are simulated on a lazily loaded overlay and
    reduced to the net before/after image of every touched path. */
module PatchPlanner {
  import opened Base
  import opened Ordering
  import opened Workspace
  import Text = ExactText

  const MAX_BATCH_PATHS: nat := 200
  const MAX_BATCH_SNAPSHOT_BYTES: nat := 16 * 1024 * 1024

  datatype Operation =
    | ReplaceFile(path: Path, expected: Digest, content: Bytes)
    | ReplaceText(path: Path, expected: Digest, edits: seq<Text.Edit>)
    | CreateFile(path: Path, content: Bytes)
    | DeleteFile(path: Path, expected: Digest)
    | Relocate(path: Path, destination: Path, expected: Digest)

  /** What the planner can ask of a workspace besides the files: scope, file kinds, directories,
      the case and Unicode folding of names, and UTF-8 validity. */
  datatype Site = Site(
    allowed: Path -> bool, irregular: Path -> bool, hasParent: Path -> bool,
    identity: Path -> Path, isUtf8: Bytes -> bool)

  // ----- Reference meaning: run the operations one by one on the real map -----

  function RunOne(site: Site, files: FileMap, op: Operation): Result<FileMap> {
    match op
    case ReplaceFile(p, expected, content) =>
      if p !in files then Err(MissingFile)
      else if Sha256(files[p]) != expected then Err(StateMismatch)
      else Ok(files[p := content])
    case ReplaceText(p, expected, edits) =>
      if p !in files then Err(MissingFile)
      else
        (match Text.TextReplacement(files[p], expected, edits, site.isUtf8)
         case Err(code) => Err(code)
         case Ok(text) => Ok(files[p := text]))
    case CreateFile(p, content) =>
      if p in files then Err(StateMismatch) else Ok(files[p := content])
    case DeleteFile(p, expected) =>
      if p !in files then Err(MissingFile)
      else if Sha256(files[p]) != expected then Err(StateMismatch)
      else Ok(files - {p})
    case Relocate(p, q, expected) =>
      if p !in files then Err(MissingFile)
      else if Sha256(files[p]) != expected then Err(StateMismatch)
      else if q in files then Err(StateMismatch)
      else Ok((files - {p})[q := files[p]])
  }

  function RunAll(site: Site, files: FileMap, ops: seq<Operation>): Result<FileMap>
    decreases ops
  {
    if ops == [] then Ok(files)
    else
      match RunAll(site, files, ops[..|ops| - 1])
      case Err(code) => Err(code)
      case Ok(mid) => RunOne(site, mid, ops[|ops| - 1])
  }

  // ----- Which paths are touched, in order of first touch, and the limits on them -----

  function AddTouch(order: seq<Path>, p: Path): seq<Path> {
    if p in order then order else order + [p]
  }

  function AddTouches(order: seq<Path>, op: Operation): seq<Path> {
    if op.Relocate? then AddTouch(AddTouch(order, op.path), op.destination) else AddTouch(order, op.path)
  }

  function TouchOrder(ops: seq<Operation>): seq<Path> {
    if ops == [] then [] else AddTouches(TouchOrder(ops[..|ops| - 1]), ops[|ops| - 1])
  }

  function Size(content: Option<Bytes>): nat {
    match content case None => 0 case Some(bytes) => |bytes|
  }

  function TotalSize(files: FileMap, paths: seq<Path>): nat {
    if paths == [] then 0 else TotalSize(files, paths[..|paths| - 1]) + Size(Get(files, paths[|paths| - 1]))
  }

  predicate Permitted(site: Site, files: FileMap, p: Path) {
    site.allowed(p) && !site.irregular(p) && Size(Get(files, p)) <= MAX_STRUCTURAL_CONTENT_BYTES
  }

  /** No two paths are the same file on a case-insensitive disk. */
  ghost predicate Unlike(site: Site, order: seq<Path>) {
    forall i, j :: 0 <= i < j < |order| ==> site.identity(order[i]) != site.identity(order[j])
  }

  /** Limits on the set of touched paths. */
  ghost predicate Admits(site: Site, files: FileMap, order: seq<Path>) {
    && |order| <= MAX_BATCH_PATHS
    && (forall i :: 0 <= i < |order| ==> Permitted(site, files, order[i]))
    && Unlike(site, order)
    && TotalSize(files, order) <= MAX_BATCH_SNAPSHOT_BYTES
  }

  /** A relocation needs its destination directory; a create may bring its own. */
  ghost predicate ParentsExist(site: Site, ops: seq<Operation>) {
    forall i :: 0 <= i < |ops| && ops[i].Relocate? ==> site.hasParent(ops[i].destination)
  }

  // ----- The overlay -----

  datatype Virtual = Virtual(before: Option<Bytes>, current: Option<Bytes>)

  /** An insertion-ordered dictionary from path to its virtual state. */
  datatype States = States(order: seq<Path>, table: map<Path, Virtual>)

  /** Loads a path on first touch, applying every guard in the source's order. */
  function Load(site: Site, files: FileMap, st: States, p: Path, needsParent: bool): Result<States> {
    if p in st.table then
      if needsParent && !site.hasParent(p) then Err(MissingFile) else Ok(st)
    else if |st.order| >= MAX_BATCH_PATHS then Err(PolicyDenied)
    else if exists i :: 0 <= i < |st.order| && site.identity(st.order[i]) == site.identity(p) then Err(InvalidPayload)
    else if !site.allowed(p) then Err(ScopeViolation)
    else if needsParent && !site.hasParent(p) then Err(MissingFile)
    else if site.irregular(p) then Err(UnsafePath)
    else if Size(Get(files, p)) > MAX_STRUCTURAL_CONTENT_BYTES then Err(PolicyDenied)
    else if TotalSize(files, st.order + [p]) > MAX_BATCH_SNAPSHOT_BYTES then Err(PolicyDenied)
    else Ok(States(st.order + [p], st.table[p := Virtual(Get(files, p), Get(files, p))]))
  }

  function Set(st: States, p: Path, content: Option<Bytes>): States
    requires p in st.table
  {
    st.(table := st.table[p := st.table[p].(current := content)])
  }

  /** Both paths of a relocation are loaded before anything is checked. */
  function LoadAll(site: Site, files: FileMap, st: States, op: Operation): (r: Result<States>)
    ensures r.Ok? ==> op.path in r.value.table && (op.Relocate? ==> op.destination in r.value.table)
  {
    var first := Load(site, files, st, op.path, false);
    if op.Relocate? && first.Ok? then Load(site, files, first.value, op.destination, true) else first
  }

  /** The operation proper: its preconditions on the virtual state, then the virtual writes. */
  function Effect(site: Site, st: States, op: Operation): Result<States>
    requires op.path in st.table && (op.Relocate? ==> op.destination in st.table)
  {
    var current := st.table[op.path].current;
    match op
    case ReplaceFile(p, expected, content) =>
      if current.None? then Err(MissingFile)
      else if Sha256(current.value) != expected then Err(StateMismatch)
      else Ok(Set(st, p, Some(content)))
    case ReplaceText(p, expected, edits) =>
      if current.None? then Err(MissingFile)
      else
        (match Text.TextReplacement(current.value, expected, edits, site.isUtf8)
         case Err(code) => Err(code)
         case Ok(text) => Ok(Set(st, p, Some(text))))
    case CreateFile(p, content) =>
      if current.Some? then Err(StateMismatch) else Ok(Set(st, p, Some(content)))
    case DeleteFile(p, expected) =>
      if current.None? then Err(MissingFile)
      else if Sha256(current.value) != expected then Err(StateMismatch)
      else Ok(Set(st, p, None))
    case Relocate(p, q, expected) =>
      if current.None? then Err(MissingFile)
      else if Sha256(current.value) != expected then Err(StateMismatch)
      else if st.table[q].current.Some? then Err(StateMismatch)
      else Ok(Set(Set(st, q, current), p, None))
  }

  function Simulate(site: Site, files: FileMap, st: States, op: Operation): Result<States> {
    var loaded := LoadAll(site, files, st, op);
    if loaded.Err? then loaded else Effect(site, loaded.value, op)
  }

  /** The overlay stands for `now`: touched paths hold their virtual bytes, the rest are the original. */
  ghost predicate Represents(st: States, files: FileMap, now: FileMap) {
    && Distinct(st.order)
    && (forall p :: p in st.table <==> p in st.order)
    && (forall p :: p in st.table ==> st.table[p].before == Get(files, p) && st.table[p].current == Get(now, p))
    && (forall p :: p !in st.table ==> Get(now, p) == Get(files, p))
  }

  lemma IdentitiesMore(site: Site, order: seq<Path>, p: Path)
    ensures Unlike(site, order + [p]) <==>
      Unlike(site, order) && forall i :: 0 <= i < |order| ==> site.identity(order[i]) != site.identity(p)
  {
    var more := order + [p];
    assert more[|order|] == p && forall i :: 0 <= i < |order| ==> more[i] == order[i];
  }

  /** What one more path must satisfy for the limits to hold. */
  lemma AdmitsMore(site: Site, files: FileMap, order: seq<Path>, p: Path)
    requires Admits(site, files, order)
    ensures Admits(site, files, order + [p]) <==>
      && |order| < MAX_BATCH_PATHS
      && (forall i :: 0 <= i < |order| ==> site.identity(order[i]) != site.identity(p))
      && Permitted(site, files, p)
      && TotalSize(files, order + [p]) <= MAX_BATCH_SNAPSHOT_BYTES
  {
    var more := order + [p];
    IdentitiesMore(site, order, p);
    assert more[|order|] == p && forall i :: 0 <= i < |order| ==> more[i] == order[i];
  }

  lemma LoadedStillRepresents(files: FileMap, now: FileMap, st: States, p: Path)
    requires Represents(st, files, now) && p !in st.table
    ensures p !in st.order
    ensures Represents(
      States(st.order + [p], st.table[p := Virtual(Get(files, p), Get(files, p))]), files, now)
  {
    var more := st.order + [p];
    assert forall i :: 0 <= i < |st.order| ==> more[i] == st.order[i] && st.order[i] in st.order;
  }

  lemma LoadMeans(site: Site, files: FileMap, now: FileMap, st: States, p: Path, needsParent: bool)
    requires Represents(st, files, now) && Admits(site, files, st.order)
    ensures Load(site, files, st, p, needsParent).Ok?
       <==> Admits(site, files, AddTouch(st.order, p)) && (needsParent ==> site.hasParent(p))
    ensures var r := Load(site, files, st, p, needsParent);
      r.Ok? ==> r.value.order == AddTouch(st.order, p) && p in r.value.table && Represents(r.value, files, now)
  {
    if p in st.table {
      assert p in st.order;
    } else {
      LoadedStillRepresents(files, now, st, p);
      AdmitsMore(site, files, st.order, p);
    }
  }

  /** Writing in the overlay is writing in the map it stands for. */
  lemma SetMeans(files: FileMap, now: FileMap, st: States, p: Path, content: Option<Bytes>)
    requires Represents(st, files, now) && p in st.table
    ensures Represents(Set(st, p, content), files, Put(now, p, content))
  {
    assert Set(st, p, content).table.Keys == st.table.Keys;
  }

  lemma AdmitsPrefix(site: Site, files: FileMap, order: seq<Path>, p: Path)
    requires Admits(site, files, AddTouch(order, p))
    ensures Admits(site, files, order)
  {
    var more := AddTouch(order, p);
    assert forall i :: 0 <= i < |order| ==> more[i] == order[i];
    if p !in order { assert more[..|order|] == order; }
  }

  /** An overlay result against the result of the operation on the map it stands for. */
  ghost predicate Mirrors(r: Result<States>, run: Result<FileMap>, st: States, files: FileMap) {
    && (run.Err? ==> r == Err(run.error))
    && (run.Ok? ==> r.Ok? && r.value.order == st.order && Represents(r.value, files, run.value))
  }

  lemma ReplaceFileMeans(site: Site, files: FileMap, now: FileMap, st: States, op: Operation)
    requires Represents(st, files, now) && op.ReplaceFile? && op.path in st.table
    ensures Mirrors(Effect(site, st, op), RunOne(site, now, op), st, files)
  {
    SetMeans(files, now, st, op.path, Some(op.content));
  }

  lemma ReplaceTextMeans(site: Site, files: FileMap, now: FileMap, st: States, op: Operation)
    requires Represents(st, files, now) && op.ReplaceText? && op.path in st.table
    ensures Mirrors(Effect(site, st, op), RunOne(site, now, op), st, files)
  {
    if op.path in now {
      var text := Text.TextReplacement(now[op.path], op.expected, op.edits, site.isUtf8);
      if text.Ok? {
        SetMeans(files, now, st, op.path, Some(text.value));
      }
    }
  }

  lemma CreateMeans(site: Site, files: FileMap, now: FileMap, st: States, op: Operation)
    requires Represents(st, files, now) && op.CreateFile? && op.path in st.table
    ensures Mirrors(Effect(site, st, op), RunOne(site, now, op), st, files)
  {
    SetMeans(files, now, st, op.path, Some(op.content));
  }

  lemma DeleteMeans(site: Site, files: FileMap, now: FileMap, st: States, op: Operation)
    requires Represents(st, files, now) && op.DeleteFile? && op.path in st.table
    ensures Mirrors(Effect(site, st, op), RunOne(site, now, op), st, files)
  {
    SetMeans(files, now, st, op.path, None);
  }

  lemma MoveIsTwoPuts(now: FileMap, p: Path, q: Path)
    requires p in now && q !in now
    ensures (now - {p})[q := now[p]] == Put(Put(now, q, Some(now[p])), p, None)
  {
  }

  lemma RelocateMeans(site: Site, files: FileMap, now: FileMap, st: States, op: Operation)
    requires Represents(st, files, now) && op.Relocate? && op.path in st.table && op.destination in st.table
    ensures Mirrors(Effect(site, st, op), RunOne(site, now, op), st, files)
  {
    var p, q := op.path, op.destination;
    if p in now && q !in now {
      SetMeans(files, now, st, q, Some(now[p]));
      SetMeans(files, Put(now, q, Some(now[p])), Set(st, q, Some(now[p])), p, None);
      MoveIsTwoPuts(now, p, q);
    }
  }

  /** The operation proper: an overlay write stands for a file write, with the same refusals. */
  lemma EffectMeans(site: Site, files: FileMap, now: FileMap, st: States, op: Operation)
    requires Represents(st, files, now) && op.path in st.table && (op.Relocate? ==> op.destination in st.table)
    ensures Mirrors(Effect(site, st, op), RunOne(site, now, op), st, files)
  {
    match op
    case ReplaceFile(_, _, _) => ReplaceFileMeans(site, files, now, st, op);
    case ReplaceText(_, _, _) => ReplaceTextMeans(site, files, now, st, op);
    case CreateFile(_, _) => CreateMeans(site, files, now, st, op);
    case DeleteFile(_, _) => DeleteMeans(site, files, now, st, op);
    case Relocate(_, _, _) => RelocateMeans(site, files, now, st, op);
  }

  ghost predicate Fits(site: Site, files: FileMap, order: seq<Path>, op: Operation) {
    Admits(site, files, AddTouches(order, op)) && (op.Relocate? ==> site.hasParent(op.destination))
  }

  lemma LoadAllMeans(site: Site, files: FileMap, now: FileMap, st: States, op: Operation)
    requires Represents(st, files, now) && Admits(site, files, st.order)
    ensures var r := LoadAll(site, files, st, op);
      && (r.Ok? <==> Fits(site, files, st.order, op))
      && (r.Ok? ==> r.value.order == AddTouches(st.order, op) && Represents(r.value, files, now))
  {
    LoadMeans(site, files, now, st, op.path, false);
    var first := Load(site, files, st, op.path, false);
    if op.Relocate? {
      if Admits(site, files, AddTouches(st.order, op)) {
        AdmitsPrefix(site, files, AddTouch(st.order, op.path), op.destination);
      }
      if first.Ok? {
        LoadMeans(site, files, now, first.value, op.destination, true);
      }
    }
  }

  /** What a simulated operation gives against the real one: `fits` are the limits, `order` the touched paths. */
  ghost predicate Simulated(r: Result<States>, run: Result<FileMap>, fits: bool, order: seq<Path>, files: FileMap) {
    && (r.Ok? <==> fits && run.Ok?)
    && (r.Ok? ==> r.value.order == order && Represents(r.value, files, run.value))
    && (fits && run.Err? ==> r == Err(run.error))
  }

  lemma LoadedThenMirrored(
    loaded: Result<States>, r: Result<States>, run: Result<FileMap>, fits: bool, order: seq<Path>, files: FileMap)
    requires loaded.Ok? <==> fits
    requires if loaded.Err? then r == loaded else loaded.value.order == order && Mirrors(r, run, loaded.value, files)
    ensures Simulated(r, run, fits, order, files)
  {
  }

  /** One simulated operation is one real operation, and within the limits it fails
      exactly when, and with the code with which, the real one fails. */
  lemma SimulateMeans(site: Site, files: FileMap, now: FileMap, st: States, op: Operation)
    requires Represents(st, files, now) && Admits(site, files, st.order)
    ensures Simulated(
      Simulate(site, files, st, op), RunOne(site, now, op),
      Fits(site, files, st.order, op), AddTouches(st.order, op), files)
  {
    LoadAllMeans(site, files, now, st, op);
    var loaded := LoadAll(site, files, st, op);
    if loaded.Ok? {
      EffectMeans(site, files, now, loaded.value, op);
    }
    LoadedThenMirrored(
      loaded, Simulate(site, files, st, op), RunOne(site, now, op),
      Fits(site, files, st.order, op), AddTouches(st.order, op), files);
  }

  // ----- The planner -----

  /** Every touched path with its two images, and the sub-list that changes. */
  datatype Plan = Plan(paths: seq<Item>, changed: seq<Item>)

  ghost predicate Admissible(site: Site, files: FileMap, ops: seq<Operation>) {
    Admits(site, files, TouchOrder(ops)) && ParentsExist(site, ops)
  }

  /** Combined size of both images of every touched path. */
  ghost function SnapshotSize(files: FileMap, after: FileMap, ops: seq<Operation>): nat {
    TotalSize(files, TouchOrder(ops)) + TotalSize(after, TouchOrder(ops))
  }

  predicate PathLe(a: Path, b: Path) {
    LexLe(a.name, b.name)
  }

  /** The plan says what the operations do: exact images of exactly the touched paths, in path order,
      and a change list whose application to `files` is `after`. */
  ghost predicate PlanMeans(plan: Plan, files: FileMap, after: FileMap, touched: seq<Path>) {
    && |plan.changed| <= |plan.paths| == |touched|
    && (forall p :: p in touched <==> p in Paths(plan.paths))
    && (forall i, j :: 0 <= i < j < |plan.paths| ==>
          LexLe(plan.paths[i].path.name, plan.paths[j].path.name) && plan.paths[i].path != plan.paths[j].path)
    && (forall i :: 0 <= i < |plan.paths| ==>
          plan.paths[i].before == Get(files, plan.paths[i].path) && plan.paths[i].after == Get(after, plan.paths[i].path))
    && plan.changed == NetChanges(plan.paths) && plan.changed != []
    && ValidItems(plan.changed)
    && (forall i :: 0 <= i < |plan.changed| ==> plan.changed[i].before == Get(files, plan.changed[i].path))
    && IsImage(after, files, plan.changed)
  }

  function NetChanges(paths: seq<Item>): seq<Item> {
    if paths == [] then []
    else
      var last := paths[|paths| - 1];
      NetChanges(paths[..|paths| - 1]) + (if last.before != last.after then [last] else [])
  }

  lemma {:induction false} NetChangesMeans(paths: seq<Item>)
    requires forall i, j :: 0 <= i < j < |paths| ==> paths[i].path != paths[j].path
    ensures ValidItems(NetChanges(paths))
    ensures forall x :: x in NetChanges(paths) <==> x in paths && x.before != x.after
  {
    if paths != [] {
      var init, last := paths[..|paths| - 1], paths[|paths| - 1];
      NetChangesMeans(init);
      assert paths == init + [last];
      forall x | x in NetChanges(init) ensures x.path != last.path {
        var i :| 0 <= i < |init| && init[i] == x;
        assert paths[i] == x;
      }
    }
  }

  lemma {:induction false} TotalSizeAppend(files: FileMap, a: seq<Path>, b: seq<Path>)
    ensures TotalSize(files, a + b) == TotalSize(files, a) + TotalSize(files, b)
  {
    if b == [] {
      assert a + b == a;
    } else {
      TotalSizeAppend(files, a, b[..|b| - 1]);
      assert (a + b)[..|a + b| - 1] == a + b[..|b| - 1];
    }
  }

  lemma {:induction false} TotalSizeInsert(files: FileMap, x: Path, s: seq<Path>)
    ensures TotalSize(files, Insert(PathLe, x, s)) == TotalSize(files, [x]) + TotalSize(files, s)
  {
    if s == [] || PathLe(x, s[0]) {
      TotalSizeAppend(files, [x], s);
    } else {
      TotalSizeInsert(files, x, s[1..]);
      TotalSizeAppend(files, [s[0]], Insert(PathLe, x, s[1..]));
      TotalSizeAppend(files, [s[0]], s[1..]);
      assert s == [s[0]] + s[1..];
    }
  }

  /** Sorting the paths does not change their total size. */
  lemma {:induction false} TotalSizeSort(files: FileMap, s: seq<Path>)
    ensures TotalSize(files, Sort(PathLe, s)) == TotalSize(files, s)
  {
    if s != [] {
      TotalSizeSort(files, s[1..]);
      TotalSizeInsert(files, s[0], Sort(PathLe, s[1..]));
      TotalSizeAppend(files, [s[0]], s[1..]);
      assert s == [s[0]] + s[1..];
    }
  }

  lemma PathOrder()
    ensures TotalPreorder(PathLe)
  {
    LexOrder();
  }

  /** An earlier failure is the failure of the whole list, and limits only tighten. */
  lemma {:induction false} PrefixFacts(site: Site, files: FileMap, ops: seq<Operation>, k: nat)
    requires k <= |ops|
    ensures RunAll(site, files, ops[..k]).Err? ==> RunAll(site, files, ops) == RunAll(site, files, ops[..k])
    ensures Admits(site, files, TouchOrder(ops)) ==> Admits(site, files, TouchOrder(ops[..k]))
    decreases |ops|
  {
    if k == |ops| {
      assert ops[..k] == ops;
    } else {
      var init, last := ops[..|ops| - 1], ops[|ops| - 1];
      PrefixFacts(site, files, init, k);
      assert init[..k] == ops[..k];
      if Admits(site, files, TouchOrder(ops)) {
        if last.Relocate? {
          AdmitsPrefix(site, files, AddTouch(TouchOrder(init), last.path), last.destination);
        }
        AdmitsPrefix(site, files, TouchOrder(init), last.path);
      }
    }
  }

  /** The sorted, distinct paths of an overlay. */
  lemma SortedPaths(st: States, files: FileMap, now: FileMap) returns (paths: seq<Path>)
    requires Represents(st, files, now)
    ensures paths == Sort(PathLe, st.order)
    ensures forall p :: p in paths <==> p in st.table
    ensures forall i, j :: 0 <= i < j < |paths| ==> PathLe(paths[i], paths[j]) && paths[i] != paths[j]
  {
    paths := Sort(PathLe, st.order);
    PathOrder();
    SortCorrect(PathLe, st.order);
    DistinctByCount(st.order);
    DistinctByCount(paths);
    assert forall p :: p in paths <==> p in multiset(paths);
    assert forall p :: p in st.order <==> p in multiset(st.order);
  }

  /** `items` are the sorted rows of the overlay. */
  ghost predicate IsTable(items: seq<Item>, st: States, files: FileMap, now: FileMap) {
    var paths := Sort(PathLe, st.order);
    |items| == |paths| && forall i :: 0 <= i < |paths| ==>
      items[i] == Item(paths[i], Get(files, paths[i]), Get(now, paths[i]))
  }

  lemma TableRows(st: States, files: FileMap, now: FileMap, items: seq<Item>)
    requires Represents(st, files, now) && IsTable(items, st, files, now)
    ensures forall i, j :: 0 <= i < j < |items| ==>
      PathLe(items[i].path, items[j].path) && items[i].path != items[j].path
    ensures forall p :: p in st.order <==> p in Paths(items)
    ensures forall x :: x in items ==> x.before == Get(files, x.path) && x.after == Get(now, x.path)
  {
    var paths := SortedPaths(st, files, now);
    assert forall i :: 0 <= i < |items| ==> items[i].path == paths[i];
    forall p ensures p in st.order <==> p in Paths(items) {
      if p in st.order {
        assert p in paths;
        var i :| 0 <= i < |paths| && paths[i] == p;
        assert items[i].path == p;
      }
      if p in Paths(items) {
        var i :| 0 <= i < |items| && items[i].path == p;
        assert paths[i] == p;
      }
    }
  }

  lemma InPaths(items: seq<Item>, x: Item)
    ensures x in items ==> x.path in Paths(items)
  {
  }

  /** A path outside the change list is the same in both maps. */
  lemma UnchangedOutside(st: States, files: FileMap, now: FileMap, items: seq<Item>, p: Path)
    requires Represents(st, files, now) && IsTable(items, st, files, now)
    requires p !in Paths(NetChanges(items))
    ensures Get(now, p) == Get(files, p)
  {
    TableRows(st, files, now, items);
    if p in st.table {
      assert p in Paths(items);
      var i :| 0 <= i < |items| && items[i].path == p;
      NetChangesMeans(items);
      var changed := NetChanges(items);
      assert items[i] in items;
      InPaths(changed, items[i]);
    }
  }

  /** Applying the change list to the original files gives the simulated files. */
  lemma ChangesAreImage(st: States, files: FileMap, now: FileMap, items: seq<Item>)
    requires Represents(st, files, now) && IsTable(items, st, files, now)
    ensures ValidItems(NetChanges(items)) && IsImage(now, files, NetChanges(items))
    ensures forall i :: 0 <= i < |NetChanges(items)| ==>
      NetChanges(items)[i].before == Get(files, NetChanges(items)[i].path)
  {
    TableRows(st, files, now, items);
    NetChangesMeans(items);
    var changed := NetChanges(items);
    forall p | p !in Paths(changed) ensures Get(now, p) == Get(files, p) {
      UnchangedOutside(st, files, now, items, p);
    }
    forall i | 0 <= i < |changed|
      ensures changed[i].before == Get(files, changed[i].path) && changed[i].after == Get(now, changed[i].path)
    {
      assert changed[i] in changed && changed[i] in items;
    }
  }

  /** There is a net change exactly when the change list is not empty. */
  lemma ImageChanges(files: FileMap, now: FileMap, changed: seq<Item>)
    requires ValidItems(changed) && IsImage(now, files, changed)
    requires forall i :: 0 <= i < |changed| ==> changed[i].before == Get(files, changed[i].path)
    ensures changed == [] <==> now == files
  {
    if changed == [] {
      SameFiles(now, files);
    } else {
      assert changed[0].before != changed[0].after;
    }
  }

  /** The plan built from an overlay means what the overlay stands for. */
  lemma OverlayPlanMeans(st: States, files: FileMap, now: FileMap, items: seq<Item>)
    requires Represents(st, files, now) && IsTable(items, st, files, now)
    ensures (NetChanges(items) == []) <==> (now == files)
    ensures now != files ==> PlanMeans(Plan(items, NetChanges(items)), files, now, st.order)
  {
    ChangesAreImage(st, files, now, items);
    ImageChanges(files, now, NetChanges(items));
    TableRows(st, files, now, items);
    PathOrder();
    SortCorrect(PathLe, st.order);
    NetChangesShorter(items);
    forall i | 0 <= i < |items|
      ensures items[i].before == Get(files, items[i].path) && items[i].after == Get(now, items[i].path)
    {
      assert items[i] in items;
    }
  }

  lemma {:induction false} NetChangesShorter(paths: seq<Item>)
    ensures |NetChanges(paths)| <= |paths|
  {
    if paths != [] {
      NetChangesShorter(paths[..|paths| - 1]);
    }
  }

  /** After `i` operations the overlay stands for the files that the first `i` operations make. */
  ghost predicate InStep(site: Site, files: FileMap, ops: seq<Operation>, i: nat, st: States)
    requires i <= |ops|
  {
    && RunAll(site, files, ops[..i]).Ok? && Represents(st, files, RunAll(site, files, ops[..i]).value)
    && st.order == TouchOrder(ops[..i]) && Admits(site, files, st.order)
    && ParentsExist(site, ops[..i])
  }

  /** A failed turn dooms the whole list, with its own code when the limits are not the reason. */
  lemma FailedTurn(site: Site, files: FileMap, ops: seq<Operation>, i: nat, st: States)
    requires i < |ops| && InStep(site, files, ops, i, st)
    ensures Simulate(site, files, st, ops[i]).Err? ==>
      var run := RunAll(site, files, ops);
      && !(run.Ok? && Admissible(site, files, ops))
      && (Admissible(site, files, ops) ==> run.Err? && Simulate(site, files, st, ops[i]) == Err(run.error))
  {
    var now := RunAll(site, files, ops[..i]).value;
    SimulateMeans(site, files, now, st, ops[i]);
    PrefixFacts(site, files, ops, i + 1);
    assert ops[..i + 1][..i] == ops[..i] && ops[..i + 1][i] == ops[i];
  }

  lemma ParentsNext(site: Site, ops: seq<Operation>, i: nat)
    requires i < |ops| && ParentsExist(site, ops[..i]) && (ops[i].Relocate? ==> site.hasParent(ops[i].destination))
    ensures ParentsExist(site, ops[..i + 1])
  {
    var head := ops[..i + 1];
    forall k | 0 <= k < |head| && head[k].Relocate? ensures site.hasParent(head[k].destination) {
      assert k < i ==> head[k] == ops[..i][k];
    }
  }

  lemma RunNext(site: Site, files: FileMap, ops: seq<Operation>, i: nat)
    requires i < |ops| && RunAll(site, files, ops[..i]).Ok?
    ensures RunAll(site, files, ops[..i + 1]) == RunOne(site, RunAll(site, files, ops[..i]).value, ops[i])
    ensures TouchOrder(ops[..i + 1]) == AddTouches(TouchOrder(ops[..i]), ops[i])
  {
    assert ops[..i + 1][..i] == ops[..i] && ops[..i + 1][i] == ops[i];
  }

  lemma GoodTurn(site: Site, files: FileMap, ops: seq<Operation>, i: nat, st: States)
    requires i < |ops| && InStep(site, files, ops, i, st) && Simulate(site, files, st, ops[i]).Ok?
    ensures InStep(site, files, ops, i + 1, Simulate(site, files, st, ops[i]).value)
  {
    SimulateMeans(site, files, RunAll(site, files, ops[..i]).value, st, ops[i]);
    RunNext(site, files, ops, i);
    ParentsNext(site, ops, i);
  }

  /** One turn of the simulation loop. */
  method SimulateNext(site: Site, files: FileMap, ops: seq<Operation>, i: nat, st: States) returns (r: Result<States>)
    requires i < |ops| && InStep(site, files, ops, i, st)
    ensures r.Ok? ==> InStep(site, files, ops, i + 1, r.value)
    ensures r.Err? ==>
      var run := RunAll(site, files, ops);
      && !(run.Ok? && Admissible(site, files, ops))
      && (Admissible(site, files, ops) ==> run.Err? && r == Err(run.error))
  {
    FailedTurn(site, files, ops, i, st);
    r := Simulate(site, files, st, ops[i]);
    if r.Ok? {
      GoodTurn(site, files, ops, i, st);
    }
  }

  /** The simulation loop of the planner. */
  method SimulateAll(site: Site, files: FileMap, ops: seq<Operation>) returns (r: Result<States>)
    ensures var run := RunAll(site, files, ops);
      && (r.Ok? <==> run.Ok? && Admissible(site, files, ops))
      && (r.Ok? ==> Represents(r.value, files, run.value) && r.value.order == TouchOrder(ops))
      && (Admissible(site, files, ops) && run.Err? ==> r == Err(run.error))
  {
    var st := States([], map[]);
    for i := 0 to |ops|
      invariant InStep(site, files, ops, i, st)
    {
      r := SimulateNext(site, files, ops, i, st);
      if r.Err? {
        return;
      }
      st := r.value;
    }
    assert ops[..|ops|] == ops;
    return Ok(st);
  }

  /** The first `i` rows, in path order. */
  ghost predicate Rows(items: seq<Item>, paths: seq<Path>, i: nat, files: FileMap, now: FileMap)
    requires i <= |paths|
  {
    |items| == i && forall k :: 0 <= k < i ==> items[k] == Item(paths[k], Get(files, paths[k]), Get(now, paths[k]))
  }

  lemma NetChangesNext(items: seq<Item>, item: Item)
    ensures NetChanges(items + [item]) == NetChanges(items) + (if item.before != item.after then [item] else [])
  {
    assert (items + [item])[..|items|] == items;
  }

  lemma TotalNext(files: FileMap, paths: seq<Path>, i: nat)
    requires i < |paths|
    ensures TotalSize(files, paths[..i + 1]) == TotalSize(files, paths[..i]) + Size(Get(files, paths[i]))
  {
    assert paths[..i + 1][..i] == paths[..i];
  }

  lemma StateOf(st: States, files: FileMap, now: FileMap, paths: seq<Path>, i: nat)
    requires Represents(st, files, now) && multiset(paths) == multiset(st.order) && i < |paths|
    ensures paths[i] in st.table && st.table[paths[i]] == Virtual(Get(files, paths[i]), Get(now, paths[i]))
  {
    assert paths[i] in multiset(st.order);
    assert paths[i] in st.order;
  }

  /** The rows of the plan, its change list and the two byte totals. */
  method Summarise(st: States, ghost files: FileMap, ghost now: FileMap)
    returns (items: seq<Item>, changed: seq<Item>, totalBefore: nat, totalAfter: nat)
    requires Represents(st, files, now)
    ensures IsTable(items, st, files, now) && changed == NetChanges(items)
    ensures totalBefore == TotalSize(files, st.order) && totalAfter == TotalSize(now, st.order)
  {
    var paths := Sort(PathLe, st.order);
    PathOrder();
    SortCorrect(PathLe, st.order);
    items, changed, totalBefore, totalAfter := RowLoop(st, paths, files, now);
    TotalSizeSort(files, st.order);
    TotalSizeSort(now, st.order);
    assert paths[..|paths|] == paths;
  }

  method RowLoop(st: States, paths: seq<Path>, ghost files: FileMap, ghost now: FileMap)
    returns (items: seq<Item>, changed: seq<Item>, totalBefore: nat, totalAfter: nat)
    requires Represents(st, files, now) && multiset(paths) == multiset(st.order)
    ensures Rows(items, paths, |paths|, files, now) && changed == NetChanges(items)
    ensures totalBefore == TotalSize(files, paths) && totalAfter == TotalSize(now, paths)
  {
    items, changed, totalBefore, totalAfter := [], [], 0, 0;
    for i := 0 to |paths|
      invariant Rows(items, paths, i, files, now) && changed == NetChanges(items)
      invariant totalBefore == TotalSize(files, paths[..i]) && totalAfter == TotalSize(now, paths[..i])
    {
      StateOf(st, files, now, paths, i);
      TotalNext(files, paths, i);
      TotalNext(now, paths, i);
      var state := st.table[paths[i]];
      var item := Item(paths[i], state.before, state.current);
      NetChangesNext(items, item);
      items := items + [item];
      if item.before != item.after {
        changed := changed + [item];
      }
      totalBefore, totalAfter := totalBefore + Size(state.before), totalAfter + Size(state.current);
    }
    assert paths[..|paths|] == paths;
  }

  /** Plans the whole patch. It succeeds exactly when the operations run one by one, the limits hold
      and something changes; the plan then means what that run does. Within the limits a
      refusal carries the code of the first operation that fails. */
  method MakePlan(site: Site, files: FileMap, ops: seq<Operation>) returns (r: Result<Plan>)
    ensures var run := RunAll(site, files, ops);
      && (r.Ok? <==> run.Ok? && Admissible(site, files, ops) && run.value != files
                     && SnapshotSize(files, run.value, ops) <= MAX_BATCH_SNAPSHOT_BYTES)
      && (r.Ok? ==> PlanMeans(r.value, files, run.value, TouchOrder(ops)))
      && (Admissible(site, files, ops) && run.Err? ==> r == Err(run.error))
      && (Admissible(site, files, ops) && run.Ok? && run.value == files ==> r == Err(InvalidPayload))
  {
    var simulated := SimulateAll(site, files, ops);
    if simulated.Err? {
      return Err(simulated.error);
    }
    ghost var now := RunAll(site, files, ops).value;
    var items, changed, totalBefore, totalAfter := Summarise(simulated.value, files, now);
    OverlayPlanMeans(simulated.value, files, now, items);
    if changed == [] {
      return Err(InvalidPayload);
    }
    if totalBefore + totalAfter > MAX_BATCH_SNAPSHOT_BYTES {
      return Err(PolicyDenied);
    }
    return Ok(Plan(items, changed));
  }
}
