/** The Git checkout, the state hash over it, and the predictions of that hash. */
module Workspace {
  import opened Base
  import opened Models

  datatype CheckpointState = Planned | Applying | Applied | RollingBack | RolledBack | Committed | Blocked

  /** One changed path with its exact images before and after the patch. */
  datatype Item = Item(path: Path, before: Option<Bytes>, after: Option<Bytes>)

  function Paths(items: seq<Item>): set<Path> {
    set i | 0 <= i < |items| :: items[i].path
  }

  /** What the checkpoint journal demands of path rows: distinct paths, each with a net change. */
  ghost predicate ValidItems(items: seq<Item>) {
    && (forall i, j :: 0 <= i < j < |items| ==> items[i].path != items[j].path)
    && (forall i :: 0 <= i < |items| ==> items[i].before != items[i].after)
  }

  /** The controlled paths whose bytes differ from HEAD, with those bytes: what the state hash covers. */
  type StateHash = map<Path, Option<Bytes>>

  /** Everything about the Git checkout that the state hash depends on besides the files. */
  datatype Checkout = Checkout(head: FileMap, ignored: set<Path>)

  /** `git ls-files -m -o --exclude-standard` lists `p`. */
  predicate Listed(git: Checkout, files: FileMap, p: Path) {
    if p in git.head then Get(files, p) != Some(git.head[p]) else p in files && p !in git.ignored
  }

  function ListedPaths(git: Checkout, files: FileMap): set<Path> {
    set p | p in git.head.Keys + files.Keys && Listed(git, files, p)
  }

  function ComputeStateHash(git: Checkout, files: FileMap): StateHash {
    map p | p in ListedPaths(git, files) :: Get(files, p)
  }

  /** The dictionary from planned path to its image after the patch. */
  function Overrides(items: seq<Item>): (r: map<Path, Option<Bytes>>)
    ensures r.Keys == Paths(items)
    ensures ValidItems(items) ==> forall i :: 0 <= i < |items| ==> r[items[i].path] == items[i].after
  {
    if items == [] then map[] else
      var init := items[..|items| - 1];
      var last := items[|items| - 1];
      assert Paths(items) == Paths(init) + {last.path};
      Overrides(init)[last.path := last.after]
  }

  /** The prediction overrides every planned path, whether Git would list it or not. */
  function PredictStateHash(git: Checkout, files: FileMap, items: seq<Item>): StateHash {
    map p | p in ListedPaths(git, files) + Paths(items) ::
      if p in Paths(items) then Overrides(items)[p] else Get(files, p)
  }

  /** The map that holds every item's after image and agrees with `files` elsewhere. */
  ghost predicate IsImage(image: FileMap, files: FileMap, items: seq<Item>) {
    && (forall i {:trigger Get(image, items[i].path)} :: 0 <= i < |items| ==> Get(image, items[i].path) == items[i].after)
    && (forall p {:trigger Get(image, p)} :: p !in Paths(items) ==> Get(image, p) == Get(files, p))
  }

  /** The checkpoint row; everything but `state` and `revisionAfter` is immutable. */
  datatype Checkpoint = Checkpoint(
    items: seq<Item>, state: CheckpointState,
    revisionBefore: nat, hashBefore: StateHash, hashAfter: StateHash, revisionAfter: Option<nat>)

  /** Same immutable identity. */
  predicate SameCheckpoint(a: Checkpoint, b: Checkpoint) {
    a.items == b.items && a.revisionBefore == b.revisionBefore
    && a.hashBefore == b.hashBefore && a.hashAfter == b.hashAfter
  }

  /** The row of a checkpoint once its patch is committed. */
  function CommittedRow(c: Checkpoint): Checkpoint {
    c.(state := Committed, revisionAfter := Some(c.revisionBefore + 1))
  }

  /** The states a checkpoint may come from when it enters a state by a transition. */
  function CheckpointPredecessors(to: CheckpointState): set<CheckpointState> {
    match to
    case Applying => {Planned}
    case Applied => {Applying}
    case RollingBack => {Planned, Applying, Applied}
    case RolledBack => {RollingBack}
    case Blocked => {Planned, Applying, Applied, RollingBack}
    case _ => {}
  }

  /** Paths on which the state hash can tell two file maps apart. */
  predicate Visible(git: Checkout, p: Path) {
    p in git.head || p !in git.ignored
  }

  /** The image leaves the path in a state that Git lists, so the recomputed hash covers it. */
  predicate LeavesTrace(git: Checkout, item: Item) {
    item.after != Get(git.head, item.path) && Visible(git, item.path)
  }

  /** Equal hashes mean equal files on every visible path. */
  lemma HashDeterminesFiles(git: Checkout, a: FileMap, b: FileMap, p: Path)
    requires ComputeStateHash(git, a) == ComputeStateHash(git, b)
    requires Visible(git, p)
    ensures Get(a, p) == Get(b, p)
  {
    var ha, hb := ComputeStateHash(git, a), ComputeStateHash(git, b);
    assert p in ha <==> p in hb;
    assert p in git.head.Keys + a.Keys && Listed(git, a, p) <==> p in ha;
    assert p in git.head.Keys + b.Keys && Listed(git, b, p) <==> p in hb;
  }

  /** The two file maps agree wherever the state hash can see. */
  ghost predicate AgreeVisible(git: Checkout, a: FileMap, b: FileMap) {
    forall p :: Visible(git, p) ==> Get(a, p) == Get(b, p)
  }

  /** Equal hashes mean exactly agreement on every visible path. */
  lemma HashAgrees(git: Checkout, a: FileMap, b: FileMap)
    ensures ComputeStateHash(git, a) == ComputeStateHash(git, b) <==> AgreeVisible(git, a, b)
  {
    if ComputeStateHash(git, a) == ComputeStateHash(git, b) {
      forall p | Visible(git, p) ensures Get(a, p) == Get(b, p) {
        HashDeterminesFiles(git, a, b, p);
      }
    }
    if AgreeVisible(git, a, b) {
      forall p ensures p in ListedPaths(git, a) <==> p in ListedPaths(git, b) {
        assert Visible(git, p) ==> Get(a, p) == Get(b, p);
      }
      assert ListedPaths(git, a) == ListedPaths(git, b);
      forall p | p in ListedPaths(git, a) ensures Get(a, p) == Get(b, p) {
        assert Visible(git, p);
      }
    }
  }

  /** The prediction made before the patch equals the hash computed after it
      exactly when every planned path ends in a state that Git lists. A patch that
      takes a path back to its HEAD content (or deletes an untracked file) never agrees. */
  lemma PredictionAgrees(git: Checkout, files: FileMap, items: seq<Item>, image: FileMap)
    requires ValidItems(items) && IsImage(image, files, items)
    ensures PredictStateHash(git, files, items) == ComputeStateHash(git, image)
       <==> forall i :: 0 <= i < |items| ==> LeavesTrace(git, items[i])
  {
    var predicted, actual := PredictStateHash(git, files, items), ComputeStateHash(git, image);
    forall i | 0 <= i < |items|
      ensures items[i].path in predicted
      ensures items[i].path in actual <==> LeavesTrace(git, items[i])
      ensures predicted[items[i].path] == items[i].after == Get(image, items[i].path)
    {
      assert items[i].path in Paths(items) && Get(image, items[i].path) == items[i].after;
    }
    forall p | p !in Paths(items)
      ensures p in predicted <==> p in actual
      ensures p in predicted ==> predicted[p] == actual[p]
    {
      assert Get(image, p) == Get(files, p);
      assert Listed(git, files, p) == Listed(git, image, p);
    }
    if forall i :: 0 <= i < |items| ==> LeavesTrace(git, items[i]) {
      forall p ensures p in predicted <==> p in actual
               ensures p in predicted ==> predicted[p] == actual[p]
      {
        if p in Paths(items) {
          var i :| 0 <= i < |items| && items[i].path == p;
        }
      }
      assert predicted == actual;
    } else {
      var i :| 0 <= i < |items| && !LeavesTrace(git, items[i]);
      assert items[i].path in predicted && items[i].path !in actual;
    }
  }

  /** When the prediction does match the hash of some files whose planned paths hold their
      after images, those files agree with the predicted map on every visible path. */
  lemma PredictionDeterminesFiles(git: Checkout, files: FileMap, items: seq<Item>, now: FileMap, p: Path)
    requires ValidItems(items)
    requires PredictStateHash(git, files, items) == ComputeStateHash(git, now)
    requires p !in Paths(items) && Visible(git, p)
    ensures Get(now, p) == Get(files, p)
  {
    var predicted, actual := PredictStateHash(git, files, items), ComputeStateHash(git, now);
    assert p in predicted <==> p in actual;
    assert p in ListedPaths(git, files) <==> p in predicted;
    assert p in ListedPaths(git, now) <==> p in actual;
  }

  /** A met prediction shows that every planned path left a trace. */
  lemma PredictionLeavesTrace(git: Checkout, files: FileMap, items: seq<Item>, now: FileMap)
    requires ValidItems(items) && PredictStateHash(git, files, items) == ComputeStateHash(git, now)
    ensures forall i :: 0 <= i < |items| ==> LeavesTrace(git, items[i])
  {
    var predicted, actual := PredictStateHash(git, files, items), ComputeStateHash(git, now);
    forall i | 0 <= i < |items| ensures LeavesTrace(git, items[i]) {
      var p := items[i].path;
      assert p in Paths(items) && p in predicted && predicted[p] == items[i].after;
      assert p in actual && Listed(git, now, p) && Get(now, p) == items[i].after;
    }
  }

  /** A concrete disagreement: deleting a file that HEAD does not have. The prediction lists the path
      as missing, Git lists nothing. */
  lemma DeletingUntrackedDisagrees()
    ensures var p := Path("a");
      PredictStateHash(Checkout(map[], {}), map[p := [1]], [Item(p, Some([1]), None)])
        != ComputeStateHash(Checkout(map[], {}), map[])
  {
    var p := Path("a");
    var git, files, items := Checkout(map[], {}), map[p := [1 as byte]], [Item(p, Some([1]), None)];
    assert items[0].path in Paths(items);
    assert IsImage(map[], files, items);
    assert !LeavesTrace(git, items[0]);
    PredictionAgrees(git, files, items, map[]);
  }
}
