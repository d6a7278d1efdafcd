/** Dependency queries: bounded breadth-first search and three-colour cycle detection. */
module Graph {
  import opened Base
  import opened Ordering

  datatype Edge = Edge(id: nat, ordinal: nat, source: Path, target: Path)
  type Arcs = set<(Path, Path)>

  /** There is a walk of exactly `k` arcs from `a` to `b`. */
  ghost predicate Walk(arcs: Arcs, a: Path, b: Path, k: nat)
    decreases k
  {
    if k == 0 then a == b else exists m :: (m, b) in arcs && Walk(arcs, a, m, k - 1)
  }

  lemma {:induction false} WalkCompose(arcs: Arcs, a: Path, b: Path, c: Path, i: nat, j: nat)
    requires Walk(arcs, a, b, i) && Walk(arcs, b, c, j)
    ensures Walk(arcs, a, c, i + j)
    decreases j
  {
    if j > 0 {
      var m :| (m, c) in arcs && Walk(arcs, b, m, j - 1);
      WalkCompose(arcs, a, b, m, i, j - 1);
    }
  }

  /** `d` is the length of a shortest walk from `a` to `b`. */
  ghost predicate Distance(arcs: Arcs, a: Path, b: Path, d: nat) {
    Walk(arcs, a, b, d) && forall j: nat :: j < d ==> !Walk(arcs, a, b, j)
  }

  // ----- Bounded breadth-first search -----

  datatype Direction = Incoming | Outgoing

  function From(e: Edge, dir: Direction): Path { if dir.Outgoing? then e.source else e.target }
  function To(e: Edge, dir: Direction): Path { if dir.Outgoing? then e.target else e.source }

  ghost function ArcsOf(edges: seq<Edge>, dir: Direction): Arcs {
    set e | e in edges :: (From(e, dir), To(e, dir))
  }

  /** The node depths, the queue and the truncation flag of the running search. */
  datatype Frontier = Frontier(visited: map<Path, nat>, queue: seq<(Path, nat)>, truncated: bool)

  /** What looking at one neighbour does. */
  function Enter(f: Frontier, n: Path, d: nat, limit: nat): Frontier {
    if n in f.visited then f
    else if |f.visited| >= limit then f.(truncated := true)
    else f.(visited := f.visited[n := d], queue := f.queue + [(n, d)])
  }

  function EnterAll(f: Frontier, cands: seq<Edge>, dir: Direction, d: nat, limit: nat): Frontier {
    if cands == [] then f
    else Enter(EnterAll(f, cands[..|cands| - 1], dir, d, limit), To(cands[|cands| - 1], dir), d, limit)
  }

  predicate EdgeLe(a: Edge, b: Edge) {
    a.ordinal < b.ordinal || (a.ordinal == b.ordinal && a.id <= b.id)
  }

  function OutOf(edges: seq<Edge>, dir: Direction, c: Path): seq<Edge> {
    if edges == [] then []
    else (if From(edges[0], dir) == c then [edges[0]] else []) + OutOf(edges[1..], dir, c)
  }

  /** The edges out of a node, in ordinal and id order. */
  function Candidates(edges: seq<Edge>, dir: Direction, c: Path): seq<Edge> {
    Sort(EdgeLe, OutOf(edges, dir, c))
  }

  function Leading(cands: seq<Edge>, dir: Direction, visited: map<Path, nat>): set<Edge> {
    set e | e in cands && To(e, dir) in visited
  }

  /** One turn of the search: dequeue a node and, above the depth bound, follow its edges. */
  function Turn(edges: seq<Edge>, dir: Direction, depth: nat, limit: nat, f: Frontier, selected: set<Edge>)
    : (r: (Frontier, set<Edge>))
    requires f.queue != []
  {
    if f.queue[0].1 >= depth then (Pop(f), selected)
    else
      var g := Followings(edges, dir, limit, f);
      (g, selected + Leading(Candidates(edges, dir, f.queue[0].0), dir, g.visited))
  }

  function Pop(f: Frontier): Frontier
    requires f.queue != []
  {
    f.(queue := f.queue[1..])
  }

  /** The frontier after the edges of the front node are followed. */
  function Followings(edges: seq<Edge>, dir: Direction, limit: nat, f: Frontier): Frontier
    requires f.queue != []
  {
    EnterAll(Pop(f), Candidates(edges, dir, f.queue[0].0), dir, f.queue[0].1 + 1, limit)
  }

  lemma {:induction false} EnterAllGrows(f: Frontier, cands: seq<Edge>, dir: Direction, d: nat, limit: nat)
    requires |f.visited| <= limit && (f.truncated ==> |f.visited| == limit)
    ensures var g := EnterAll(f, cands, dir, d, limit);
      && |g.visited| <= limit && (g.truncated ==> |g.visited| == limit)
      && (forall p :: p in f.visited ==> p in g.visited && g.visited[p] == f.visited[p])
      && |f.visited| <= |g.visited|
      && (|f.visited| == |g.visited| ==> g.visited == f.visited && g.queue == f.queue)
      && (f.truncated ==> g.truncated && g.visited == f.visited)
      && (forall e :: e in cands ==> To(e, dir) in g.visited || g.truncated)
  {
    if cands != [] {
      var init, last := cands[..|cands| - 1], cands[|cands| - 1];
      EnterAllGrows(f, init, dir, d, limit);
      assert cands == init + [last];
    }
  }

  /** The search loop as a recursion. */
  function Explore(edges: seq<Edge>, dir: Direction, depth: nat, limit: nat, f: Frontier, selected: set<Edge>)
    : (Frontier, set<Edge>)
    requires |f.visited| <= limit && (f.truncated ==> |f.visited| == limit)
    decreases limit - |f.visited|, |f.queue|
  {
    if f.queue == [] then (f, selected)
    else
      EnterAllGrows(Pop(f), Candidates(edges, dir, f.queue[0].0), dir, f.queue[0].1 + 1, limit);
      var next := Turn(edges, dir, depth, limit, f, selected);
      Explore(edges, dir, depth, limit, next.0, next.1)
  }

  /** The edges among the first `i` that were chosen lead to known nodes; the others were cut off. */
  ghost predicate Chosen(cands: seq<Edge>, i: nat, dir: Direction, f: Frontier, chosen: set<Edge>)
    requires i <= |cands|
  {
    && (forall e :: e in chosen ==> exists k :: 0 <= k < i && cands[k] == e)
    && (forall k :: 0 <= k < i ==> if To(cands[k], dir) in f.visited then cands[k] in chosen else f.truncated)
    && (forall e :: e in chosen ==> To(e, dir) in f.visited)
  }

  lemma ChosenAll(cands: seq<Edge>, dir: Direction, f: Frontier, chosen: set<Edge>)
    requires Chosen(cands, |cands|, dir, f, chosen)
    ensures chosen == Leading(cands, dir, f.visited)
  {
    forall e ensures e in chosen <==> e in Leading(cands, dir, f.visited) {
      if e in cands {
        var k :| 0 <= k < |cands| && cands[k] == e;
      }
    }
  }

  lemma ChosenNext(cands: seq<Edge>, i: nat, dir: Direction, f: Frontier, g: Frontier, d: nat, limit: nat,
                   chosen: set<Edge>, picked: set<Edge>)
    requires i < |cands| && Chosen(cands, i, dir, f, chosen)
    requires |f.visited| <= limit && (f.truncated ==> |f.visited| == limit)
    requires g == Enter(f, To(cands[i], dir), d, limit)
    requires picked == if To(cands[i], dir) in g.visited then chosen + {cands[i]} else chosen
    ensures Chosen(cands, i + 1, dir, g, picked)
  {
  }

  /** Follows the edges out of one node, recording those that lead to a known node. */
  method Expand(cands: seq<Edge>, dir: Direction, limit: nat, start: Frontier, d: nat)
    returns (f: Frontier, chosen: set<Edge>)
    requires |start.visited| <= limit && (start.truncated ==> |start.visited| == limit)
    ensures f == EnterAll(start, cands, dir, d, limit) && chosen == Leading(cands, dir, f.visited)
  {
    f, chosen := start, {};
    for i := 0 to |cands|
      invariant f == EnterAll(start, cands[..i], dir, d, limit)
      invariant |f.visited| <= limit && (f.truncated ==> |f.visited| == limit)
      invariant Chosen(cands, i, dir, f, chosen)
    {
      assert cands[..i + 1][..i] == cands[..i];
      ghost var here, before := f, chosen;
      var n := To(cands[i], dir);
      if n in f.visited {
        chosen := chosen + {cands[i]};
      } else if |f.visited| >= limit {
        f := f.(truncated := true);
      } else {
        chosen := chosen + {cands[i]};
        f := f.(visited := f.visited[n := d], queue := f.queue + [(n, d)]);
      }
      ChosenNext(cands, i, dir, here, f, d, limit, before, chosen);
    }
    assert cands[..|cands|] == cands;
    ChosenAll(cands, dir, f, chosen);
  }

  // ----- Why the search is exact -----

  /** All (node, length) pairs for which a walk from the root exists. */
  type Walks = iset<(Path, nat)>

  ghost function WalksFrom(arcs: Arcs, root: Path): Walks {
    iset p: Path, k: nat | Walk(arcs, root, p, k) :: (p, k)
  }

  ghost predicate Nearest(walks: Walks, p: Path, d: nat) {
    (p, d) in walks && forall j: nat :: j < d ==> (p, j) !in walks
  }

  /** Exact depths within the bounds, and a missing node once something was cut off. */
  ghost predicate Known(walks: Walks, depth: nat, limit: nat, f: Frontier) {
    && |f.visited| <= limit && (f.truncated ==> |f.visited| == limit)
    && (forall p :: p in f.visited ==> Nearest(walks, p, f.visited[p]) && f.visited[p] <= depth)
    && (f.truncated ==> exists m, k: nat :: k <= depth && m !in f.visited && (m, k) in walks)
  }

  /** Every arc out of `p` has been followed, as far as the node limit allowed. */
  ghost predicate Followed(arcs: Arcs, f: Frontier, p: Path)
    requires p in f.visited
  {
    forall n :: (p, n) in arcs ==> (n in f.visited && f.visited[n] <= f.visited[p] + 1) || (f.truncated && n !in f.visited)
  }

  ghost predicate Closed(arcs: Arcs, depth: nat, f: Frontier, done: set<Path>) {
    done <= f.visited.Keys && forall p :: p in done && f.visited[p] < depth ==> Followed(arcs, f, p)
  }

  /** While nothing was cut off, everything within `d` steps is known,
      if every known node closer than `d` is finished. */
  lemma {:induction false} KnownWithin(arcs: Arcs, root: Path, depth: nat, limit: nat, f: Frontier,
                                       done: set<Path>, d: nat, x: Path, j: nat)
    requires Known(WalksFrom(arcs, root), depth, limit, f) && Closed(arcs, depth, f, done) && !f.truncated
    requires root in f.visited && f.visited[root] == 0
    requires d <= depth && forall p :: p in f.visited && f.visited[p] < d ==> p in done
    requires j <= d && Walk(arcs, root, x, j)
    ensures x in f.visited && f.visited[x] <= j
    decreases j
  {
    if j > 0 {
      var m :| (m, x) in arcs && Walk(arcs, root, m, j - 1);
      KnownWithin(arcs, root, depth, limit, f, done, d, m, j - 1);
      assert Followed(arcs, f, m);
    }
  }

  /** A new node next to a node of the current layer really is one step further out. */
  lemma NewNodeNearest(arcs: Arcs, root: Path, depth: nat, limit: nat, f: Frontier, done: set<Path>, c: Path, n: Path)
    requires Known(WalksFrom(arcs, root), depth, limit, f) && Closed(arcs, depth, f, done) && !f.truncated
    requires root in f.visited && f.visited[root] == 0
    requires c in f.visited && f.visited[c] < depth && (c, n) in arcs && n !in f.visited
    requires forall p :: p in f.visited && f.visited[p] < f.visited[c] ==> p in done
    ensures Nearest(WalksFrom(arcs, root), n, f.visited[c] + 1)
  {
    var walks := WalksFrom(arcs, root);
    assert (c, f.visited[c]) in walks;
    assert Walk(arcs, root, n, f.visited[c] + 1);
    forall j: nat | j < f.visited[c] + 1 ensures (n, j) !in walks {
      if (n, j) in walks {
        KnownWithin(arcs, root, depth, limit, f, done, f.visited[c], n, j);
        assert false;
      }
    }
  }

  /** What expansion of a node of layer `d` keeps. */
  ghost predicate Expanding(arcs: Arcs, root: Path, depth: nat, limit: nat, f: Frontier, done: set<Path>, c: Path) {
    && Known(WalksFrom(arcs, root), depth, limit, f) && Closed(arcs, depth, f, done)
    && root in f.visited && f.visited[root] == 0
    && c in f.visited && f.visited[c] < depth
    && (forall p :: p in f.visited && f.visited[p] < f.visited[c] ==> p in done)
  }

  lemma EnterKnown(walks: Walks, depth: nat, limit: nat, f: Frontier, d: nat, n: Path)
    requires Known(walks, depth, limit, f) && d + 1 <= depth && (n, d + 1) in walks
    requires n !in f.visited && |f.visited| < limit ==> Nearest(walks, n, d + 1)
    ensures Known(walks, depth, limit, Enter(f, n, d + 1, limit))
  {
  }

  lemma EnterClosed(arcs: Arcs, depth: nat, limit: nat, f: Frontier, done: set<Path>, d: nat, n: Path)
    requires Closed(arcs, depth, f, done) && (f.truncated ==> |f.visited| >= limit)
    ensures Closed(arcs, depth, Enter(f, n, d + 1, limit), done)
  {
    var g := Enter(f, n, d + 1, limit);
    forall p | p in done && g.visited[p] < depth ensures Followed(arcs, g, p) {
      assert Followed(arcs, f, p);
    }
  }

  lemma EnterKeeps(arcs: Arcs, root: Path, depth: nat, limit: nat, f: Frontier, done: set<Path>, c: Path, d: nat, n: Path)
    requires Expanding(arcs, root, depth, limit, f, done, c) && (c, n) in arcs && f.visited[c] == d
    ensures Expanding(arcs, root, depth, limit, Enter(f, n, d + 1, limit), done, c)
    ensures Enter(f, n, d + 1, limit).visited[c] == d
  {
    var walks := WalksFrom(arcs, root);
    assert (n, d + 1) in walks by {
      assert Nearest(walks, c, d) && (c, d) in walks;
      assert Walk(arcs, root, n, d + 1);
    }
    if n !in f.visited && |f.visited| < limit {
      NewNodeNearest(arcs, root, depth, limit, f, done, c, n);
    }
    EnterKnown(walks, depth, limit, f, d, n);
    EnterClosed(arcs, depth, limit, f, done, d, n);
  }

  lemma {:induction false} EnterAllKeeps(arcs: Arcs, root: Path, depth: nat, limit: nat, f: Frontier, done: set<Path>,
                                         c: Path, d: nat, cands: seq<Edge>, dir: Direction)
    requires Expanding(arcs, root, depth, limit, f, done, c) && f.visited[c] == d
    requires forall k :: 0 <= k < |cands| ==> (c, To(cands[k], dir)) in arcs
    ensures Expanding(arcs, root, depth, limit, EnterAll(f, cands, dir, d + 1, limit), done, c)
    ensures EnterAll(f, cands, dir, d + 1, limit).visited[c] == d
    decreases |cands|
  {
    if cands != [] {
      var init, last := cands[..|cands| - 1], cands[|cands| - 1];
      assert (c, To(last, dir)) in arcs;
      assert forall k :: 0 <= k < |init| ==> init[k] == cands[k];
      EnterAllKeeps(arcs, root, depth, limit, f, done, c, d, init, dir);
      EnterKeeps(arcs, root, depth, limit, EnterAll(f, init, dir, d + 1, limit), done, c, d, To(last, dir));
    }
  }

  // ----- The queue: layers in order -----

  /** The queue holds the unfinished nodes of layers `d` and `d + 1`, in layer order. */
  ghost predicate Queued(f: Frontier, done: set<Path>, d: nat) {
    && (forall p :: p in f.visited && p !in done ==> exists i :: 0 <= i < |f.queue| && f.queue[i].0 == p)
    && (forall i :: 0 <= i < |f.queue| ==>
          f.queue[i].0 in f.visited && f.queue[i].1 == f.visited[f.queue[i].0] && d <= f.queue[i].1 <= d + 1)
    && (forall i, j :: 0 <= i < j < |f.queue| ==> f.queue[i].1 <= f.queue[j].1)
  }

  lemma EnterQueued(f: Frontier, done: set<Path>, d: nat, n: Path, limit: nat)
    requires Queued(f, done, d)
    ensures Queued(Enter(f, n, d + 1, limit), done, d)
  {
    var g := Enter(f, n, d + 1, limit);
    forall p | p in g.visited && p !in done ensures exists i :: 0 <= i < |g.queue| && g.queue[i].0 == p {
      if p in f.visited {
        var i :| 0 <= i < |f.queue| && f.queue[i].0 == p;
        assert g.queue[i].0 == p;
      } else {
        assert g.queue[|f.queue|].0 == p;
      }
    }
  }

  lemma {:induction false} EnterAllQueued(f: Frontier, done: set<Path>, d: nat, cands: seq<Edge>, dir: Direction, limit: nat)
    requires Queued(f, done, d)
    ensures Queued(EnterAll(f, cands, dir, d + 1, limit), done, d)
  {
    if cands != [] {
      EnterAllQueued(f, done, d, cands[..|cands| - 1], dir, limit);
      EnterQueued(EnterAll(f, cands[..|cands| - 1], dir, d + 1, limit), done, d, To(cands[|cands| - 1], dir), limit);
    }
  }

  lemma DequeueQueued(f: Frontier, done: set<Path>, d: nat)
    requires f.queue != [] && Queued(f, done, d)
    ensures Queued(f.(queue := f.queue[1..]), done + {f.queue[0].0}, d)
  {
    var rest := f.queue[1..];
    forall p | p in f.visited && p !in done + {f.queue[0].0} ensures exists i :: 0 <= i < |rest| && rest[i].0 == p {
      var i :| 0 <= i < |f.queue| && f.queue[i].0 == p;
      assert rest[i - 1].0 == p;
    }
  }

  /** The loop's queue condition: the front layer is the closest unfinished one. */
  ghost predicate Fronted(f: Frontier, done: set<Path>) {
    && (f.queue != [] ==>
          Queued(f, done, f.queue[0].1) && forall p :: p in f.visited && f.visited[p] < f.queue[0].1 ==> p in done)
    && (f.queue == [] ==> f.visited.Keys == done)
  }

  lemma NextLayer(f: Frontier, done: set<Path>, d: nat)
    requires Queued(f, done, d) && done <= f.visited.Keys
    requires forall p :: p in f.visited && f.visited[p] < d ==> p in done
    ensures Fronted(f, done)
  {
  }

  // ----- One turn, then the whole search -----

  /** The reported edges: out of finished nodes above the depth bound, into known nodes. */
  ghost predicate Reported(edges: seq<Edge>, dir: Direction, depth: nat, f: Frontier, done: set<Path>, selected: set<Edge>) {
    forall e :: e in selected <==>
      && e in edges && From(e, dir) in done && From(e, dir) in f.visited && f.visited[From(e, dir)] < depth
      && To(e, dir) in f.visited
  }

  lemma {:induction false} OutOfMeans(edges: seq<Edge>, dir: Direction, c: Path, e: Edge)
    ensures e in OutOf(edges, dir, c) <==> e in edges && From(e, dir) == c
  {
    if edges != [] {
      OutOfMeans(edges[1..], dir, c, e);
      assert edges == [edges[0]] + edges[1..];
    }
  }

  lemma CandidatesMeans(edges: seq<Edge>, dir: Direction, c: Path)
    ensures forall e :: e in Candidates(edges, dir, c) <==> e in edges && From(e, dir) == c
  {
    var out := OutOf(edges, dir, c);
    SortCorrect(EdgeLe, out);
    forall e ensures e in Candidates(edges, dir, c) <==> e in edges && From(e, dir) == c {
      OutOfMeans(edges, dir, c, e);
      assert e in Sort(EdgeLe, out) <==> e in multiset(Sort(EdgeLe, out));
      assert e in out <==> e in multiset(out);
    }
  }

  lemma ReportedAfter(edges: seq<Edge>, dir: Direction, depth: nat, limit: nat, f: Frontier, g: Frontier,
                      done: set<Path>, c: Path, selected: set<Edge>)
    requires Closed(ArcsOf(edges, dir), depth, f, done) && Reported(edges, dir, depth, f, done, selected)
    requires forall p :: p in f.visited ==> p in g.visited && g.visited[p] == f.visited[p]
    requires f.truncated ==> g.visited == f.visited
    requires c in f.visited && f.visited[c] < depth
    ensures Reported(edges, dir, depth, g, done + {c}, selected + Leading(Candidates(edges, dir, c), dir, g.visited))
  {
    CandidatesMeans(edges, dir, c);
    var more := selected + Leading(Candidates(edges, dir, c), dir, g.visited);
    forall e ensures e in more <==>
      && e in edges && From(e, dir) in done + {c} && From(e, dir) in g.visited && g.visited[From(e, dir)] < depth
      && To(e, dir) in g.visited
    {
      var p := From(e, dir);
      if e in edges && p in done && p != c && f.visited[p] < depth {
        assert Followed(ArcsOf(edges, dir), f, p);
        assert (p, To(e, dir)) in ArcsOf(edges, dir);
      }
    }
  }

  /** After its edges are followed, the node itself counts as followed. */
  lemma ExpandedFollowed(edges: seq<Edge>, dir: Direction, root: Path, depth: nat, limit: nat, f: Frontier, done: set<Path>, c: Path)
    requires Expanding(ArcsOf(edges, dir), root, depth, limit, f, done, c)
    requires forall e :: e in edges && From(e, dir) == c ==> To(e, dir) in f.visited || f.truncated
    ensures Closed(ArcsOf(edges, dir), depth, f, done + {c})
  {
    var arcs, walks := ArcsOf(edges, dir), WalksFrom(ArcsOf(edges, dir), root);
    forall m | (c, m) in arcs
      ensures (m in f.visited && f.visited[m] <= f.visited[c] + 1) || (f.truncated && m !in f.visited)
    {
      var e :| e in edges && (From(e, dir), To(e, dir)) == (c, m);
      if m in f.visited {
        assert Nearest(walks, c, f.visited[c]) && (c, f.visited[c]) in walks;
        assert Walk(arcs, root, m, f.visited[c] + 1);
        assert (m, f.visited[c] + 1) in walks && Nearest(walks, m, f.visited[m]);
      }
    }
  }

  ghost predicate Searching(edges: seq<Edge>, dir: Direction, root: Path, depth: nat, limit: nat, f: Frontier,
                            done: set<Path>, selected: set<Edge>) {
    && Known(WalksFrom(ArcsOf(edges, dir), root), depth, limit, f)
    && Closed(ArcsOf(edges, dir), depth, f, done)
    && root in f.visited && f.visited[root] == 0
    && Fronted(f, done)
    && Reported(edges, dir, depth, f, done, selected)
  }

  lemma PoppedExpanding(arcs: Arcs, root: Path, depth: nat, limit: nat, f: Frontier, done: set<Path>)
    requires f.queue != [] && f.queue[0].1 < depth
    requires Known(WalksFrom(arcs, root), depth, limit, f) && Closed(arcs, depth, f, done) && Fronted(f, done)
    requires root in f.visited && f.visited[root] == 0
    ensures Expanding(arcs, root, depth, limit, Pop(f), done, f.queue[0].0)
    ensures f.visited[f.queue[0].0] == f.queue[0].1
  {
    var popped := Pop(f);
    forall p | p in done && popped.visited[p] < depth ensures Followed(arcs, popped, p) {
      assert Followed(arcs, f, p);
    }
  }

  lemma CutTurn(edges: seq<Edge>, dir: Direction, root: Path, depth: nat, limit: nat, f: Frontier,
                done: set<Path>, selected: set<Edge>)
    requires f.queue != [] && f.queue[0].1 >= depth
    requires Searching(edges, dir, root, depth, limit, f, done, selected)
    ensures Searching(edges, dir, root, depth, limit, Pop(f), done + {f.queue[0].0}, selected)
  {
    var popped, d := Pop(f), f.queue[0].1;
    forall p | p in done + {f.queue[0].0} && popped.visited[p] < depth ensures Followed(ArcsOf(edges, dir), popped, p) {
      assert Followed(ArcsOf(edges, dir), f, p);
    }
    DequeueQueued(f, done, d);
    NextLayer(popped, done + {f.queue[0].0}, d);
  }

  lemma CandidatesAreArcs(edges: seq<Edge>, dir: Direction, c: Path)
    ensures forall k :: 0 <= k < |Candidates(edges, dir, c)| ==>
      (c, To(Candidates(edges, dir, c)[k], dir)) in ArcsOf(edges, dir)
  {
    var cands := Candidates(edges, dir, c);
    CandidatesMeans(edges, dir, c);
    forall k | 0 <= k < |cands| ensures (c, To(cands[k], dir)) in ArcsOf(edges, dir) {
      assert cands[k] in cands;
      assert cands[k] in edges && From(cands[k], dir) == c;
    }
  }

  lemma CandidatesKeep(edges: seq<Edge>, dir: Direction, arcs: Arcs, root: Path, depth: nat, limit: nat, f: Frontier,
                       done: set<Path>, c: Path, d: nat, cands: seq<Edge>)
    requires arcs == ArcsOf(edges, dir) && cands == Candidates(edges, dir, c)
    requires Expanding(arcs, root, depth, limit, f, done, c) && f.visited[c] == d
    ensures Expanding(arcs, root, depth, limit, EnterAll(f, cands, dir, d + 1, limit), done, c)
    ensures EnterAll(f, cands, dir, d + 1, limit).visited[c] == d
  {
    CandidatesAreArcs(edges, dir, c);
    EnterAllKeeps(arcs, root, depth, limit, f, done, c, d, cands, dir);
  }

  lemma FollowKeepsAt(edges: seq<Edge>, dir: Direction, arcs: Arcs, root: Path, depth: nat, limit: nat, f: Frontier,
                      done: set<Path>, c: Path, d: nat, cands: seq<Edge>)
    requires f.queue != [] && f.queue[0] == (c, d) && d < depth && arcs == ArcsOf(edges, dir) && cands == Candidates(edges, dir, c)
    requires Known(WalksFrom(arcs, root), depth, limit, f) && Closed(arcs, depth, f, done)
    requires root in f.visited && f.visited[root] == 0 && Fronted(f, done)
    ensures Expanding(arcs, root, depth, limit, EnterAll(Pop(f), cands, dir, d + 1, limit), done, c)
    ensures EnterAll(Pop(f), cands, dir, d + 1, limit).visited[c] == d
  {
    PoppedExpanding(arcs, root, depth, limit, f, done);
    CandidatesKeep(edges, dir, arcs, root, depth, limit, Pop(f), done, c, d, cands);
  }

  lemma FollowingsAre(edges: seq<Edge>, dir: Direction, limit: nat, f: Frontier, c: Path, d: nat)
    requires f.queue != [] && f.queue[0] == (c, d)
    ensures Followings(edges, dir, limit, f) == EnterAll(Pop(f), Candidates(edges, dir, c), dir, d + 1, limit)
  {
  }

  /** Following the front node keeps depths, layers and closure. */
  lemma FollowKeeps(edges: seq<Edge>, dir: Direction, arcs: Arcs, root: Path, depth: nat, limit: nat, f: Frontier,
                    done: set<Path>, c: Path, d: nat, g: Frontier)
    requires f.queue != [] && f.queue[0] == (c, d) && d < depth && arcs == ArcsOf(edges, dir)
    requires g == Followings(edges, dir, limit, f)
    requires Known(WalksFrom(arcs, root), depth, limit, f) && Closed(arcs, depth, f, done)
    requires root in f.visited && f.visited[root] == 0 && Fronted(f, done)
    ensures Expanding(arcs, root, depth, limit, g, done, c) && g.visited[c] == d
  {
    FollowKeepsAt(edges, dir, arcs, root, depth, limit, f, done, c, d, Candidates(edges, dir, c));
    FollowingsAre(edges, dir, limit, f, c, d);
  }

  lemma FollowClosed(edges: seq<Edge>, dir: Direction, root: Path, depth: nat, limit: nat, f: Frontier,
                     done: set<Path>, g: Frontier)
    requires f.queue != [] && g == Followings(edges, dir, limit, f)
    requires |f.visited| <= limit && (f.truncated ==> |f.visited| == limit)
    requires Expanding(ArcsOf(edges, dir), root, depth, limit, g, done, f.queue[0].0)
    ensures Closed(ArcsOf(edges, dir), depth, g, done + {f.queue[0].0})
  {
    var c := f.queue[0].0;
    CandidatesMeans(edges, dir, c);
    EnterAllGrows(Pop(f), Candidates(edges, dir, c), dir, f.queue[0].1 + 1, limit);
    ExpandedFollowed(edges, dir, root, depth, limit, g, done, c);
  }

  lemma FollowReported(edges: seq<Edge>, dir: Direction, depth: nat, limit: nat, f: Frontier,
                       done: set<Path>, g: Frontier, selected: set<Edge>)
    requires f.queue != [] && f.queue[0].1 < depth && g == Followings(edges, dir, limit, f)
    requires |f.visited| <= limit && (f.truncated ==> |f.visited| == limit)
    requires f.queue[0].0 in f.visited && f.visited[f.queue[0].0] == f.queue[0].1
    requires Closed(ArcsOf(edges, dir), depth, f, done) && Reported(edges, dir, depth, f, done, selected)
    ensures Reported(edges, dir, depth, g, done + {f.queue[0].0}, Turn(edges, dir, depth, limit, f, selected).1)
  {
    EnterAllGrows(Pop(f), Candidates(edges, dir, f.queue[0].0), dir, f.queue[0].1 + 1, limit);
    ReportedAfter(edges, dir, depth, limit, f, g, done, f.queue[0].0, selected);
  }

  lemma FollowFronted(edges: seq<Edge>, dir: Direction, limit: nat, f: Frontier, done: set<Path>, g: Frontier)
    requires f.queue != [] && g == Followings(edges, dir, limit, f) && Fronted(f, done)
    requires done + {f.queue[0].0} <= g.visited.Keys
    requires forall p :: p in g.visited && g.visited[p] < f.queue[0].1 ==> p in done
    ensures Fronted(g, done + {f.queue[0].0})
  {
    var c, d := f.queue[0].0, f.queue[0].1;
    DequeueQueued(f, done, d);
    EnterAllQueued(Pop(f), done + {c}, d, Candidates(edges, dir, c), dir, limit);
    NextLayer(g, done + {c}, d);
  }

  lemma TurnKeeps(edges: seq<Edge>, dir: Direction, root: Path, depth: nat, limit: nat, f: Frontier,
                  done: set<Path>, selected: set<Edge>)
    requires f.queue != [] && Searching(edges, dir, root, depth, limit, f, done, selected)
    ensures Searching(edges, dir, root, depth, limit, Turn(edges, dir, depth, limit, f, selected).0,
                      done + {f.queue[0].0}, Turn(edges, dir, depth, limit, f, selected).1)
  {
    if f.queue[0].1 >= depth {
      CutTurn(edges, dir, root, depth, limit, f, done, selected);
    } else {
      var g := Followings(edges, dir, limit, f);
      FollowKeeps(edges, dir, ArcsOf(edges, dir), root, depth, limit, f, done, f.queue[0].0, f.queue[0].1, g);
      FollowClosed(edges, dir, root, depth, limit, f, done, g);
      FollowReported(edges, dir, depth, limit, f, done, g, selected);
      FollowFronted(edges, dir, limit, f, done, g);
    }
  }

  /** What the finished search returns. */
  ghost predicate Exact(edges: seq<Edge>, dir: Direction, root: Path, depth: nat, limit: nat, f: Frontier, selected: set<Edge>) {
    && |f.visited| <= limit
    && (forall p :: p in f.visited ==> Distance(ArcsOf(edges, dir), root, p, f.visited[p]) && f.visited[p] <= depth)
    && (f.truncated <==> exists p, k: nat :: k <= depth && p !in f.visited && Walk(ArcsOf(edges, dir), root, p, k))
    && (forall e :: e in selected <==>
          e in edges && From(e, dir) in f.visited && f.visited[From(e, dir)] < depth && To(e, dir) in f.visited)
  }

  lemma FinishedExact(edges: seq<Edge>, dir: Direction, root: Path, depth: nat, limit: nat, f: Frontier,
                      done: set<Path>, selected: set<Edge>)
    requires f.queue == [] && Searching(edges, dir, root, depth, limit, f, done, selected)
    ensures Exact(edges, dir, root, depth, limit, f, selected)
  {
    var arcs, walks := ArcsOf(edges, dir), WalksFrom(ArcsOf(edges, dir), root);
    forall p | p in f.visited ensures Distance(arcs, root, p, f.visited[p]) {
      assert Nearest(walks, p, f.visited[p]);
      forall j: nat | j < f.visited[p] ensures !Walk(arcs, root, p, j) {
        assert (p, j) !in walks;
      }
    }
    if f.truncated {
      var m, k: nat :| k <= depth && m !in f.visited && (m, k) in walks;
      assert Walk(arcs, root, m, k);
    } else {
      forall p, k: nat | k <= depth && Walk(arcs, root, p, k) ensures p in f.visited {
        KnownWithin(arcs, root, depth, limit, f, done, depth, p, k);
      }
    }
  }

  /** Each turn finds a node or shortens the queue, and the search goes on from there. */
  lemma TurnProgress(edges: seq<Edge>, dir: Direction, depth: nat, limit: nat, f: Frontier, selected: set<Edge>)
    requires |f.visited| <= limit && (f.truncated ==> |f.visited| == limit) && f.queue != []
    ensures var next := Turn(edges, dir, depth, limit, f, selected);
      && |next.0.visited| <= limit && (next.0.truncated ==> |next.0.visited| == limit)
      && (|next.0.visited| > |f.visited| || (|next.0.visited| == |f.visited| && |next.0.queue| < |f.queue|))
      && Explore(edges, dir, depth, limit, f, selected) == Explore(edges, dir, depth, limit, next.0, next.1)
  {
    EnterAllGrows(Pop(f), Candidates(edges, dir, f.queue[0].0), dir, f.queue[0].1 + 1, limit);
  }

  lemma {:induction false} ExploreExact(edges: seq<Edge>, dir: Direction, root: Path, depth: nat, limit: nat, f: Frontier,
                                        done: set<Path>, selected: set<Edge>, r: (Frontier, set<Edge>))
    requires Searching(edges, dir, root, depth, limit, f, done, selected)
    requires r == Explore(edges, dir, depth, limit, f, selected)
    ensures Exact(edges, dir, root, depth, limit, r.0, r.1)
    decreases limit - |f.visited|, |f.queue|
  {
    if f.queue == [] {
      FinishedExact(edges, dir, root, depth, limit, f, done, selected);
    } else {
      TurnProgress(edges, dir, depth, limit, f, selected);
      TurnKeeps(edges, dir, root, depth, limit, f, done, selected);
      var next := Turn(edges, dir, depth, limit, f, selected);
      ExploreExact(edges, dir, root, depth, limit, next.0, done + {f.queue[0].0}, next.1, r);
    }
  }

  lemma StartSearching(edges: seq<Edge>, dir: Direction, root: Path, depth: nat, limit: nat)
    requires limit >= 1
    ensures Searching(edges, dir, root, depth, limit, Frontier(map[root := 0], [(root, 0)], false), {}, {})
  {
    var f := Frontier(map[root := 0], [(root, 0)], false);
    assert Walk(ArcsOf(edges, dir), root, root, 0);
    assert f.queue[0].0 == root;
  }

  function Start(root: Path): Frontier { Frontier(map[root := 0], [(root, 0)], false) }

  lemma SearchExact(edges: seq<Edge>, dir: Direction, root: Path, depth: nat, limit: nat, r: (Frontier, set<Edge>))
    requires limit >= 1 && r == Explore(edges, dir, depth, limit, Start(root), {})
    ensures Exact(edges, dir, root, depth, limit, r.0, r.1)
  {
    StartSearching(edges, dir, root, depth, limit);
    ExploreExact(edges, dir, root, depth, limit, Start(root), {}, {}, r);
  }

  /** One turn of the search loop. */
  method Step(edges: seq<Edge>, dir: Direction, depth: nat, limit: nat, start: Frontier, known: set<Edge>)
    returns (f: Frontier, selected: set<Edge>)
    requires |start.visited| <= limit && (start.truncated ==> |start.visited| == limit) && start.queue != []
    ensures (f, selected) == Turn(edges, dir, depth, limit, start, known)
  {
    var (current, currentDepth) := start.queue[0];
    f := start.(queue := start.queue[1..]);
    selected := known;
    if currentDepth < depth {
      var chosen: set<Edge>;
      f, chosen := Expand(Candidates(edges, dir, current), dir, limit, f, currentDepth + 1);
      selected := selected + chosen;
    }
  }

  method Search(edges: seq<Edge>, dir: Direction, depth: nat, limit: nat, start: Frontier)
    returns (f: Frontier, selected: set<Edge>)
    requires |start.visited| <= limit && (start.truncated ==> |start.visited| == limit)
    ensures (f, selected) == Explore(edges, dir, depth, limit, start, {})
  {
    f, selected := start, {};
    while f.queue != []
      invariant |f.visited| <= limit && (f.truncated ==> |f.visited| == limit)
      invariant Explore(edges, dir, depth, limit, start, {}) == Explore(edges, dir, depth, limit, f, selected)
      decreases limit - |f.visited|, |f.queue|
    {
      TurnProgress(edges, dir, depth, limit, f, selected);
      f, selected := Step(edges, dir, depth, limit, f, selected);
    }
  }

  /** The dependency query: depths are true distances even when the node limit is hit, the limit is
      respected, `truncated` says exactly that a node within the depth bound is missing, and the
      edges are exactly those between reported nodes above the depth bound. */
  method Dependencies(edges: seq<Edge>, dir: Direction, root: Path, depth: nat, limit: nat)
    returns (f: Frontier, selected: set<Edge>)
    requires limit >= 1
    ensures Exact(edges, dir, root, depth, limit, f, selected)
    ensures match dir
      case Outgoing =>
        && DistancesAlong((set e | e in edges :: (e.source, e.target)), root, depth, limit, f)
        && forall e :: e in selected <==>
             e in edges && e.source in f.visited && f.visited[e.source] < depth && e.target in f.visited
      case Incoming =>
        && DistancesAlong((set e | e in edges :: (e.target, e.source)), root, depth, limit, f)
        && forall e :: e in selected <==>
             e in edges && e.target in f.visited && f.visited[e.target] < depth && e.source in f.visited
  {
    f, selected := Search(edges, dir, depth, limit, Start(root));
    SearchExact(edges, dir, root, depth, limit, (f, selected));
    ArcsSpelled(edges, dir);
  }

  /** The nodes reported are those within reach along `arcs`, with their true distances, unless the limit cuts some off. */
  ghost predicate DistancesAlong(arcs: Arcs, root: Path, depth: nat, limit: nat, f: Frontier) {
    && |f.visited| <= limit
    && (forall p :: p in f.visited ==> Distance(arcs, root, p, f.visited[p]) && f.visited[p] <= depth)
    && (f.truncated <==> exists p, k: nat :: k <= depth && p !in f.visited && Walk(arcs, root, p, k))
  }

  /** Outgoing follows edges from source to target, incoming from target to source. */
  lemma ArcsSpelled(edges: seq<Edge>, dir: Direction)
    ensures ArcsOf(edges, dir) ==
      if dir.Outgoing? then set e | e in edges :: (e.source, e.target) else set e | e in edges :: (e.target, e.source)
  {
  }

  // ----- Three-colour cycle detection -----

  ghost predicate HasCycle(arcs: Arcs) {
    exists p, k: nat :: k > 0 && Walk(arcs, p, p, k)
  }

  function Nodes(arcs: Arcs): set<Path> {
    (set a | a in arcs :: a.0) + (set a | a in arcs :: a.1)
  }

  function Neighbours(arcs: Arcs, p: Path): set<Path> {
    set a | a in arcs && a.0 == p :: a.1
  }

  ghost predicate Chain(arcs: Arcs, trail: seq<Path>) {
    forall i :: 0 <= i < |trail| - 1 ==> (trail[i], trail[i + 1]) in arcs
  }

  lemma {:induction false} ChainWalk(arcs: Arcs, trail: seq<Path>, i: nat, j: nat)
    requires Chain(arcs, trail) && i <= j < |trail|
    ensures Walk(arcs, trail[i], trail[j], j - i)
    decreases j
  {
    if i < j {
      ChainWalk(arcs, trail, i, j - 1);
      assert (trail[j - 1], trail[j - 1 + 1]) in arcs;
    }
  }

  /** Every arc out of a finished node leads to a node that finished earlier. */
  ghost predicate Descends(arcs: Arcs, rank: map<Path, nat>) {
    forall p, q :: (p, q) in arcs && p in rank ==> q in rank && rank[q] < rank[p]
  }

  lemma {:induction false} WalkDescends(arcs: Arcs, rank: map<Path, nat>, a: Path, b: Path, k: nat)
    requires Descends(arcs, rank) && a in rank && Walk(arcs, a, b, k)
    ensures b in rank && rank[b] + k <= rank[a]
    decreases k
  {
    if k > 0 {
      var m :| (m, b) in arcs && Walk(arcs, a, m, k - 1);
      WalkDescends(arcs, rank, a, m, k - 1);
    }
  }

  lemma RankedAcyclic(arcs: Arcs, rank: map<Path, nat>)
    requires Descends(arcs, rank) && rank.Keys >= Nodes(arcs)
    ensures !HasCycle(arcs)
  {
    forall p, k: nat | k > 0 && Walk(arcs, p, p, k) ensures false {
      var m :| (m, p) in arcs && Walk(arcs, p, m, k - 1);
      assert (m, p).1 in Nodes(arcs);
      WalkDescends(arcs, rank, p, p, k);
    }
  }

  lemma Smaller<T>(all: set<T>, few: set<T>, more: set<T>)
    requires few <= more
    ensures |all - more| <= |all - few|
    ensures all * more - few != {} ==> |all - more| < |all - few|
  {
    assert all - few == (all - more) + (all * more - few);
  }

  /** A node is open while the search is below it and closed afterwards. */
  datatype Colour = Grey | Black

  /** The grey nodes are the trail, which follows arcs. */
  ghost predicate Trailing(arcs: Arcs, state: map<Path, Colour>, trail: seq<Path>) {
    && Chain(arcs, trail)
    && (forall i, j :: 0 <= i < j < |trail| ==> trail[i] != trail[j])
    && (forall i :: 0 <= i < |trail| ==> trail[i] in state && state[trail[i]].Grey?)
    && (forall p :: p in state && state[p].Grey? ==> exists i :: 0 <= i < |trail| && trail[i] == p)
  }

  /** The black nodes are ranked, and arcs out of them descend. */
  ghost predicate Ranked(arcs: Arcs, state: map<Path, Colour>, rank: map<Path, nat>, clock: nat) {
    && (forall p :: p in rank <==> p in state && state[p].Black?)
    && Descends(arcs, rank)
    && (forall p :: p in rank ==> rank[p] < clock)
  }

  ghost predicate Coloured(arcs: Arcs, state: map<Path, Colour>, trail: seq<Path>, rank: map<Path, nat>, clock: nat) {
    Trailing(arcs, state, trail) && Ranked(arcs, state, rank, clock)
  }

  ghost predicate Next(arcs: Arcs, trail: seq<Path>, node: Path) {
    node in Nodes(arcs) && (trail != [] ==> (trail[|trail| - 1], node) in arcs)
  }

  lemma MeetsTrail(arcs: Arcs, state: map<Path, Colour>, trail: seq<Path>, node: Path)
    requires Trailing(arcs, state, trail) && Next(arcs, trail, node) && node in state && state[node].Grey?
    ensures HasCycle(arcs)
  {
    var i :| 0 <= i < |trail| && trail[i] == node;
    ChainWalk(arcs, trail, i, |trail| - 1);
    assert Walk(arcs, node, node, |trail| - i);
  }

  lemma TrailGrows(arcs: Arcs, state: map<Path, Colour>, trail: seq<Path>, node: Path)
    requires Trailing(arcs, state, trail) && Next(arcs, trail, node) && node !in state
    ensures Trailing(arcs, state[node := Grey], trail + [node])
  {
    var now, full := state[node := Grey], trail + [node];
    assert full[|trail|] == node;
    forall p | p in now && now[p].Grey? ensures exists i :: 0 <= i < |full| && full[i] == p {
      if p != node {
        var i :| 0 <= i < |trail| && trail[i] == p;
        assert full[i] == p;
      }
    }
  }

  lemma TrailShrinks(arcs: Arcs, state: map<Path, Colour>, trail: seq<Path>, node: Path)
    requires Trailing(arcs, state, trail + [node])
    ensures Trailing(arcs, state[node := Black], trail) && node in state && state[node].Grey?
  {
    var now, full := state[node := Black], trail + [node];
    assert full[|trail|] == node && forall i :: 0 <= i < |trail| ==> full[i] == trail[i];
    forall i | 0 <= i < |trail| - 1 ensures (trail[i], trail[i + 1]) in arcs {
      assert (full[i], full[i + 1]) in arcs;
    }
    forall p | p in now && now[p].Grey? ensures exists i :: 0 <= i < |trail| && trail[i] == p {
      var i :| 0 <= i < |full| && full[i] == p;
      assert trail[i] == p;
    }
  }

  lemma FewerLeft(arcs: Arcs, state: map<Path, Colour>, node: Path)
    requires node in Nodes(arcs) && node !in state
    ensures |Nodes(arcs) - state[node := Grey].Keys| < |Nodes(arcs) - state.Keys|
  {
    assert node in Nodes(arcs) * state[node := Grey].Keys - state.Keys;
    Smaller(Nodes(arcs), state.Keys, state[node := Grey].Keys);
  }

  lemma RankGrows(arcs: Arcs, state: map<Path, Colour>, rank: map<Path, nat>, clock: nat, node: Path)
    requires Ranked(arcs, state, rank, clock) && Neighbours(arcs, node) <= rank.Keys
    requires node in state && state[node].Grey?
    ensures Ranked(arcs, state[node := Black], rank[node := clock], clock + 1)
  {
    forall q | (node, q) in arcs ensures q in rank && rank[q] < clock {
      assert (node, q).1 in Neighbours(arcs, node);
    }
  }

  lemma OpensNode(arcs: Arcs, state: map<Path, Colour>, trail: seq<Path>, rank: map<Path, nat>, clock: nat, node: Path)
    requires Coloured(arcs, state, trail, rank, clock) && Next(arcs, trail, node) && node !in state
    ensures Coloured(arcs, state[node := Grey], trail + [node], rank, clock)
    ensures |Nodes(arcs) - state[node := Grey].Keys| < |Nodes(arcs) - state.Keys|
  {
    TrailGrows(arcs, state, trail, node);
    FewerLeft(arcs, state, node);
  }

  lemma ClosesNode(arcs: Arcs, state: map<Path, Colour>, trail: seq<Path>, rank: map<Path, nat>, clock: nat, node: Path)
    requires Coloured(arcs, state, trail + [node], rank, clock) && Neighbours(arcs, node) <= rank.Keys
    ensures Coloured(arcs, state[node := Black], trail, rank[node := clock], clock + 1)
  {
    TrailShrinks(arcs, state, trail, node);
    RankGrows(arcs, state, rank, clock, node);
  }

  /** The depth-first search and its colour table. */
  class CycleFinder {
    const arcs: Arcs
    var state: map<Path, Colour>
    ghost var trail: seq<Path>        // the open nodes, outermost first
    ghost var rank: map<Path, nat>    // when each closed node was closed
    ghost var clock: nat

    ghost predicate Valid()
      reads this
    {
      Coloured(arcs, state, trail, rank, clock)
    }

    constructor (arcs: Arcs)
      ensures Valid() && this.arcs == arcs && trail == [] && state == map[]
    {
      this.arcs := arcs;
      state, trail, rank, clock := map[], [], map[], 0;
    }

    /** Visits a node below the open ones; without a finding it is closed and so is all below it. */
    method Visit(node: Path) returns (found: bool)
      requires Valid() && Next(arcs, trail, node)
      modifies this
      ensures found ==> HasCycle(arcs)
      ensures !found ==> Valid() && trail == old(trail) && node in rank && old(rank).Keys <= rank.Keys
      ensures old(state).Keys <= state.Keys
      decreases |Nodes(arcs) - state.Keys|, 0
    {
      if node in state {
        if state[node].Grey? {
          MeetsTrail(arcs, state, trail, node);
          return true;
        }
        return false;
      }
      Open(node);
      found := VisitAll(node);
      if !found {
        Close(node, old(trail));
      }
    }

    method Open(node: Path)
      requires Valid() && Next(arcs, trail, node) && node !in state
      modifies this
      ensures Valid() && state == old(state)[node := Grey] && trail == old(trail) + [node] && rank == old(rank)
      ensures |Nodes(arcs) - state.Keys| < old(|Nodes(arcs) - state.Keys|)
    {
      OpensNode(arcs, state, trail, rank, clock, node);
      state := state[node := Grey];
      trail := trail + [node];
    }

    method Close(node: Path, ghost rest: seq<Path>)
      requires Valid() && trail == rest + [node] && Neighbours(arcs, node) <= rank.Keys
      modifies this
      ensures Valid() && state == old(state)[node := Black] && trail == rest
      ensures rank == old(rank)[node := old(clock)]
    {
      ClosesNode(arcs, state, rest, rank, clock, node);
      state := state[node := Black];
      trail := rest;
      rank, clock := rank[node := clock], clock + 1;
    }

    method VisitAll(node: Path) returns (found: bool)
      requires Valid() && trail != [] && trail[|trail| - 1] == node
      modifies this
      ensures found ==> HasCycle(arcs)
      ensures !found ==> Valid() && trail == old(trail) && Neighbours(arcs, node) <= rank.Keys
      ensures !found ==> old(rank).Keys <= rank.Keys
      ensures old(state).Keys <= state.Keys
      decreases |Nodes(arcs) - state.Keys|, 1
    {
      var todo := Neighbours(arcs, node);
      while todo != {}
        invariant Valid() && trail == old(trail) && todo <= Neighbours(arcs, node)
        invariant Neighbours(arcs, node) - todo <= rank.Keys && old(rank).Keys <= rank.Keys
        invariant old(state).Keys <= state.Keys
        decreases |todo|
      {
        var n :| n in todo;
        Smaller(Nodes(arcs), old(state).Keys, state.Keys);
        found := Visit(n);
        if found { return; }
        todo := todo - {n};
      }
      found := false;
    }

    /** The colouring decides whether the arcs contain a cycle, self-loops included. */
    method Decide() returns (found: bool)
      requires Valid() && trail == [] && state == map[]
      modifies this
      ensures found <==> HasCycle(arcs)
    {
      var todo := Nodes(arcs);
      while todo != {}
        invariant Valid() && trail == [] && todo <= Nodes(arcs) && Nodes(arcs) - todo <= rank.Keys
        decreases |todo|
      {
        var n :| n in todo;
        if n !in state {
          found := Visit(n);
          if found { return; }
        }
        todo := todo - {n};
      }
      RankedAcyclic(arcs, rank);
      found := false;
    }
  }

  /** Reports whether the edges contain a directed cycle. */
  method HasDirectedCycle(edges: set<Edge>) returns (found: bool)
    ensures found <==> HasCycle(set e | e in edges :: (e.source, e.target))
  {
    var finder := new CycleFinder(set e | e in edges :: (e.source, e.target));
    found := finder.Decide();
  }
}
