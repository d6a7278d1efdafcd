/** The command snapshot cache: fetching the tip, by diff where possible, by full listing otherwise. */
module Transport {
  import opened Base

  type Sha = nat

  /** A tree path, which need not be valid UTF-8. */
  datatype RawPath = Decodable(path: Path) | Undecodable(raw: Bytes)
  type Tree = map<RawPath, Bytes>

  datatype Status = Deleted | Added | Modified | TypeChanged
  datatype Entry = Entry(status: Status, path: RawPath)

  datatype Document = Document(content: Bytes, commit: Sha)
  datatype Snapshot = Snapshot(sha: Sha, documents: map<Path, Document>)

  /** The commits, their diffs, which paths are manifests or commands, and the last commit that touched a path. */
  datatype Repository = Repository(
    trees: map<Sha, Tree>, diff: (Sha, Sha) -> seq<Entry>, controlled: Path -> bool, lastTouch: (Sha, Path) -> Sha)

  /** How `git ls-tree` ends: its exit code 128 is read as an empty listing. */
  datatype ListExit = Listed | Fatal | Broken

  /** What Git does during one fetch: the tip it finds, the answer to the ancestor question, whether the
      diff runs, which documents cannot be read, and how the listing ends. */
  datatype Weather = Weather(tip: Option<Sha>, fastForward: bool, diffRuns: bool, unreadable: set<Path>, list: ListExit)

  /** The full listing of a tree: the manifests and commands with their bytes. */
  ghost function Listing(repo: Repository, tree: Tree): map<Path, Bytes> {
    map r | r in tree && r.Decodable? && repo.controlled(r.path) :: r.path := tree[r]
  }

  function Contents(documents: map<Path, Document>): map<Path, Bytes> {
    map p | p in documents :: documents[p].content
  }

  /** `git diff --name-status --no-renames`: an entry for every path that differs, with its status.
      Entries for unchanged bytes (a mode change) may occur too. */
  ghost predicate DiffOf(entries: seq<Entry>, a: Tree, b: Tree) {
    && (forall i :: 0 <= i < |entries| ==> (entries[i].status.Deleted? <==> entries[i].path !in b))
    && (forall r :: r in a && (r !in b || b[r] != a[r]) ==> exists i :: 0 <= i < |entries| && entries[i].path == r)
    && (forall r :: r in b && r !in a ==> exists i :: 0 <= i < |entries| && entries[i].path == r)
  }

  /** Git's diffs are diffs of its trees. */
  ghost predicate Truthful(repo: Repository) {
    forall a, b {:trigger repo.diff(a, b)} :: a in repo.trees && b in repo.trees ==> DiffOf(repo.diff(a, b), repo.trees[a], repo.trees[b])
  }

  datatype Reading<T> = Done(value: T) | BridgeFailure | OtherFailure

  function ReadDocument(repo: Repository, sha: Sha, p: Path, unreadable: set<Path>): Option<Document>
    requires sha in repo.trees
  {
    if p in unreadable || Decodable(p) !in repo.trees[sha] then None
    else Some(Document(repo.trees[sha][Decodable(p)], repo.lastTouch(sha, p)))
  }

  predicate Named(entries: seq<Entry>, p: Path) {
    exists i :: 0 <= i < |entries| && entries[i].path == Decodable(p)
  }

  predicate AllDecodable(entries: seq<Entry>) {
    forall i :: 0 <= i < |entries| ==> entries[i].path.Decodable?
  }

  /** An entry asks for a document that cannot be read, before any undecodable path ends the walk. */
  predicate Stalls(repo: Repository, entries: seq<Entry>, unreadable: set<Path>) {
    exists i :: 0 <= i < |entries| && AllDecodable(entries[..i]) && Asks(repo, entries[i], unreadable)
  }

  predicate Asks(repo: Repository, e: Entry, unreadable: set<Path>) {
    e.path.Decodable? && repo.controlled(e.path.path) && !e.status.Deleted? && e.path.path in unreadable
  }

  function Held(documents: map<Path, Document>, p: Path): Option<Document> {
    if p in documents then Some(documents[p]) else None
  }

  /** The document of a commit at `p`, with the commit that last touched it. */
  function DocumentAt(repo: Repository, sha: Sha, p: Path): Option<Document>
    requires sha in repo.trees
  {
    if repo.controlled(p) && Decodable(p) in repo.trees[sha]
    then Some(Document(repo.trees[sha][Decodable(p)], repo.lastTouch(sha, p))) else None
  }

  /** Controlled paths that some entry names are as in the commit, the others as in the cache. */
  ghost predicate Patched(repo: Repository, sha: Sha, entries: seq<Entry>, cache: map<Path, Document>, now: map<Path, Document>)
    requires sha in repo.trees
  {
    forall p :: Held(now, p) == if repo.controlled(p) && Named(entries, p) then DocumentAt(repo, sha, p) else Held(cache, p)
  }

  lemma NamedNext(entries: seq<Entry>, i: nat, p: Path)
    requires i < |entries|
    ensures Named(entries[..i + 1], p) <==> Named(entries[..i], p) || entries[i].path == Decodable(p)
  {
    if Named(entries[..i], p) {
      var k :| 0 <= k < i && entries[..i][k].path == Decodable(p);
      assert entries[..i + 1][k].path == Decodable(p);
    }
    assert entries[..i + 1][i] == entries[i];
    if Named(entries[..i + 1], p) && entries[i].path != Decodable(p) {
      var k :| 0 <= k < i + 1 && entries[..i + 1][k].path == Decodable(p);
      assert entries[..i][k].path == Decodable(p);
    }
  }

  lemma PatchedNext(repo: Repository, sha: Sha, entries: seq<Entry>, i: nat, cache: map<Path, Document>,
                    was: map<Path, Document>, now: map<Path, Document>)
    requires sha in repo.trees && i < |entries| && Patched(repo, sha, entries[..i], cache, was)
    requires var r := entries[i].path;
      if r.Decodable? && repo.controlled(r.path)
      then forall p :: Held(now, p) == if p == r.path then DocumentAt(repo, sha, p) else Held(was, p)
      else now == was
    ensures Patched(repo, sha, entries[..i + 1], cache, now)
  {
    forall p
      ensures Held(now, p) == if repo.controlled(p) && Named(entries[..i + 1], p) then DocumentAt(repo, sha, p) else Held(cache, p)
    {
      NamedNext(entries, i, p);
    }
  }

  /** A cache that matches the old tree, patched by the diff, matches the new tree. */
  lemma PatchedMatches(repo: Repository, a: Tree, sha: Sha, entries: seq<Entry>, cache: map<Path, Document>, now: map<Path, Document>)
    requires sha in repo.trees && DiffOf(entries, a, repo.trees[sha])
    requires Contents(cache) == Listing(repo, a) && Patched(repo, sha, entries, cache, now)
    ensures Contents(now) == Listing(repo, repo.trees[sha])
  {
    var b := repo.trees[sha];
    forall p ensures Get(Contents(now), p) == Get(Listing(repo, b), p) {
      ListingAt(repo, a, p);
      ListingAt(repo, b, p);
      assert Held(now, p) == if repo.controlled(p) && Named(entries, p) then DocumentAt(repo, sha, p) else Held(cache, p);
      assert Get(Contents(cache), p) == Get(Listing(repo, a), p);
      if repo.controlled(p) && !Named(entries, p) {
        assert Decodable(p) in a <==> Decodable(p) in b;
      }
    }
    SameFiles(Contents(now), Listing(repo, b));
  }

  lemma ListingAt(repo: Repository, tree: Tree, p: Path)
    ensures Get(Listing(repo, tree), p) == if repo.controlled(p) && Decodable(p) in tree then Some(tree[Decodable(p)]) else None
  {
    if repo.controlled(p) && Decodable(p) in tree {
      assert Decodable(p).path in Listing(repo, tree);
    }
  }

  /** The documents that a full listing with this exit sees. */
  ghost predicate Shown(repo: Repository, sha: Sha, exit: ListExit, documents: map<Path, Document>)
    requires sha in repo.trees
  {
    forall p :: Held(documents, p) == if exit.Fatal? then None else DocumentAt(repo, sha, p)
  }

  lemma ShownContents(repo: Repository, sha: Sha, exit: ListExit, documents: map<Path, Document>)
    requires sha in repo.trees && Shown(repo, sha, exit, documents)
    ensures Contents(documents) == if exit.Fatal? then map[] else Listing(repo, repo.trees[sha])
  {
    var all := if exit.Fatal? then map[] else Listing(repo, repo.trees[sha]);
    forall p ensures Get(Contents(documents), p) == Get(all, p) {
      ListingAt(repo, repo.trees[sha], p);
      assert Held(documents, p) == if exit.Fatal? then None else DocumentAt(repo, sha, p);
    }
    SameFiles(Contents(documents), all);
  }

  /** A full listing succeeds: it ends well or with code 128, and everything it shows can be read. */
  ghost predicate Lists(repo: Repository, tree: Tree, exit: ListExit, unreadable: set<Path>) {
    exit.Fatal? || (exit.Listed? && forall r :: r in tree && r.Decodable? && repo.controlled(r.path) ==> r.path !in unreadable)
  }

  // ----- What one fetch does, from the cached commit and the weather alone -----

  /** The fetch gets as far as asking for the full listing. */
  ghost predicate ReadsListing(repo: Repository, cached: Option<Sha>, w: Weather) {
    w.tip.Some? && (cached.None? || (cached != w.tip &&
      !(w.fastForward && w.diffRuns && !Stalls(repo, repo.diff(cached.value, w.tip.value), w.unreadable))))
  }

  ghost predicate Succeeds(repo: Repository, cached: Option<Sha>, w: Weather) {
    && w.tip.Some? && w.tip.value in repo.trees
    && (cached == w.tip
        || if ReadsListing(repo, cached, w) then Lists(repo, repo.trees[w.tip.value], w.list, w.unreadable)
           else cached.Some? && AllDecodable(repo.diff(cached.value, w.tip.value)))
  }

  ghost function NextSha(repo: Repository, cached: Option<Sha>, w: Weather): Option<Sha> {
    if Succeeds(repo, cached, w) then w.tip else cached
  }

  /** The one way a success goes wrong: the listing is asked for, ends with code 128, and had something to show. */
  ghost predicate Misled(repo: Repository, cached: Option<Sha>, w: Weather) {
    ReadsListing(repo, cached, w) && w.list.Fatal? && w.tip.value in repo.trees && Listing(repo, repo.trees[w.tip.value]) != map[]
  }

  /** The cached commit after the first `n` fetches. */
  ghost function ShaAfter(repo: Repository, start: Option<Sha>, ws: seq<Weather>, n: nat): Option<Sha>
    requires n <= |ws|
  {
    if n == 0 then start else NextSha(repo, ShaAfter(repo, start, ws, n - 1), ws[n - 1])
  }

  class GitCommandTransport {
    const repo: Repository
    var cachedSnapshot: Option<Snapshot>
    var cachedDocuments: map<Path, Document>

    ghost predicate Valid()
      reads this
    {
      cachedSnapshot.Some? ==> cachedSnapshot.value.sha in repo.trees && cachedDocuments == cachedSnapshot.value.documents
    }

    /** The cache holds exactly the full listing of its commit. */
    ghost predicate Faithful()
      reads this
    {
      cachedSnapshot.Some? ==>
        cachedSnapshot.value.sha in repo.trees
        && Contents(cachedSnapshot.value.documents) == Listing(repo, repo.trees[cachedSnapshot.value.sha])
    }

    constructor (repo: Repository)
      ensures Valid() && Faithful() && cachedSnapshot == None && this.repo == repo
    {
      this.repo := repo;
      cachedSnapshot, cachedDocuments := None, map[];
    }

    ghost function CachedSha(): Option<Sha>
      reads this
    {
      if cachedSnapshot.Some? then Some(cachedSnapshot.value.sha) else None
    }

    /** Edits a copy of the cached documents entry by entry. An undecodable path is not a bridge failure. */
    method IncrementalSnapshot(tip: Sha, diff: Option<seq<Entry>>, unreadable: set<Path>) returns (r: Reading<Snapshot>)
      requires tip in repo.trees
      requires diff.Some? ==> forall i :: 0 <= i < |diff.value| ==> (diff.value[i].status.Deleted? <==> diff.value[i].path !in repo.trees[tip])
      ensures r.BridgeFailure? <==> diff.None? || Stalls(repo, diff.value, unreadable)
      ensures r.Done? <==> diff.Some? && !Stalls(repo, diff.value, unreadable) && AllDecodable(diff.value)
      ensures r.Done? ==> r.value.sha == tip && Patched(repo, tip, diff.value, cachedDocuments, r.value.documents)
    {
      if diff.None? {
        return BridgeFailure;
      }
      var entries := diff.value;
      var documents := cachedDocuments;
      for i := 0 to |entries|
        invariant Patched(repo, tip, entries[..i], cachedDocuments, documents)
        invariant AllDecodable(entries[..i])
        invariant forall k :: 0 <= k < i ==> !Asks(repo, entries[k], unreadable)
      {
        ghost var was := documents;
        var entry := entries[i];
        if entry.path.Undecodable? {
          NoStallBefore(repo, entries, i, unreadable);
          return OtherFailure;
        }
        var path := entry.path.path;
        if repo.controlled(path) {
          if entry.status.Deleted? {
            documents := documents - {path};
          } else {
            var document := ReadDocument(repo, tip, path, unreadable);
            if document.None? {
              assert Asks(repo, entries[i], unreadable);
              return BridgeFailure;
            }
            documents := documents[path := document.value];
          }
        }
        PatchedNext(repo, tip, entries, i, cachedDocuments, was, documents);
      }
      assert entries[..|entries|] == entries;
      return Done(Snapshot(tip, documents));
    }

    /** Reads every manifest and command that the listing shows. */
    method FullSnapshot(tip: Sha, exit: ListExit, unreadable: set<Path>) returns (r: Reading<Snapshot>)
      requires tip in repo.trees
      ensures !r.OtherFailure? && (r.Done? <==> Lists(repo, repo.trees[tip], exit, unreadable))
      ensures r.Done? ==> r.value.sha == tip && Shown(repo, tip, exit, r.value.documents)
    {
      if exit.Broken? {
        return BridgeFailure;
      }
      var tree := repo.trees[tip];
      var shown: set<RawPath> := if exit.Fatal? then {} else tree.Keys;
      var rest, documents: map<Path, Document> := shown, map[];
      while rest != {}
        invariant rest <= shown
        invariant forall p ::
          Held(documents, p) == (if Decodable(p) in shown && Decodable(p) !in rest then DocumentAt(repo, tip, p) else None)
        invariant forall r :: r in shown && r !in rest && r.Decodable? && repo.controlled(r.path) ==> r.path !in unreadable
        decreases |rest|
      {
        var raw :| raw in rest;
        rest := rest - {raw};
        if raw.Decodable? && repo.controlled(raw.path) {
          var document := ReadDocument(repo, tip, raw.path, unreadable);
          if document.None? {
            return BridgeFailure;
          }
          documents := documents[raw.path := document.value];
        }
      }
      return Done(Snapshot(tip, documents));
    }

    /** One fetch. Whether it succeeds depends on the cached commit and Git's answers; a failure leaves the
        cache alone. On a faithful cache a success is the full listing of the tip exactly when the fetch is
        not misled. */
    method FetchSnapshot(w: Weather) returns (r: Option<Snapshot>)
      requires Valid() && Truthful(repo) && (w.tip.Some? ==> w.tip.value in repo.trees)
      modifies this
      ensures Valid() && CachedSha() == NextSha(repo, old(CachedSha()), w)
      ensures r.Some? <==> Succeeds(repo, old(CachedSha()), w)
      ensures if r.Some? then r == cachedSnapshot && w.tip == Some(r.value.sha) else cachedSnapshot == old(cachedSnapshot)
      ensures old(Faithful()) ==> (Faithful() <==> !Misled(repo, old(CachedSha()), w))
      ensures r.Some? && old(CachedSha()) != w.tip && ReadsListing(repo, old(CachedSha()), w) ==>
                Shown(repo, r.value.sha, w.list, r.value.documents)
      ensures r.Some? && old(CachedSha()) != w.tip && !ReadsListing(repo, old(CachedSha()), w) ==>
                Patched(repo, r.value.sha, repo.diff(old(CachedSha()).value, r.value.sha), old(cachedDocuments), r.value.documents)
    {
      if w.tip.None? {
        return None;
      }
      var tip := w.tip.value;
      if cachedSnapshot.Some? && cachedSnapshot.value.sha == tip {
        return cachedSnapshot;
      }
      var snapshot: Reading<Snapshot>;
      if cachedSnapshot.Some? && w.fastForward {
        snapshot := FetchByDiff(w, tip);
      } else {
        snapshot := FetchInFull(w, tip);
      }
      if !snapshot.Done? {
        return None;
      }
      cachedSnapshot := Some(snapshot.value);
      cachedDocuments := snapshot.value.documents;
      return cachedSnapshot;
    }

    method FetchInFull(w: Weather, tip: Sha) returns (r: Reading<Snapshot>)
      requires tip in repo.trees
      ensures r.Done? <==> Lists(repo, repo.trees[tip], w.list, w.unreadable)
      ensures r.Done? ==> r.value.sha == tip && Shown(repo, tip, w.list, r.value.documents)
      ensures r.Done? ==> (Contents(r.value.documents) == Listing(repo, repo.trees[tip])
                           <==> !(w.list.Fatal? && Listing(repo, repo.trees[tip]) != map[]))
    {
      r := FullSnapshot(tip, w.list, w.unreadable);
      if r.Done? {
        ShownContents(repo, tip, w.list, r.value.documents);
      }
    }

    /** The incremental attempt, and the full listing when it reports a bridge failure. */
    method FetchByDiff(w: Weather, tip: Sha) returns (r: Reading<Snapshot>)
      requires Valid() && Truthful(repo) && tip in repo.trees && cachedSnapshot.Some? && cachedSnapshot.value.sha != tip
      requires w.fastForward && w.tip == Some(tip)
      ensures r.Done? ==> r.value.sha == tip
      ensures r.Done? <==> Succeeds(repo, CachedSha(), w)
      ensures r.Done? && ReadsListing(repo, CachedSha(), w) ==> Shown(repo, tip, w.list, r.value.documents)
      ensures r.Done? && !ReadsListing(repo, CachedSha(), w) ==>
                Patched(repo, tip, repo.diff(cachedSnapshot.value.sha, tip), cachedDocuments, r.value.documents)
      ensures r.Done? && Faithful() ==>
                (Contents(r.value.documents) == Listing(repo, repo.trees[tip]) <==> !Misled(repo, CachedSha(), w))
    {
      var previous := cachedSnapshot.value.sha;
      var diff := if w.diffRuns then Some(repo.diff(previous, tip)) else None;
      assert DiffOf(repo.diff(previous, tip), repo.trees[previous], repo.trees[tip]);
      r := IncrementalSnapshot(tip, diff, w.unreadable);
      if r.BridgeFailure? {
        r := FetchInFull(w, tip);
      } else if r.Done? {
        FaithfulPatch(previous, tip, r.value.documents);
      }
    }

    lemma FaithfulPatch(previous: Sha, tip: Sha, documents: map<Path, Document>)
      requires Valid() && Truthful(repo) && cachedSnapshot.Some? && previous == cachedSnapshot.value.sha && tip in repo.trees
      requires Patched(repo, tip, repo.diff(previous, tip), cachedDocuments, documents)
      ensures Faithful() ==> Contents(documents) == Listing(repo, repo.trees[tip])
    {
      if Faithful() {
        assert DiffOf(repo.diff(previous, tip), repo.trees[previous], repo.trees[tip]);
        PatchedMatches(repo, repo.trees[previous], tip, repo.diff(previous, tip), cachedDocuments, documents);
      }
    }
  }

  lemma NoStallBefore(repo: Repository, entries: seq<Entry>, i: nat, unreadable: set<Path>)
    requires i < |entries| && entries[i].path.Undecodable? && forall k :: 0 <= k < i ==> !Asks(repo, entries[k], unreadable)
    ensures !Stalls(repo, entries, unreadable) && !AllDecodable(entries)
  {
    forall k | i < k < |entries| ensures !AllDecodable(entries[..k]) {
      assert entries[..k][i] == entries[i];
    }
  }

  // ----- Sequences of fetches -----

  /** The result is the full listing of its commit. */
  ghost predicate Right(repo: Repository, r: Option<Snapshot>) {
    r.Some? ==> r.value.sha in repo.trees && Contents(r.value.documents) == Listing(repo, repo.trees[r.value.sha])
  }

  /** Fetch `i` is misled, counting from the commit cached at the start. */
  ghost predicate MisledAt(repo: Repository, start: Option<Sha>, ws: seq<Weather>, i: nat)
    requires i < |ws|
  {
    Misled(repo, ShaAfter(repo, start, ws, i), ws[i])
  }

  ghost predicate SucceedsAt(repo: Repository, start: Option<Sha>, ws: seq<Weather>, i: nat)
    requires i < |ws|
  {
    Succeeds(repo, ShaAfter(repo, start, ws, i), ws[i])
  }

  /** Each result came about as the commits and Git's answers say, and is right until a fetch is misled. */
  ghost predicate Told(repo: Repository, start: Option<Sha>, ws: seq<Weather>, results: seq<Option<Snapshot>>, misled: Option<nat>)
    requires |results| <= |ws|
  {
    && (forall i :: 0 <= i < |results| ==> (results[i].Some? <==> SucceedsAt(repo, start, ws, i)))
    && (forall i :: 0 <= i < |results| && (misled.None? || i < misled.value) ==>
          Right(repo, results[i]) && !MisledAt(repo, start, ws, i))
    && (misled.Some? ==> misled.value < |results| && MisledAt(repo, start, ws, misled.value) && !Right(repo, results[misled.value]))
  }

  lemma ToldMeans(repo: Repository, start: Option<Sha>, ws: seq<Weather>, results: seq<Option<Snapshot>>, misled: Option<nat>)
    requires |results| == |ws| && Told(repo, start, ws, results, misled)
    ensures (forall i :: 0 <= i < |ws| ==> Right(repo, results[i])) <==> (forall i :: 0 <= i < |ws| ==> !MisledAt(repo, start, ws, i))
    ensures forall i :: 0 <= i < |ws| ==> Right(repo, results[i]) || exists k :: 0 <= k <= i && MisledAt(repo, start, ws, k)
  {
    forall i | 0 <= i < |ws| && !Right(repo, results[i]) ensures exists k :: 0 <= k <= i && MisledAt(repo, start, ws, k) {
      assert 0 <= misled.value <= i && MisledAt(repo, start, ws, misled.value);
    }
  }

  /** One fetch, judged: on a faithful cache it is right exactly when it is not misled. */
  method FetchOne(t: GitCommandTransport, w: Weather) returns (r: Option<Snapshot>)
    requires t.Valid() && Truthful(t.repo) && (w.tip.Some? ==> w.tip.value in t.repo.trees)
    modifies t
    ensures t.Valid() && t.CachedSha() == NextSha(t.repo, old(t.CachedSha()), w)
    ensures r.Some? <==> Succeeds(t.repo, old(t.CachedSha()), w)
    ensures old(t.Faithful()) ==> (Right(t.repo, r) <==> !Misled(t.repo, old(t.CachedSha()), w)) && (Right(t.repo, r) ==> t.Faithful())
  {
    r := t.FetchSnapshot(w);
  }

  lemma ToldNext(repo: Repository, start: Option<Sha>, ws: seq<Weather>, was: seq<Option<Snapshot>>, before: Option<nat>, r: Option<Snapshot>)
    requires |was| < |ws| && Told(repo, start, ws, was, before)
    requires r.Some? <==> SucceedsAt(repo, start, ws, |was|)
    requires before.None? ==> (Right(repo, r) <==> !MisledAt(repo, start, ws, |was|))
    ensures Told(repo, start, ws, was + [r], if before.None? && MisledAt(repo, start, ws, |was|) then Some(|was|) else before)
  {
  }

  /** Any sequence of fetches: unchanged, fast-forward, rewritten, failing, unreadable. Every success is the
      full listing exactly when no fetch is misled, and up to the first misled one in any case. */
  method FetchAll(t: GitCommandTransport, ws: seq<Weather>) returns (results: seq<Option<Snapshot>>)
    requires t.Valid() && t.Faithful() && Truthful(t.repo)
    requires forall i :: 0 <= i < |ws| && ws[i].tip.Some? ==> ws[i].tip.value in t.repo.trees
    modifies t
    ensures |results| == |ws| && t.CachedSha() == ShaAfter(t.repo, old(t.CachedSha()), ws, |ws|)
    ensures forall i :: 0 <= i < |ws| ==> (results[i].Some? <==> SucceedsAt(t.repo, old(t.CachedSha()), ws, i))
    ensures (forall i :: 0 <= i < |ws| ==> Right(t.repo, results[i])) <==>
            (forall i :: 0 <= i < |ws| ==> !MisledAt(t.repo, old(t.CachedSha()), ws, i))
    ensures forall i :: 0 <= i < |ws| ==>
              Right(t.repo, results[i]) || exists k :: 0 <= k <= i && MisledAt(t.repo, old(t.CachedSha()), ws, k)
  {
    results := [];
    ghost var start := t.CachedSha();
    ghost var misled: Option<nat> := None;
    for i := 0 to |ws|
      invariant t.Valid() && |results| == i && t.CachedSha() == ShaAfter(t.repo, start, ws, i)
      invariant Told(t.repo, start, ws, results, misled) && (misled.None? ==> t.Faithful())
    {
      var r := FetchOne(t, ws[i]);
      ToldNext(t.repo, start, ws, results, misled, r);
      results := results + [r];
      misled := if misled.None? && MisledAt(t.repo, start, ws, i) then Some(i) else misled;
    }
    ToldMeans(t.repo, start, ws, results, misled);
  }

  /** Why exit code 128 matters: the empty listing is cached, and a later successful fetch by
      diff still lacks every document that did not change. */
  method EmptyListingPersists(repo: Repository, first: Sha, second: Sha, p: Path) returns (r: Option<Snapshot>)
    requires Truthful(repo) && first in repo.trees && second in repo.trees && first != second
    requires repo.controlled(p) && Decodable(p) in repo.trees[second]
    requires !Named(repo.diff(first, second), p) && AllDecodable(repo.diff(first, second))
    ensures r.Some? && p in Listing(repo, repo.trees[second]) && p !in r.value.documents
  {
    var t := new GitCommandTransport(repo);
    var empty := t.FetchSnapshot(Weather(Some(first), false, true, {}, Fatal));
    ListingAt(repo, repo.trees[second], p);
    assert Held(t.cachedDocuments, p) == None;
    r := t.FetchSnapshot(Weather(Some(second), true, true, {}, Listed));
    assert Held(r.value.documents, p) == None;
  }

  /** When every step of Git works, everything can be read and no path is undecodable, a fetch succeeds, whatever is
      cached and however the tip moved; without a tip it fails. */
  lemma CalmFetchSucceeds(repo: Repository, cached: Option<Sha>, w: Weather)
    requires w.tip.Some? ==> w.tip.value in repo.trees && w.unreadable == {} && w.list.Listed?
    requires w.tip.Some? && cached.Some? ==> AllDecodable(repo.diff(cached.value, w.tip.value))
    ensures Succeeds(repo, cached, w) <==> w.tip.Some?
    ensures w.tip.Some? ==> !Misled(repo, cached, w) && NextSha(repo, cached, w) == w.tip
  {
  }

  // ----- An undecodable path in the way of the diff -----

  /** The two trees differ at a path that is not valid UTF-8. */
  ghost predicate Blocking(repo: Repository, cached: Sha, tip: Sha, r: RawPath) {
    && r.Undecodable? && cached in repo.trees && tip in repo.trees
    && (if r in repo.trees[cached] then r !in repo.trees[tip] || repo.trees[tip][r] != repo.trees[cached][r]
        else r in repo.trees[tip])
  }

  /** A fast-forward fetch in which every step of Git works. */
  predicate Plain(w: Weather) {
    w.tip.Some? && w.fastForward && w.diffRuns && w.unreadable == {} && w.list.Listed?
  }

  lemma StuckOnce(repo: Repository, cached: Sha, w: Weather, r: RawPath)
    requires Truthful(repo) && Plain(w) && Blocking(repo, cached, w.tip.value, r)
    ensures !Succeeds(repo, Some(cached), w) && Succeeds(repo, None, w)
  {
    var tip := w.tip.value;
    assert DiffOf(repo.diff(cached, tip), repo.trees[cached], repo.trees[tip]);
    var k :| 0 <= k < |repo.diff(cached, tip)| && repo.diff(cached, tip)[k].path == r;
  }

  ghost predicate Stuck(repo: Repository, cached: Sha, w: Weather, r: RawPath) {
    Plain(w) && Blocking(repo, cached, w.tip.value, r)
  }

  ghost predicate AllFail(repo: Repository, cached: Option<Sha>, ws: seq<Weather>) {
    forall i :: 0 <= i < |ws| ==> !Succeeds(repo, cached, ws[i])
  }

  lemma {:induction false} FailuresStay(repo: Repository, cached: Option<Sha>, ws: seq<Weather>, n: nat)
    requires n <= |ws| && AllFail(repo, cached, ws)
    ensures ShaAfter(repo, cached, ws, n) == cached
    decreases n
  {
    if n > 0 {
      FailuresStay(repo, cached, ws, n - 1);
    }
  }

  /** Every later fast-forward fetch fails and leaves the cache, as long as such a path keeps the tip
      different from the cached tree; a fresh process would succeed on every one of these tips. */
  lemma UndecodableStuck(repo: Repository, cached: Sha, ws: seq<Weather>, r: RawPath, n: nat)
    requires Truthful(repo) && n < |ws| && forall i :: 0 <= i < |ws| ==> Stuck(repo, cached, ws[i], r)
    ensures ShaAfter(repo, Some(cached), ws, n) == Some(cached) && ShaAfter(repo, Some(cached), ws, |ws|) == Some(cached)
    ensures !SucceedsAt(repo, Some(cached), ws, n) && Succeeds(repo, None, ws[n])
  {
    forall i | 0 <= i < |ws| ensures !Succeeds(repo, Some(cached), ws[i]) {
      StuckOnce(repo, cached, ws[i], r);
    }
    StuckOnce(repo, cached, ws[n], r);
    FailuresStay(repo, Some(cached), ws, n);
    FailuresStay(repo, Some(cached), ws, |ws|);
  }

  // ----- A change and its revert between two polls -----

  /** Both times the bytes are the same, but the polling process keeps the commit it first saw, while a
      restarted one reports the commit of the revert: another one exactly if something touched the path since. */
  method RestartAfterRevert(repo: Repository, first: Sha, second: Sha, p: Path) returns (kept: Document, fresh_: Document)
    requires Truthful(repo) && first in repo.trees && second in repo.trees && first != second
    requires repo.controlled(p) && Decodable(p) in repo.trees[first]
    requires !Named(repo.diff(first, second), p) && AllDecodable(repo.diff(first, second))
    ensures Decodable(p) in repo.trees[second] && kept.content == fresh_.content == repo.trees[second][Decodable(p)]
    ensures kept.commit == repo.lastTouch(first, p) && fresh_.commit == repo.lastTouch(second, p)
    ensures kept.commit != fresh_.commit <==> repo.lastTouch(first, p) != repo.lastTouch(second, p)
  {
    var t := new GitCommandTransport(repo);
    var one := t.FetchSnapshot(Weather(Some(first), false, true, {}, Listed));
    assert Held(t.cachedDocuments, p) == DocumentAt(repo, first, p);
    var two := t.FetchSnapshot(Weather(Some(second), true, true, {}, Listed));
    assert Held(two.value.documents, p) == DocumentAt(repo, first, p);
    var u := new GitCommandTransport(repo);
    var three := u.FetchSnapshot(Weather(Some(second), false, true, {}, Listed));
    SameAtUnnamed(repo, first, second, p);
    assert Held(three.value.documents, p) == DocumentAt(repo, second, p);
    kept, fresh_ := two.value.documents[p], three.value.documents[p];
  }

  lemma SameAtUnnamed(repo: Repository, a: Sha, b: Sha, p: Path)
    requires Truthful(repo) && a in repo.trees && b in repo.trees && !Named(repo.diff(a, b), p) && Decodable(p) in repo.trees[a]
    ensures Decodable(p) in repo.trees[b] && repo.trees[b][Decodable(p)] == repo.trees[a][Decodable(p)]
  {
    assert DiffOf(repo.diff(a, b), repo.trees[a], repo.trees[b]);
  }
}
