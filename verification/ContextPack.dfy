/** Context packs: merging line hints and selecting excerpts under a byte and file budget. */
module ContextPack {
  import opened Base
  import opened Ordering

  type Label = string

  /** A wish to show some lines; the numbers may lie outside the file. */
  datatype Hint = Hint(start: int, end: int, reason: Label, priority: int)
  /** A range of lines to show, with why and how urgently. */
  datatype Span = Span(start: int, end: int, reasons: set<Label>, priority: int)

  function Max(a: int, b: int): int { if a < b then b else a }
  function Min(a: int, b: int): int { if a < b then a else b }

  /** The hint confined to the file and to the excerpt length. */
  function Clamp(h: Hint, lineCount: nat, maxLines: nat): (s: Span)
    requires lineCount >= 1 && maxLines >= 1
    ensures 1 <= s.start <= s.end <= lineCount && s.end - s.start < maxLines
    ensures if h.start < 1 then s.start == 1 else if h.start > lineCount then s.start == lineCount else s.start == h.start
    ensures 1 <= h.start <= h.end <= lineCount && h.end - h.start < maxLines ==> s.start == h.start && s.end == h.end
    ensures s.reasons == {h.reason} && s.priority == h.priority
  {
    var start := Max(1, Min(h.start, lineCount));
    Span(start, Max(start, Min(Min(h.end, lineCount), start + maxLines - 1)), {h.reason}, h.priority)
  }

  predicate Holds(s: Span, line: int) { s.start <= line <= s.end }

  /** Behind its first line it holds the hint's lines, as far as the file and the excerpt length reach. */
  lemma ClampHolds(h: Hint, lineCount: nat, maxLines: nat, line: int)
    requires lineCount >= 1 && maxLines >= 1
    ensures var s := Clamp(h, lineCount, maxLines);
      Holds(s, line) <==> line == s.start || (s.start < line <= h.end && line <= lineCount && line - s.start < maxLines)
  {
  }

  ghost predicate Covered(spans: seq<Span>, line: int) {
    exists i :: 0 <= i < |spans| && Holds(spans[i], line)
  }

  /** The merge order: by start, then end, then priority. */
  predicate ByStart(a: Span, b: Span) {
    a.start < b.start || (a.start == b.start && (a.end < b.end || (a.end == b.end && a.priority <= b.priority)))
  }

  predicate ByPriority(a: Span, b: Span) {
    a.priority < b.priority || (a.priority == b.priority && (a.start < b.start || (a.start == b.start && a.end <= b.end)))
  }

  function Union(spans: seq<Span>): set<Label> {
    if spans == [] then {} else Union(spans[..|spans| - 1]) + spans[|spans| - 1].reasons
  }

  /** `m` is the merge of the group: from the first start to the last line any member reaches, with
      all their reasons and the most urgent priority. */
  ghost predicate MergeOf(m: Span, group: seq<Span>) {
    && group != [] && m.start == group[0].start && m.reasons == Union(group)
    && (forall i :: 0 <= i < |group| ==> m.start <= group[i].start && group[i].end <= m.end && m.priority <= group[i].priority)
    && (exists i :: 0 <= i < |group| && group[i].end == m.end)
    && (exists i :: 0 <= i < |group| && group[i].priority == m.priority)
  }

  function Flatten(groups: seq<seq<Span>>): seq<Span> {
    if groups == [] then [] else Flatten(groups[..|groups| - 1]) + groups[|groups| - 1]
  }

  /** The merged spans are the merges of consecutive groups of the sorted ones. */
  ghost predicate Grouped(merged: seq<Span>, groups: seq<seq<Span>>, sorted: seq<Span>) {
    |groups| == |merged| && Flatten(groups) == sorted && forall i :: 0 <= i < |merged| ==> MergeOf(merged[i], groups[i])
  }

  /** A span that starts a group of its own could not join the one before: a line lies between, or together they
      are too long. */
  ghost predicate Greedily(merged: seq<Span>, groups: seq<seq<Span>>, maxLines: nat) {
    && |groups| == |merged|
    && forall i :: 0 < i < |merged| ==>
         groups[i] != [] && (groups[i][0].start > merged[i - 1].end + 1 || groups[i][0].end - merged[i - 1].start >= maxLines)
  }

  predicate Mergeable(m: Span, s: Span, maxLines: nat) {
    s.start <= m.end + 1 && Max(m.end, s.end) - m.start + 1 <= maxLines
  }

  function MergeTwo(m: Span, s: Span): Span {
    Span(m.start, Max(m.end, s.end), m.reasons + s.reasons, Min(m.priority, s.priority))
  }

  ghost predicate Bounded(spans: seq<Span>, lineCount: nat, maxLines: nat) {
    forall i :: 0 <= i < |spans| ==> 1 <= spans[i].start <= spans[i].end <= lineCount && spans[i].end - spans[i].start < maxLines
  }

  lemma MergeOneMore(m: Span, group: seq<Span>, s: Span)
    requires MergeOf(m, group) && m.start <= s.start
    ensures MergeOf(MergeTwo(m, s), group + [s])
  {
    var more, t := group + [s], MergeTwo(m, s);
    assert more[..|group|] == group;
    var i :| 0 <= i < |group| && group[i].end == m.end;
    assert more[i].end == m.end && more[|group|] == s;
    var j :| 0 <= j < |group| && group[j].priority == m.priority;
    assert more[j].priority == m.priority;
    assert exists k :: 0 <= k < |more| && more[k].end == t.end by {
      assert more[if m.end < s.end then |group| else i].end == t.end;
    }
    assert exists k :: 0 <= k < |more| && more[k].priority == t.priority by {
      assert more[if m.priority < s.priority then j else |group|].priority == t.priority;
    }
  }

  lemma MergeSingle(s: Span)
    ensures MergeOf(s, [s])
  {
    assert [s][0] == s && [s][..0] == [];
    assert Union([s]) == Union([s][..0]) + s.reasons;
  }

  lemma OpensGroup(merged: seq<Span>, groups: seq<seq<Span>>, sorted: seq<Span>, s: Span)
    requires Grouped(merged, groups, sorted)
    ensures Grouped(merged + [s], groups + [[s]], sorted + [s])
  {
    MergeSingle(s);
    assert (groups + [[s]])[..|groups|] == groups;
  }

  lemma JoinsGroup(merged: seq<Span>, groups: seq<seq<Span>>, sorted: seq<Span>, s: Span)
    requires Grouped(merged, groups, sorted) && merged != [] && merged[|merged| - 1].start <= s.start
    ensures var n := |merged| - 1;
      Grouped(merged[n := MergeTwo(merged[n], s)], groups[n := groups[n] + [s]], sorted + [s])
  {
    var n := |merged| - 1;
    MergeOneMore(merged[n], groups[n], s);
    assert groups[n := groups[n] + [s]][..n] == groups[..n];
    assert Flatten(groups) == Flatten(groups[..n]) + groups[n];
  }

  /** Joining two touching spans adds no line and loses none. */
  lemma LinesJoin(merged: seq<Span>, s: Span, line: int)
    requires merged != [] && merged[|merged| - 1].start <= s.start <= merged[|merged| - 1].end + 1
    ensures Covered(merged[|merged| - 1 := MergeTwo(merged[|merged| - 1], s)], line) <==> Covered(merged, line) || Holds(s, line)
  {
    var n := |merged| - 1;
    var now := merged[n := MergeTwo(merged[n], s)];
    if Covered(merged, line) {
      var i :| 0 <= i < |merged| && Holds(merged[i], line);
      assert Holds(now[i], line);
    }
    if Holds(s, line) {
      assert Holds(now[n], line);
    }
    if Covered(now, line) {
      var i :| 0 <= i < |now| && Holds(now[i], line);
      assert i != n ==> Holds(merged[i], line);
      assert i == n ==> Holds(merged[n], line) || Holds(s, line);
    }
  }

  lemma LinesAppend(spans: seq<Span>, s: Span, line: int)
    ensures Covered(spans + [s], line) <==> Covered(spans, line) || Holds(s, line)
  {
    var now := spans + [s];
    if Covered(spans, line) {
      var i :| 0 <= i < |spans| && Holds(spans[i], line);
      assert Holds(now[i], line);
    }
    assert now[|spans|] == s;
  }

  lemma SameLines(a: seq<Span>, b: seq<Span>)
    requires multiset(a) == multiset(b)
    ensures forall line :: Covered(a, line) <==> Covered(b, line)
  {
    forall line ensures Covered(a, line) <==> Covered(b, line) {
      if Covered(a, line) {
        var i :| 0 <= i < |a| && Holds(a[i], line);
        assert a[i] in multiset(b);
      }
      if Covered(b, line) {
        var i :| 0 <= i < |b| && Holds(b[i], line);
        assert b[i] in multiset(a);
      }
    }
  }

  ghost predicate FromHint(s: Span, hints: seq<Hint>, lineCount: nat, maxLines: nat)
    requires lineCount >= 1 && maxLines >= 1
  {
    exists j :: 0 <= j < |hints| && s == Clamp(hints[j], lineCount, maxLines)
  }

  /** The clamped hints without repetitions. */
  ghost predicate Ranges(hints: seq<Hint>, lineCount: nat, maxLines: nat, ranges: seq<Span>)
    requires lineCount >= 1 && maxLines >= 1
  {
    && (forall i :: 0 <= i < |hints| ==> Clamp(hints[i], lineCount, maxLines) in ranges)
    && (forall i :: 0 <= i < |ranges| ==> FromHint(ranges[i], hints, lineCount, maxLines))
    && Distinct(ranges)
  }

  method ClampAll(hints: seq<Hint>, lineCount: nat, maxLines: nat) returns (ranges: seq<Span>)
    requires lineCount >= 1 && maxLines >= 1
    ensures Ranges(hints, lineCount, maxLines, ranges)
  {
    ranges := [];
    var seen: set<Span> := {};
    for i := 0 to |hints|
      invariant Ranges(hints[..i], lineCount, maxLines, ranges)
      invariant forall s :: s in seen <==> s in ranges
    {
      var s := Clamp(hints[i], lineCount, maxLines);
      assert hints[..i + 1] == hints[..i] + [hints[i]];
      ghost var was := ranges;
      if s !in seen {
        seen := seen + {s};
        ranges := ranges + [s];
      }
      RangesGrow(hints[..i], hints[i], lineCount, maxLines, was, ranges);
    }
    assert hints[..|hints|] == hints;
  }

  lemma RangesGrow(hints: seq<Hint>, h: Hint, lineCount: nat, maxLines: nat, was: seq<Span>, now: seq<Span>)
    requires lineCount >= 1 && maxLines >= 1 && Ranges(hints, lineCount, maxLines, was)
    requires now == if Clamp(h, lineCount, maxLines) in was then was else was + [Clamp(h, lineCount, maxLines)]
    ensures Ranges(hints + [h], lineCount, maxLines, now)
  {
    var all, s := hints + [h], Clamp(h, lineCount, maxLines);
    forall i | 0 <= i < |all| ensures Clamp(all[i], lineCount, maxLines) in now {
      if i < |hints| { assert all[i] == hints[i]; }
    }
    forall i | 0 <= i < |now| ensures FromHint(now[i], all, lineCount, maxLines) {
      if i < |was| {
        var j :| 0 <= j < |hints| && was[i] == Clamp(hints[j], lineCount, maxLines);
        assert all[j] == hints[j];
      } else {
        assert all[|hints|] == h;
      }
    }
  }

  ghost predicate Starts(spans: seq<Span>, line: int) {
    forall k :: 0 <= k < |spans| ==> spans[k].start <= line
  }

  lemma MergeLines(was: seq<Span>, now: seq<Span>, s: Span, maxLines: nat)
    requires was != [] && was[|was| - 1].start <= s.start && Mergeable(was[|was| - 1], s, maxLines)
    requires now == was[|was| - 1 := MergeTwo(was[|was| - 1], s)]
    ensures forall line :: Covered(now, line) <==> Covered(was, line) || Holds(s, line)
  {
    forall line ensures Covered(now, line) <==> Covered(was, line) || Holds(s, line) {
      LinesJoin(was, s, line);
    }
  }

  lemma AppendLines(was: seq<Span>, s: Span)
    ensures forall line :: Covered(was + [s], line) <==> Covered(was, line) || Holds(s, line)
  {
    forall line ensures Covered(was + [s], line) <==> Covered(was, line) || Holds(s, line) {
      LinesAppend(was, s, line);
    }
  }

  lemma GreedyJoins(was: seq<Span>, groups: seq<seq<Span>>, s: Span, maxLines: nat)
    requires Greedily(was, groups, maxLines) && was != [] && groups[|was| - 1] != []
    ensures var n := |was| - 1; Greedily(was[n := MergeTwo(was[n], s)], groups[n := groups[n] + [s]], maxLines)
  {
    var n := |was| - 1;
    assert (groups[n] + [s])[0] == groups[n][0];
  }

  lemma GreedyOpens(was: seq<Span>, groups: seq<seq<Span>>, s: Span, lineCount: nat, maxLines: nat)
    requires Greedily(was, groups, maxLines) && Bounded(was, lineCount, maxLines)
    requires was != [] ==> !Mergeable(was[|was| - 1], s, maxLines)
    ensures Greedily(was + [s], groups + [[s]], maxLines)
  {
  }

  /** One turn of the merge: the next span joins the last one or stands on its own. */
  method MergeNext(was: seq<Span>, ghost wasGroups: seq<seq<Span>>, ghost done: seq<Span>, s: Span, lineCount: nat, maxLines: nat)
    returns (merged: seq<Span>, ghost groups: seq<seq<Span>>)
    requires Grouped(was, wasGroups, done) && Bounded(was, lineCount, maxLines) && Starts(was, s.start)
    requires 1 <= s.start <= s.end <= lineCount && s.end - s.start < maxLines && Greedily(was, wasGroups, maxLines)
    ensures Grouped(merged, groups, done + [s]) && Bounded(merged, lineCount, maxLines) && Starts(merged, s.start)
    ensures Greedily(merged, groups, maxLines)
    ensures forall line :: Covered(merged, line) <==> Covered(was, line) || Holds(s, line)
  {
    if was != [] && Mergeable(was[|was| - 1], s, maxLines) {
      var n := |was| - 1;
      merged, groups := was[n := MergeTwo(was[n], s)], wasGroups[n := wasGroups[n] + [s]];
      JoinsGroup(was, wasGroups, done, s);
      GreedyJoins(was, wasGroups, s, maxLines);
      JoinBounds(was, s, lineCount, maxLines);
      MergeLines(was, merged, s, maxLines);
    } else {
      merged, groups := was + [s], wasGroups + [[s]];
      OpensGroup(was, wasGroups, done, s);
      GreedyOpens(was, wasGroups, s, lineCount, maxLines);
      AppendLines(was, s);
    }
  }

  lemma JoinBounds(was: seq<Span>, s: Span, lineCount: nat, maxLines: nat)
    requires was != [] && Bounded(was, lineCount, maxLines) && Starts(was, s.start) && Mergeable(was[|was| - 1], s, maxLines)
    requires 1 <= s.start <= s.end <= lineCount
    ensures Bounded(was[|was| - 1 := MergeTwo(was[|was| - 1], s)], lineCount, maxLines)
    ensures Starts(was[|was| - 1 := MergeTwo(was[|was| - 1], s)], s.start)
  {
  }

  /** The merge loop over spans in start order. */
  method MergeSorted(sorted: seq<Span>, lineCount: nat, maxLines: nat) returns (merged: seq<Span>, ghost groups: seq<seq<Span>>)
    requires Bounded(sorted, lineCount, maxLines)
    requires forall i, j :: 0 <= i < j < |sorted| ==> sorted[i].start <= sorted[j].start
    ensures Grouped(merged, groups, sorted) && Bounded(merged, lineCount, maxLines) && Greedily(merged, groups, maxLines)
    ensures forall line :: Covered(merged, line) <==> Covered(sorted, line)
  {
    merged, groups := [], [];
    for i := 0 to |sorted|
      invariant Grouped(merged, groups, sorted[..i]) && Bounded(merged, lineCount, maxLines) && Greedily(merged, groups, maxLines)
      invariant forall line :: Covered(merged, line) <==> Covered(sorted[..i], line)
      invariant i > 0 ==> Starts(merged, sorted[i - 1].start)
      invariant i == 0 ==> merged == []
    {
      assert sorted[..i + 1] == sorted[..i] + [sorted[i]];
      AppendLines(sorted[..i], sorted[i]);
      merged, groups := MergeNext(merged, groups, sorted[..i], sorted[i], lineCount, maxLines);
    }
    assert sorted[..|sorted|] == sorted;
  }

  /** What the merged hints promise. */
  ghost predicate Normalised(hints: seq<Hint>, lineCount: nat, maxLines: nat, result: seq<Span>)
    requires maxLines >= 1
  {
    if lineCount == 0 then result == []
    else
      && Bounded(result, lineCount, maxLines) && Sorted(ByPriority, result)
      && (forall line :: Covered(result, line) <==>
            exists j :: 0 <= j < |hints| && Holds(Clamp(hints[j], lineCount, maxLines), line))
      && (exists ranges, merged, groups ::
            && Ranges(hints, lineCount, maxLines, ranges) && multiset(merged) == multiset(result)
            && multiset(Flatten(groups)) == multiset(ranges) && Sorted(ByStart, Flatten(groups))
            && Grouped(merged, groups, Flatten(groups)) && Greedily(merged, groups, maxLines))
  }

  lemma Orders()
    ensures TotalPreorder(ByStart) && TotalPreorder(ByPriority)
  {
  }

  /** Hint merging loses no line and invents none, keeps every range inside the file and the excerpt
      length, and each range carries the union of its sources' reasons and their best priority. */
  method NormalizeHints(hints: seq<Hint>, lineCount: nat, maxLines: nat) returns (result: seq<Span>)
    requires maxLines >= 1
    ensures Normalised(hints, lineCount, maxLines, result)
    ensures forall i, j :: 0 <= i < j < |result| ==>
              result[i].priority < result[j].priority || (result[i].priority == result[j].priority && result[i].start <= result[j].start)
  {
    if lineCount == 0 {
      return [];
    }
    var ranges := ClampAll(hints, lineCount, maxLines);
    Orders();
    SortCorrect(ByStart, ranges);
    var sorted := Sort(ByStart, ranges);
    RangesBounded(hints, lineCount, maxLines, ranges, sorted);
    ghost var groups;
    var merged: seq<Span>;
    merged, groups := MergeSorted(sorted, lineCount, maxLines);
    SortCorrect(ByPriority, merged);
    result := Sort(ByPriority, merged);
    SameBounds(merged, result, lineCount, maxLines);
    RangeLines(hints, lineCount, maxLines, ranges);
    SameLines(ranges, sorted);
    SameLines(merged, result);
  }

  lemma RangesBounded(hints: seq<Hint>, lineCount: nat, maxLines: nat, ranges: seq<Span>, sorted: seq<Span>)
    requires lineCount >= 1 && maxLines >= 1 && Ranges(hints, lineCount, maxLines, ranges) && multiset(sorted) == multiset(ranges)
    ensures Bounded(sorted, lineCount, maxLines)
  {
    forall i | 0 <= i < |sorted|
      ensures 1 <= sorted[i].start <= sorted[i].end <= lineCount && sorted[i].end - sorted[i].start < maxLines
    {
      assert sorted[i] in multiset(ranges);
      var k :| 0 <= k < |ranges| && ranges[k] == sorted[i];
    }
  }

  lemma SameBounds(a: seq<Span>, b: seq<Span>, lineCount: nat, maxLines: nat)
    requires Bounded(a, lineCount, maxLines) && multiset(a) == multiset(b)
    ensures Bounded(b, lineCount, maxLines)
  {
    forall i | 0 <= i < |b| ensures 1 <= b[i].start <= b[i].end <= lineCount && b[i].end - b[i].start < maxLines {
      assert b[i] in multiset(a);
      var k :| 0 <= k < |a| && a[k] == b[i];
    }
  }

  lemma RangeLines(hints: seq<Hint>, lineCount: nat, maxLines: nat, ranges: seq<Span>)
    requires lineCount >= 1 && maxLines >= 1 && Ranges(hints, lineCount, maxLines, ranges)
    ensures forall line :: Covered(ranges, line) <==> exists j :: 0 <= j < |hints| && Holds(Clamp(hints[j], lineCount, maxLines), line)
  {
    forall line
      ensures Covered(ranges, line) <==> exists j :: 0 <= j < |hints| && Holds(Clamp(hints[j], lineCount, maxLines), line)
    {
      if Covered(ranges, line) {
        var i :| 0 <= i < |ranges| && Holds(ranges[i], line);
        var j :| 0 <= j < |hints| && ranges[i] == Clamp(hints[j], lineCount, maxLines);
      }
      if j :| 0 <= j < |hints| && Holds(Clamp(hints[j], lineCount, maxLines), line) {
        var i :| 0 <= i < |ranges| && ranges[i] == Clamp(hints[j], lineCount, maxLines);
        assert Holds(ranges[i], line);
      }
    }
  }

  // ----- Excerpts under a budget -----

  datatype Symbol = Symbol(ordinal: nat, id: nat, start: int, end: int)

  /** Why a file's source is not shown. */
  datatype Omission = SensitivePath | MetadataOnly | Binary | TooLarge

  const MAX_SOURCE_FILE_BYTES: nat := 1024 * 1024

  datatype Record = Record(path: Path, sensitive: bool, regular: bool, isText: bool, size: nat,
                           lines: seq<Bytes>, symbols: seq<Symbol>)
  datatype Candidate = Candidate(path: Path, priority: int, reasons: set<Label>, hints: seq<Hint>)
  datatype Excerpt = Excerpt(start: int, end: int, reasons: set<Label>, text: Bytes)
  datatype ContextFile = ContextFile(path: Path, priority: int, omitted: Option<Omission>, excerpts: seq<Excerpt>)

  function Omitted(r: Record): Option<Omission> {
    if r.sensitive then Some(SensitivePath)
    else if !r.regular then Some(MetadataOnly)
    else if !r.isText then Some(Binary)
    else if r.size > MAX_SOURCE_FILE_BYTES then Some(TooLarge)
    else None
  }

  function Digits(n: nat): Bytes {
    if n < 10 then [(48 + n) as byte] else Digits(n / 10) + [(48 + n % 10) as byte]
  }

  /** Lines `start` to `end`, each behind its number, joined by line feeds. */
  function Numbered(lines: seq<Bytes>, start: int, end: int): Bytes
    requires 1 <= start && end <= |lines|
    decreases end - start
  {
    if start > end then []
    else
      var line := Digits(start) + [58, 32] + lines[start - 1];
      if start == end then line else line + [10] + Numbered(lines, start + 1, end)
  }

  /** Source is shown exactly for regular text files of bounded size that are not sensitive; otherwise the first
      reason in this order is given. */
  lemma OmittedMeans(r: Record)
    ensures Omitted(r) == None <==> !r.sensitive && r.regular && r.isText && r.size <= 1048576
    ensures r.sensitive <==> Omitted(r) == Some(SensitivePath)
    ensures !r.sensitive && !r.regular <==> Omitted(r) == Some(MetadataOnly)
    ensures !r.sensitive && r.regular && !r.isText <==> Omitted(r) == Some(Binary)
  {
  }

  /** The number that a sequence of decimal digits writes. */
  function Value(digits: Bytes): nat
    requires forall i :: 0 <= i < |digits| ==> 48 <= digits[i] <= 57
  {
    if digits == [] then 0 else 10 * Value(digits[..|digits| - 1]) + (digits[|digits| - 1] as nat - 48)
  }

  /** Line numbers are written in decimal, without leading zeros. */
  lemma {:induction false} DigitsMean(n: nat)
    ensures var d := Digits(n);
      && d != [] && (forall i :: 0 <= i < |d| ==> 48 <= d[i] <= 57) && Value(d) == n && (n > 0 ==> d[0] != 48)
  {
    if n >= 10 {
      DigitsMean(n / 10);
      var d := Digits(n);
      assert d[..|d| - 1] == Digits(n / 10);
    }
  }

  /** A line is shown as its number, a colon, a space and its own bytes. */
  lemma NumberedLine(lines: seq<Bytes>, k: int)
    requires 1 <= k <= |lines|
    ensures Numbered(lines, k, k) == Digits(k) + [58, 32] + lines[k - 1]
  {
  }

  /** Ranges of lines are shown one behind the other, with a line feed between. */
  lemma {:induction false} NumberedSplits(lines: seq<Bytes>, a: int, b: int, c: int)
    requires 1 <= a <= b < c <= |lines|
    ensures Numbered(lines, a, c) == Numbered(lines, a, b) + [10] + Numbered(lines, b + 1, c)
    decreases b - a
  {
    if a < b {
      NumberedSplits(lines, a + 1, b, c);
      var line := Digits(a) + [58, 32] + lines[a - 1];
      assert line + [10] + (Numbered(lines, a + 1, b) + [10] + Numbered(lines, b + 1, c))
          == line + [10] + Numbered(lines, a + 1, b) + [10] + Numbered(lines, b + 1, c);
    }
  }

  function Total(excerpts: seq<Excerpt>): nat {
    if excerpts == [] then 0 else Total(excerpts[..|excerpts| - 1]) + |excerpts[|excerpts| - 1].text|
  }

  predicate SymbolLe(a: Symbol, b: Symbol) { a.ordinal < b.ordinal || (a.ordinal == b.ordinal && a.id <= b.id) }

  /** The candidate's hints, or the file outline, or the file head. */
  function HintsFor(r: Record, c: Candidate, maxLines: nat): seq<Hint> {
    if c.hints != [] then c.hints
    else if r.symbols != [] then
      var sorted := Sort(SymbolLe, r.symbols);
      seq(Min(3, |sorted|), i requires 0 <= i < |sorted| => Hint(sorted[i].start, sorted[i].end, "file-outline", 100 + sorted[i].ordinal))
    else [Hint(1, Min(|r.lines|, maxLines), "file-head", 100)]
  }

  /** Without hints of its own a candidate shows its first symbols, by ordinal and id, or else its first lines. */
  lemma HintsMean(r: Record, c: Candidate, maxLines: nat, i: nat)
    requires i < |HintsFor(r, c, maxLines)|
    ensures c.hints != [] ==> HintsFor(r, c, maxLines) == c.hints
    ensures c.hints == [] && r.symbols == [] ==>
      |HintsFor(r, c, maxLines)| == 1 && HintsFor(r, c, maxLines)[0].start == 1
      && HintsFor(r, c, maxLines)[0].end == (if |r.lines| < maxLines then |r.lines| else maxLines)
    ensures c.hints == [] && r.symbols != [] ==>
      |HintsFor(r, c, maxLines)| == (if |r.symbols| < 3 then |r.symbols| else 3)
      && exists s :: s in r.symbols && HintsFor(r, c, maxLines)[i] == Hint(s.start, s.end, "file-outline", 100 + s.ordinal)
  {
    if c.hints == [] && r.symbols != [] {
      SymbolsSorted(r.symbols);
      SortKeeps(r.symbols, Sort(SymbolLe, r.symbols)[i]);
    }
  }

  lemma SortKeeps(symbols: seq<Symbol>, s: Symbol)
    requires s in Sort(SymbolLe, symbols)
    ensures s in symbols
  {
    SortCorrect(SymbolLe, symbols);
    assert s in multiset(Sort(SymbolLe, symbols));
  }

  lemma SymbolOrder()
    ensures TotalPreorder(SymbolLe)
  {
  }

  /** The outline's symbols come before all that it leaves out. */
  lemma OutlineIsFirst(symbols: seq<Symbol>, i: nat, j: nat)
    requires i < j < |Sort(SymbolLe, symbols)|
    ensures var a, b := Sort(SymbolLe, symbols)[i], Sort(SymbolLe, symbols)[j];
      a.ordinal < b.ordinal || (a.ordinal == b.ordinal && a.id <= b.id)
  {
    SymbolOrder();
    SortCorrect(SymbolLe, symbols);
  }

  /** The excerpt shows exactly the span's lines. */
  predicate Shows(e: Excerpt, s: Span, lines: seq<Bytes>) {
    e.start == s.start && e.end == s.end && e.reasons == s.reasons && 1 <= s.start && s.end <= |lines|
    && e.text == Numbered(lines, s.start, s.end)
  }

  /** Each span has its excerpt, in order. */
  ghost predicate ShowsAll(excerpts: seq<Excerpt>, spans: seq<Span>, lines: seq<Bytes>) {
    |excerpts| == |spans| && forall i :: 0 <= i < |spans| ==> Shows(excerpts[i], spans[i], lines)
  }

  /** Nothing of this file was cut: either its source is omitted by rule, or every normalised hint is shown. */
  ghost predicate Complete(f: ContextFile, r: Record, c: Candidate, maxLines: nat)
    requires maxLines >= 1
  {
    f.path == r.path && f.omitted == Omitted(r) && f.priority == c.priority
    && (f.omitted.Some? ==> f.excerpts == [])
    && (f.omitted.None? ==>
          exists spans :: Normalised(HintsFor(r, c, maxLines), |r.lines|, maxLines, spans) && ShowsAll(f.excerpts, spans, r.lines))
  }

  /** So every line of every hint, confined to the file, is inside some excerpt. */
  lemma EveryHintShown(f: ContextFile, r: Record, c: Candidate, maxLines: nat, j: nat, line: int)
    requires maxLines >= 1 && Complete(f, r, c, maxLines) && f.omitted.None? && r.lines != []
    requires j < |HintsFor(r, c, maxLines)| && Holds(Clamp(HintsFor(r, c, maxLines)[j], |r.lines|, maxLines), line)
    ensures exists i :: 0 <= i < |f.excerpts| && f.excerpts[i].start <= line <= f.excerpts[i].end
  {
    var spans :| Normalised(HintsFor(r, c, maxLines), |r.lines|, maxLines, spans) && ShowsAll(f.excerpts, spans, r.lines);
    assert Covered(spans, line);
    var i :| 0 <= i < |spans| && Holds(spans[i], line);
    assert Shows(f.excerpts[i], spans[i], r.lines);
  }

  /** The excerpt shows the file's own lines under their numbers. */
  predicate Genuine(e: Excerpt, lines: seq<Bytes>) {
    1 <= e.start <= e.end <= |lines| && e.text == Numbered(lines, e.start, e.end)
  }

  ghost predicate AllGenuine(excerpts: seq<Excerpt>, lines: seq<Bytes>) {
    forall i :: 0 <= i < |excerpts| ==> Genuine(excerpts[i], lines)
  }

  /** The first lines of a file, the fallback excerpt. */
  function HeadText(r: Record, maxLines: nat): Bytes {
    Numbered(r.lines, 1, Min(|r.lines|, maxLines))
  }

  lemma TotalMore(excerpts: seq<Excerpt>, e: Excerpt)
    ensures Total(excerpts + [e]) == Total(excerpts) + |e.text|
  {
    assert (excerpts + [e])[..|excerpts|] == excerpts;
  }

  lemma ShowsMore(excerpts: seq<Excerpt>, spans: seq<Span>, i: nat, lines: seq<Bytes>, e: Excerpt)
    requires i < |spans| && ShowsAll(excerpts, spans[..i], lines) && Shows(e, spans[i], lines)
    ensures ShowsAll(excerpts + [e], spans[..i + 1], lines)
  {
  }

  /** The excerpt of a span. */
  function ExcerptOf(s: Span, lines: seq<Bytes>): (e: Excerpt)
    requires 1 <= s.start <= s.end <= |lines|
    ensures Shows(e, s, lines) && Genuine(e, lines)
  {
    Excerpt(s.start, s.end, s.reasons, Numbered(lines, s.start, s.end))
  }

  ghost predicate Within(spans: seq<Span>, lineCount: nat) {
    forall i :: 0 <= i < |spans| ==> 1 <= spans[i].start <= spans[i].end <= lineCount
  }

  /** Of the first `n` spans, one by one, those whose excerpt still fits into the bytes left at its turn. */
  ghost function Fit(spans: seq<Span>, n: nat, lines: seq<Bytes>, remaining: nat): seq<Excerpt>
    requires Within(spans, |lines|) && n <= |spans|
  {
    if n == 0 then []
    else
      var taken, e := Fit(spans, n - 1, lines, remaining), ExcerptOf(spans[n - 1], lines);
      if Total(taken) + |e.text| <= remaining then taken + [e] else taken
  }

  /** Later spans only add excerpts. */
  lemma {:induction false} FitGrows(spans: seq<Span>, i: nat, j: nat, lines: seq<Bytes>, remaining: nat)
    requires Within(spans, |lines|) && i <= j <= |spans|
    ensures Fit(spans, i, lines, remaining) <= Fit(spans, j, lines, remaining)
    decreases j
  {
    if i < j {
      FitGrows(spans, i, j - 1, lines, remaining);
    }
  }

  /** So a span whose excerpt is missing did not fit into the bytes left at its turn. */
  lemma DroppedDidNotFit(spans: seq<Span>, lines: seq<Bytes>, remaining: nat, i: nat)
    requires Within(spans, |lines|) && i < |spans|
    ensures ExcerptOf(spans[i], lines) in Fit(spans, |spans|, lines, remaining)
         || Total(Fit(spans, i, lines, remaining)) + |ExcerptOf(spans[i], lines).text| > remaining
  {
    var taken, e := Fit(spans, i, lines, remaining), ExcerptOf(spans[i], lines);
    if Total(taken) + |e.text| <= remaining {
      FitGrows(spans, i + 1, |spans|, lines, remaining);
      assert Fit(spans, i + 1, lines, remaining) == taken + [e];
      assert Fit(spans, |spans|, lines, remaining)[|taken|] == e;
    }
  }

  /** The excerpts taken from the first `i` spans; all of them unless something was cut. */
  ghost predicate Taken(excerpts: seq<Excerpt>, spans: seq<Span>, i: nat, lines: seq<Bytes>, remaining: nat, cut: bool)
    requires i <= |spans| && Within(spans, |lines|)
  {
    && excerpts == Fit(spans, i, lines, remaining) && AllGenuine(excerpts, lines)
    && if cut then |excerpts| < i else ShowsAll(excerpts, spans[..i], lines)
  }

  lemma TakenMore(excerpts: seq<Excerpt>, spans: seq<Span>, i: nat, lines: seq<Bytes>, remaining: nat, cut: bool)
    requires i < |spans| && Within(spans, |lines|) && Taken(excerpts, spans, i, lines, remaining, cut)
    ensures var e := ExcerptOf(spans[i], lines);
      && Total(excerpts + [e]) == Total(excerpts) + |e.text|
      && if Total(excerpts) + |e.text| <= remaining then Taken(excerpts + [e], spans, i + 1, lines, remaining, cut)
         else Taken(excerpts, spans, i + 1, lines, remaining, true)
  {
    var e := ExcerptOf(spans[i], lines);
    TotalMore(excerpts, e);
    if !cut {
      ShowsMore(excerpts, spans, i, lines, e);
    }
  }

  /** Takes every span that still fits. */
  method TakeExcerpts(spans: seq<Span>, lines: seq<Bytes>, remaining: nat)
    returns (excerpts: seq<Excerpt>, used: nat, cut: bool)
    requires Within(spans, |lines|)
    ensures excerpts == Fit(spans, |spans|, lines, remaining) && used == Total(excerpts) <= remaining && AllGenuine(excerpts, lines)
    ensures !cut ==> ShowsAll(excerpts, spans, lines)
    ensures cut ==> |excerpts| < |spans|
  {
    excerpts, used, cut := [], 0, false;
    for i := 0 to |spans|
      invariant used == Total(excerpts) <= remaining && Taken(excerpts, spans, i, lines, remaining, cut)
    {
      TakenMore(excerpts, spans, i, lines, remaining, cut);
      var e := ExcerptOf(spans[i], lines);
      if |e.text| > remaining - used {
        cut := true;
      } else {
        excerpts := excerpts + [e];
        used := used + |e.text|;
      }
    }
    assert spans[..|spans|] == spans;
  }

  lemma SomeSpan(hints: seq<Hint>, lineCount: nat, maxLines: nat, spans: seq<Span>)
    requires lineCount >= 1 && maxLines >= 1 && hints != [] && Normalised(hints, lineCount, maxLines, spans)
    ensures spans != []
  {
    var s := Clamp(hints[0], lineCount, maxLines);
    assert Holds(s, s.start);
    assert Covered(spans, s.start);
  }

  lemma SomeHint(r: Record, c: Candidate, maxLines: nat)
    ensures HintsFor(r, c, maxLines) != []
  {
    if c.hints == [] && r.symbols != [] {
      SymbolsSorted(r.symbols);
    }
  }

  lemma SymbolsSorted(symbols: seq<Symbol>)
    ensures |Sort(SymbolLe, symbols)| == |symbols|
  {
    SortCorrect(SymbolLe, symbols);
  }

  /** The excerpts are those of the normalised hints that fitted one after the other into the bytes left for
      the file, or, when none did, the file's head. */
  ghost predicate Greedy(f: ContextFile, r: Record, c: Candidate, maxLines: nat, remaining: nat)
    requires maxLines >= 1
  {
    f.omitted.None? ==> exists spans :: FromSpans(f, r, c, maxLines, remaining, spans)
  }

  ghost predicate FromSpans(f: ContextFile, r: Record, c: Candidate, maxLines: nat, remaining: nat, spans: seq<Span>)
    requires maxLines >= 1
  {
    && Normalised(HintsFor(r, c, maxLines), |r.lines|, maxLines, spans) && Within(spans, |r.lines|)
    && (f.excerpts == Fit(spans, |spans|, r.lines, remaining)
        || (Fit(spans, |spans|, r.lines, remaining) == [] && |f.excerpts| == 1 && f.excerpts[0].text == HeadText(r, maxLines)))
  }

  /** The file was selected for this candidate, and some normalised hint did not fit. */
  ghost predicate Shortened(f: ContextFile, c: Candidate, files: map<Path, Record>, maxLines: nat)
    requires maxLines >= 1
  {
    c.path in files && f.path == files[c.path].path
    && exists left: nat, spans ::
         FromSpans(f, files[c.path], c, maxLines, left, spans) && |Fit(spans, |spans|, files[c.path].lines, left)| < |spans|
  }

  /** The excerpts of a file whose source may be shown; nothing when not even the head fits. */
  method ShowSource(r: Record, spans: seq<Span>, maxLines: nat, remaining: nat)
    returns (excerpts: Option<seq<Excerpt>>, used: nat, cut: bool)
    requires maxLines >= 1 && Within(spans, |r.lines|) && (r.lines != [] ==> spans != [])
    ensures excerpts.None? ==> cut && used == 0 && |HeadText(r, maxLines)| > remaining
    ensures excerpts.Some? ==>
              && used == Total(excerpts.value) <= remaining && AllGenuine(excerpts.value, r.lines)
              && (excerpts.value == Fit(spans, |spans|, r.lines, remaining)
                  || (Fit(spans, |spans|, r.lines, remaining) == [] && |excerpts.value| == 1 && excerpts.value[0].text == HeadText(r, maxLines)))
    ensures !cut ==> excerpts.Some? && ShowsAll(excerpts.value, spans, r.lines)
    ensures cut ==> |Fit(spans, |spans|, r.lines, remaining)| < |spans|
  {
    var taken;
    taken, used, cut := TakeExcerpts(spans, r.lines, remaining);
    if taken == [] && remaining > 0 && r.lines != [] {
      var head := ExcerptOf(Span(1, Min(|r.lines|, maxLines), {"file-head"}, 100), r.lines);
      if |head.text| > remaining {
        return None, 0, true;
      }
      TotalMore([], head);
      assert [] + [head] == [head];
      return Some([head]), used + |head.text|, cut;
    }
    excerpts := Some(taken);
  }

  /** One file of the pack. */
  method MaterializeFile(r: Record, c: Candidate, maxLines: nat, remaining: nat)
    returns (file: Option<ContextFile>, used: nat, cut: bool)
    requires maxLines >= 1
    ensures file.None? ==> cut && used == 0 && Omitted(r).None? && |HeadText(r, maxLines)| > remaining
    ensures file.Some? ==>
              && file.value.path == r.path && file.value.priority == c.priority && file.value.omitted == Omitted(r)
              && used == Total(file.value.excerpts) <= remaining && AllGenuine(file.value.excerpts, r.lines)
              && Greedy(file.value, r, c, maxLines, remaining)
    ensures !cut ==> file.Some? && Complete(file.value, r, c, maxLines)
    ensures file.Some? && Omitted(r).Some? ==> file.value.excerpts == [] && !cut
    ensures cut && file.Some? ==> exists spans ::
              FromSpans(file.value, r, c, maxLines, remaining, spans) && |Fit(spans, |spans|, r.lines, remaining)| < |spans|
  {
    var why := Omitted(r);
    if why.Some? {
      return Some(ContextFile(r.path, c.priority, why, [])), 0, false;
    }
    var hints := HintsFor(r, c, maxLines);
    var spans := NormalizeHints(hints, |r.lines|, maxLines);
    SomeHint(r, c, maxLines);
    if r.lines != [] {
      SomeSpan(hints, |r.lines|, maxLines, spans);
    }
    var excerpts;
    excerpts, used, cut := ShowSource(r, spans, maxLines, remaining);
    file := if excerpts.Some? then Some(ContextFile(r.path, c.priority, None, excerpts.value)) else None;
    assert file.Some? ==> FromSpans(file.value, r, c, maxLines, remaining, spans);
  }

  // ----- The selection loop -----

  predicate CandidateLe(a: Candidate, b: Candidate) {
    a.priority < b.priority || (a.priority == b.priority && LexLe(a.path.name, b.path.name))
  }

  lemma CandidateOrder()
    ensures TotalPreorder(CandidateLe)
  {
    LexOrder();
  }

  /** Lower priority numbers first, and among equals the paths in order. */
  ghost predicate InLine(ordered: seq<Candidate>) {
    forall i, j :: 0 <= i < j < |ordered| ==>
      || ordered[i].priority < ordered[j].priority
      || (ordered[i].priority == ordered[j].priority && LexLe(ordered[i].path.name, ordered[j].path.name))
  }

  lemma CandidatesInLine(ordered: seq<Candidate>)
    requires Sorted(CandidateLe, ordered)
    ensures InLine(ordered)
  {
  }

  function BytesOf(files: seq<ContextFile>): nat {
    if files == [] then 0 else BytesOf(files[..|files| - 1]) + Total(files[|files| - 1].excerpts)
  }

  /** The snapshot's records under their paths. */
  ghost predicate Keyed(files: map<Path, Record>) {
    forall p :: p in files ==> files[p].path == p
  }

  ghost predicate HasComplete(selected: seq<ContextFile>, r: Record, c: Candidate, maxLines: nat)
    requires maxLines >= 1
  {
    exists i :: 0 <= i < |selected| && Complete(selected[i], r, c, maxLines)
  }

  /** Every candidate that the snapshot has is selected, complete. */
  ghost predicate AllThere(selected: seq<ContextFile>, candidates: seq<Candidate>, files: map<Path, Record>, maxLines: nat)
    requires maxLines >= 1
  {
    forall k :: 0 <= k < |candidates| && candidates[k].path in files ==>
      HasComplete(selected, files[candidates[k].path], candidates[k], maxLines)
  }

  lemma AllThereGrows(selected: seq<ContextFile>, f: ContextFile, candidates: seq<Candidate>, c: Candidate,
                      files: map<Path, Record>, maxLines: nat)
    requires maxLines >= 1 && AllThere(selected, candidates, files, maxLines)
    requires c.path in files && Complete(f, files[c.path], c, maxLines)
    ensures AllThere(selected + [f], candidates + [c], files, maxLines)
  {
    var more, all := selected + [f], candidates + [c];
    assert more[|selected|] == f;
    forall k | 0 <= k < |all| && all[k].path in files ensures HasComplete(more, files[all[k].path], all[k], maxLines) {
      if k < |candidates| {
        assert all[k] == candidates[k];
        var i :| 0 <= i < |selected| && Complete(selected[i], files[candidates[k].path], candidates[k], maxLines);
        assert Complete(more[i], files[all[k].path], all[k], maxLines);
      } else {
        assert Complete(more[|selected|], files[all[k].path], all[k], maxLines);
      }
    }
  }

  lemma AllTherePermutes(selected: seq<ContextFile>, a: seq<Candidate>, b: seq<Candidate>, files: map<Path, Record>, maxLines: nat)
    requires maxLines >= 1 && AllThere(selected, a, files, maxLines) && multiset(a) == multiset(b)
    ensures AllThere(selected, b, files, maxLines)
  {
    forall k | 0 <= k < |b| && b[k].path in files ensures HasComplete(selected, files[b[k].path], b[k], maxLines) {
      assert b[k] in multiset(a);
      var i :| 0 <= i < |a| && a[i] == b[k];
    }
  }

  ghost predicate Stands(f: ContextFile, c: Candidate, files: map<Path, Record>) {
    && c.path in files && f.path == c.path && f.priority == c.priority && f.omitted == Omitted(files[c.path])
    && AllGenuine(f.excerpts, files[c.path].lines) && (f.omitted.Some? ==> f.excerpts == [])
  }

  /** One candidate's turn: the bytes left for it and what became of it. */
  datatype Turn = Turn(left: int, outcome: Option<ContextFile>)

  /** The files among the outcomes so far. */
  ghost function Kept(trace: seq<Turn>): seq<ContextFile> {
    if trace == [] then []
    else Kept(trace[..|trace| - 1]) + (if trace[|trace| - 1].outcome.Some? then [trace[|trace| - 1].outcome.value] else [])
  }

  /** Each turn has what the files kept before it left over. */
  ghost predicate Budgeted(trace: seq<Turn>, maxBytes: nat) {
    trace == [] ||
      (Budgeted(trace[..|trace| - 1], maxBytes)
       && trace[|trace| - 1].left == maxBytes - BytesOf(Kept(trace[..|trace| - 1])))
  }

  /** What becomes of a candidate, given the bytes left at its turn: it is passed over only if the snapshot
      lacks it or not even its head fits, and otherwise selected with whatever fits. */
  ghost predicate Judged(outcome: Option<ContextFile>, c: Candidate, files: map<Path, Record>, maxLines: nat, left: int)
    requires maxLines >= 1
  {
    left >= 0 &&
      match outcome
      case None => c.path in files ==> Omitted(files[c.path]).None? && |HeadText(files[c.path], maxLines)| > left
      case Some(f) => Stands(f, c, files) && Greedy(f, files[c.path], c, maxLines, left)
  }

  /** The first candidates have been considered, one by one. */
  ghost predicate Considered(selected: seq<ContextFile>, ordered: seq<Candidate>, trace: seq<Turn>,
                             files: map<Path, Record>, maxBytes: nat, maxLines: nat)
    requires maxLines >= 1
  {
    |trace| <= |ordered| && selected == Kept(trace) && Budgeted(trace, maxBytes) && AllJudged(trace, ordered, files, maxLines)
  }

  ghost predicate AllJudged(trace: seq<Turn>, ordered: seq<Candidate>, files: map<Path, Record>, maxLines: nat)
    requires maxLines >= 1 && |trace| <= |ordered|
  {
    forall k :: 0 <= k < |trace| ==> JudgedTurn(trace[k], ordered[k], files, maxLines)
  }

  ghost predicate JudgedTurn(turn: Turn, c: Candidate, files: map<Path, Record>, maxLines: nat)
    requires maxLines >= 1
  {
    Judged(turn.outcome, c, files, maxLines, turn.left)
  }

  lemma JudgedNext(trace: seq<Turn>, ordered: seq<Candidate>, files: map<Path, Record>, maxLines: nat, next: Turn)
    requires maxLines >= 1 && |trace| < |ordered| && AllJudged(trace, ordered, files, maxLines)
    requires JudgedTurn(next, ordered[|trace|], files, maxLines)
    ensures AllJudged(trace + [next], ordered, files, maxLines)
  {
  }

  lemma BudgetedNext(trace: seq<Turn>, maxBytes: nat, next: Turn)
    requires Budgeted(trace, maxBytes) && next.left == maxBytes - BytesOf(Kept(trace))
    ensures Budgeted(trace + [next], maxBytes)
    ensures Kept(trace + [next]) == Kept(trace) + (if next.outcome.Some? then [next.outcome.value] else [])
  {
    assert (trace + [next])[..|trace|] == trace;
  }

  lemma ConsidersNext(selected: seq<ContextFile>, ordered: seq<Candidate>, trace: seq<Turn>,
                      files: map<Path, Record>, maxBytes: nat, maxLines: nat, next: Turn)
    requires maxLines >= 1 && Considered(selected, ordered, trace, files, maxBytes, maxLines) && |trace| < |ordered|
    requires next.left == maxBytes - BytesOf(selected) && Judged(next.outcome, ordered[|trace|], files, maxLines, next.left)
    ensures Considered(selected + (if next.outcome.Some? then [next.outcome.value] else []), ordered, trace + [next],
                       files, maxBytes, maxLines)
  {
    BudgetedNext(trace, maxBytes, next);
    JudgedNext(trace, ordered, files, maxLines, next);
  }

  /** What a selection promises about the candidates in priority order: each was considered fairly, until a
      budget was used up. */
  ghost predicate Selection(selected: seq<ContextFile>, ordered: seq<Candidate>, files: map<Path, Record>,
                            maxFiles: nat, maxBytes: nat, maxLines: nat)
    requires maxLines >= 1
  {
    exists trace ::
      && Considered(selected, ordered, trace, files, maxBytes, maxLines)
      && (|trace| == |ordered| || |selected| == maxFiles || BytesOf(selected) == maxBytes)
  }

  /** The pack stays inside both budgets and takes candidates in priority order, passing one over only
      when its head does not fit. One that is not marked truncated is whole: every candidate present in
      the snapshot is selected with every line of every hint. */
  method Select(candidates: seq<Candidate>, files: map<Path, Record>, maxFiles: nat, maxBytes: nat, maxLines: nat)
    returns (selected: seq<ContextFile>, sourceBytes: nat, truncated: bool)
    requires maxLines >= 1 && Keyed(files)
    ensures |selected| <= maxFiles && sourceBytes == BytesOf(selected) <= maxBytes
    ensures !truncated ==> AllThere(selected, candidates, files, maxLines)
    ensures truncated ==> |selected| < |candidates| || exists f, c :: f in selected && c in candidates && Shortened(f, c, files, maxLines)
    ensures exists ordered :: multiset(ordered) == multiset(candidates) && InLine(ordered)
              && Selection(selected, ordered, files, maxFiles, maxBytes, maxLines)
  {
    CandidateOrder();
    SortCorrect(CandidateLe, candidates);
    var ordered := Sort(CandidateLe, candidates);
    selected, sourceBytes, truncated := SelectOrdered(ordered, files, maxFiles, maxBytes, maxLines);
    CandidatesInLine(ordered);
    assert |ordered| == |multiset(ordered)| == |candidates|;
    forall c | c in ordered ensures c in candidates { assert c in multiset(ordered); }
    if !truncated {
      AllTherePermutes(selected, ordered, candidates, files, maxLines);
    }
  }

  ghost predicate SomeCut(selected: seq<ContextFile>, ordered: seq<Candidate>, files: map<Path, Record>, maxLines: nat)
    requires maxLines >= 1
  {
    exists f, c :: f in selected && c in ordered && Shortened(f, c, files, maxLines)
  }

  lemma CutStays(selected: seq<ContextFile>, f: ContextFile, ordered: seq<Candidate>, files: map<Path, Record>, maxLines: nat)
    requires maxLines >= 1 && SomeCut(selected, ordered, files, maxLines)
    ensures SomeCut(selected + [f], ordered, files, maxLines)
  {
    var g, c :| g in selected && c in ordered && Shortened(g, c, files, maxLines);
    assert g in selected + [f];
  }

  lemma CutNext(was: seq<ContextFile>, f: ContextFile, cut: bool, truncated: bool, ordered: seq<Candidate>, i: nat,
                files: map<Path, Record>, maxLines: nat)
    requires maxLines >= 1 && i < |ordered|
    requires truncated ==> |was| < i || SomeCut(was, ordered, files, maxLines)
    requires cut ==> Shortened(f, ordered[i], files, maxLines)
    ensures truncated || cut ==> |was + [f]| < i + 1 || SomeCut(was + [f], ordered, files, maxLines)
  {
    if SomeCut(was, ordered, files, maxLines) {
      CutStays(was, f, ordered, files, maxLines);
    }
    if cut {
      assert f in was + [f] && ordered[i] in ordered;
    }
  }

  /** The loop's condition after `i` candidates. */
  ghost predicate SoFar(selected: seq<ContextFile>, sourceBytes: nat, truncated: bool, ordered: seq<Candidate>, trace: seq<Turn>, i: nat,
                        files: map<Path, Record>, maxBytes: nat, maxLines: nat)
    requires maxLines >= 1 && i <= |ordered|
  {
    && |selected| <= i && sourceBytes == BytesOf(selected) <= maxBytes
    && (!truncated ==> AllThere(selected, ordered[..i], files, maxLines))
    && (truncated ==> |selected| < i || SomeCut(selected, ordered, files, maxLines))
    && |trace| == i && Considered(selected, ordered, trace, files, maxBytes, maxLines)
  }

  lemma SelectionFrom(selected: seq<ContextFile>, ordered: seq<Candidate>, trace: seq<Turn>,
                      files: map<Path, Record>, maxFiles: nat, maxBytes: nat, maxLines: nat)
    requires maxLines >= 1 && Considered(selected, ordered, trace, files, maxBytes, maxLines)
    requires |trace| == |ordered| || |selected| == maxFiles || BytesOf(selected) == maxBytes
    ensures Selection(selected, ordered, files, maxFiles, maxBytes, maxLines)
  {
  }

  lemma Concludes(selected: seq<ContextFile>, sourceBytes: nat, truncated: bool, ordered: seq<Candidate>, trace: seq<Turn>, i: nat,
                  files: map<Path, Record>, maxFiles: nat, maxBytes: nat, maxLines: nat)
    requires maxLines >= 1 && i <= |ordered| && SoFar(selected, sourceBytes, truncated, ordered, trace, i, files, maxBytes, maxLines)
    ensures i == |ordered| || |selected| == maxFiles || sourceBytes == maxBytes ==>
              Selection(selected, ordered, files, maxFiles, maxBytes, maxLines)
    ensures i == |ordered| && !truncated ==> AllThere(selected, ordered, files, maxLines)
    ensures |selected| >= |ordered| ==> i == |ordered|
    ensures sourceBytes == BytesOf(selected) <= maxBytes
  {
    if i == |ordered| || |selected| == maxFiles || sourceBytes == maxBytes {
      SelectionFrom(selected, ordered, trace, files, maxFiles, maxBytes, maxLines);
    }
    if i == |ordered| && !truncated {
      AllThereWhole(selected, ordered, i, files, maxLines);
    }
  }

  lemma AllThereWhole(selected: seq<ContextFile>, ordered: seq<Candidate>, i: nat, files: map<Path, Record>, maxLines: nat)
    requires maxLines >= 1 && i == |ordered| && AllThere(selected, ordered[..i], files, maxLines)
    ensures AllThere(selected, ordered, files, maxLines)
  {
    assert ordered[..i] == ordered;
  }

  method SelectNext(was: seq<ContextFile>, wasBytes: nat, wasTruncated: bool, ordered: seq<Candidate>, ghost wasTrace: seq<Turn>, i: nat,
                    files: map<Path, Record>, maxBytes: nat, maxLines: nat)
    returns (selected: seq<ContextFile>, sourceBytes: nat, truncated: bool, ghost trace: seq<Turn>)
    requires maxLines >= 1 && Keyed(files) && i < |ordered|
    requires SoFar(was, wasBytes, wasTruncated, ordered, wasTrace, i, files, maxBytes, maxLines)
    ensures SoFar(selected, sourceBytes, truncated, ordered, trace, i + 1, files, maxBytes, maxLines)
    ensures |selected| <= |was| + 1
  {
    var left := maxBytes - wasBytes;
    var file, used, cut := TakeCandidate(ordered[i], files, maxLines, left);
    truncated := wasTruncated || cut;
    ConsidersNext(was, ordered, wasTrace, files, maxBytes, maxLines, Turn(left, file));
    trace := wasTrace + [Turn(left, file)];
    if file.None? {
      AllThereSkips(was, ordered, i, files, maxLines);
      selected, sourceBytes := was, wasBytes;
    } else {
      if !truncated {
        AllThereTakes(was, file.value, ordered, i, files, maxLines);
      }
      CutNext(was, file.value, cut, wasTruncated, ordered, i, files, maxLines);
      BytesMore(was, file.value);
      selected, sourceBytes := was + [file.value], wasBytes + used;
    }
  }

  lemma StartsEmpty(ordered: seq<Candidate>, files: map<Path, Record>, maxBytes: nat, maxLines: nat)
    requires maxLines >= 1
    ensures SoFar([], 0, false, ordered, [], 0, files, maxBytes, maxLines)
  {
  }

  /** What the loop has when it ends. */
  ghost predicate Final(selected: seq<ContextFile>, sourceBytes: nat, truncated: bool, ordered: seq<Candidate>,
                        files: map<Path, Record>, maxFiles: nat, maxBytes: nat, maxLines: nat)
    requires maxLines >= 1
  {
    && |selected| <= maxFiles && sourceBytes == BytesOf(selected) <= maxBytes
    && (!truncated ==> AllThere(selected, ordered, files, maxLines))
    && (truncated ==> |selected| < |ordered| || SomeCut(selected, ordered, files, maxLines))
    && Selection(selected, ordered, files, maxFiles, maxBytes, maxLines)
  }

  /** One turn of the loop; `stop` when a budget is used up. */
  method SelectTurn(was: seq<ContextFile>, wasBytes: nat, wasTruncated: bool, ordered: seq<Candidate>, ghost wasTrace: seq<Turn>, i: nat,
                    files: map<Path, Record>, maxFiles: nat, maxBytes: nat, maxLines: nat)
    returns (selected: seq<ContextFile>, sourceBytes: nat, truncated: bool, ghost trace: seq<Turn>, stop: bool)
    requires maxLines >= 1 && Keyed(files) && i < |ordered| && |was| <= maxFiles
    requires SoFar(was, wasBytes, wasTruncated, ordered, wasTrace, i, files, maxBytes, maxLines)
    ensures stop ==> Final(selected, sourceBytes, truncated, ordered, files, maxFiles, maxBytes, maxLines)
    ensures !stop ==> |selected| <= maxFiles
                      && SoFar(selected, sourceBytes, truncated, ordered, trace, i + 1, files, maxBytes, maxLines)
  {
    if |was| >= maxFiles {
      Concludes(was, wasBytes, wasTruncated, ordered, wasTrace, i, files, maxFiles, maxBytes, maxLines);
      return was, wasBytes, true, wasTrace, true;
    }
    selected, sourceBytes, truncated, trace :=
      SelectNext(was, wasBytes, wasTruncated, ordered, wasTrace, i, files, maxBytes, maxLines);
    stop := |selected| > |was| && sourceBytes >= maxBytes;
    if stop {
      Concludes(selected, sourceBytes, truncated, ordered, trace, i + 1, files, maxFiles, maxBytes, maxLines);
      truncated := truncated || |selected| < |ordered|;
    }
  }

  method SelectOrdered(ordered: seq<Candidate>, files: map<Path, Record>, maxFiles: nat, maxBytes: nat, maxLines: nat)
    returns (selected: seq<ContextFile>, sourceBytes: nat, truncated: bool)
    requires maxLines >= 1 && Keyed(files)
    ensures Final(selected, sourceBytes, truncated, ordered, files, maxFiles, maxBytes, maxLines)
  {
    selected, sourceBytes, truncated := [], 0, false;
    ghost var trace: seq<Turn> := [];
    StartsEmpty(ordered, files, maxBytes, maxLines);
    for i := 0 to |ordered|
      invariant |selected| <= maxFiles && SoFar(selected, sourceBytes, truncated, ordered, trace, i, files, maxBytes, maxLines)
    {
      var stop: bool;
      selected, sourceBytes, truncated, trace, stop :=
        SelectTurn(selected, sourceBytes, truncated, ordered, trace, i, files, maxFiles, maxBytes, maxLines);
      if stop {
        return;
      }
    }
    Concludes(selected, sourceBytes, truncated, ordered, trace, |ordered|, files, maxFiles, maxBytes, maxLines);
  }

  /** One candidate: nothing when the snapshot lacks it or it does not fit. */
  method TakeCandidate(c: Candidate, files: map<Path, Record>, maxLines: nat, remaining: nat)
    returns (file: Option<ContextFile>, used: nat, cut: bool)
    requires maxLines >= 1 && (c.path in files ==> files[c.path].path == c.path)
    ensures file.None? ==> used == 0 && (cut <==> c.path in files)
    ensures Judged(file, c, files, maxLines, remaining)
    ensures file.Some? ==> used == Total(file.value.excerpts) <= remaining
    ensures file.Some? && !cut ==> c.path in files && Complete(file.value, files[c.path], c, maxLines)
    ensures file.Some? && cut ==> Shortened(file.value, c, files, maxLines)
  {
    if c.path !in files {
      return None, 0, false;
    }
    file, used, cut := MaterializeFile(files[c.path], c, maxLines, remaining);
  }

  lemma AllThereSkips(selected: seq<ContextFile>, ordered: seq<Candidate>, i: nat, files: map<Path, Record>, maxLines: nat)
    requires maxLines >= 1 && i < |ordered|
    ensures AllThere(selected, ordered[..i], files, maxLines) && ordered[i].path !in files ==>
              AllThere(selected, ordered[..i + 1], files, maxLines)
  {
  }

  lemma AllThereTakes(selected: seq<ContextFile>, f: ContextFile, ordered: seq<Candidate>, i: nat, files: map<Path, Record>, maxLines: nat)
    requires maxLines >= 1 && i < |ordered| && AllThere(selected, ordered[..i], files, maxLines)
    requires ordered[i].path in files && Complete(f, files[ordered[i].path], ordered[i], maxLines)
    ensures AllThere(selected + [f], ordered[..i + 1], files, maxLines)
  {
    AllThereGrows(selected, f, ordered[..i], ordered[i], files, maxLines);
    assert ordered[..i + 1] == ordered[..i] + [ordered[i]];
  }

  lemma BytesMore(files: seq<ContextFile>, f: ContextFile)
    ensures BytesOf(files + [f]) == BytesOf(files) + Total(f.excerpts)
  {
    assert (files + [f])[..|files|] == files;
  }
}
