/** What an exact replacement accepts and what it writes, by positions in the text, for every line ending and for none. */
module EditMeaning {
  import opened Base
  import opened ExactText

  // ----- Counting, by positions -----

  predicate OccursAt(s: Bytes, o: Bytes, p: nat) {
    p + |o| <= |s| && s[p..p + |o|] == o
  }

  ghost predicate Occurs(s: Bytes, o: Bytes) {
    exists p: nat :: OccursAt(s, o, p)
  }

  /** Two occurrences that do not overlap. */
  ghost predicate OccursTwice(s: Bytes, o: Bytes) {
    exists p: nat, q: nat :: OccursAt(s, o, p) && OccursAt(s, o, q) && p + |o| <= q
  }

  /** `p` is the first place at which `o` occurs. */
  ghost predicate FirstAt(s: Bytes, o: Bytes, p: nat) {
    OccursAt(s, o, p) && forall q: nat :: q < p ==> !OccursAt(s, o, q)
  }

  lemma Shifted(s: Bytes, o: Bytes, k: nat, p: nat)
    requires k <= |s|
    ensures OccursAt(s[k..], o, p) <==> OccursAt(s, o, k + p)
  {
    if k + p + |o| <= |s| {
      assert s[k..][p..p + |o|] == s[k + p..k + p + |o|];
    }
  }

  lemma PrefixIsOccurrence(s: Bytes, o: Bytes)
    ensures o <= s <==> OccursAt(s, o, 0)
  {
  }

  /** Nothing is counted exactly if there is no occurrence. */
  lemma {:induction false} CountsNone(s: Bytes, o: Bytes)
    requires o != []
    ensures Count(s, o) == 0 <==> !Occurs(s, o)
    decreases |s|
  {
    PrefixIsOccurrence(s, o);
    if |s| >= |o| && !(o <= s) {
      CountsNone(s[1..], o);
      if p: nat :| OccursAt(s, o, p) {
        Shifted(s, o, 1, p - 1);
      }
      if p: nat :| OccursAt(s[1..], o, p) {
        Shifted(s, o, 1, p);
      }
    }
  }

  lemma FirstShifts(s: Bytes, o: Bytes, p: nat)
    requires s != [] && !OccursAt(s, o, 0)
    ensures FirstAt(s[1..], o, p) <==> FirstAt(s, o, p + 1)
  {
    Shifted(s, o, 1, p);
    forall q: nat | q < p ensures OccursAt(s[1..], o, q) <==> OccursAt(s, o, q + 1) {
      Shifted(s, o, 1, q);
    }
    if FirstAt(s[1..], o, p) {
      forall r: nat | r < p + 1 ensures !OccursAt(s, o, r) {
        assert r > 0 ==> !OccursAt(s[1..], o, r - 1);
      }
    }
  }

  /** Counting goes on behind the first occurrence. */
  lemma {:induction false} CountsFirst(s: Bytes, o: Bytes, p: nat, rest: Bytes)
    requires o != [] && FirstAt(s, o, p) && rest == s[p + |o|..]
    ensures Count(s, o) == 1 + Count(rest, o)
    decreases p
  {
    if p == 0 {
      PrefixIsOccurrence(s, o);
    } else {
      CountsFirstLater(s, o, p);
      CountsFirst(s[1..], o, p - 1, rest);
    }
  }

  lemma CountsFirstLater(s: Bytes, o: Bytes, p: nat)
    requires o != [] && FirstAt(s, o, p) && p > 0
    ensures FirstAt(s[1..], o, p - 1) && Count(s, o) == Count(s[1..], o)
    ensures s[1..][p - 1 + |o|..] == s[p + |o|..]
  {
    PrefixIsOccurrence(s, o);
    FirstShifts(s, o, p - 1);
    Skip(s, o, []);
  }

  lemma Regroup(x: byte, a: Bytes, n: Bytes, b: Bytes)
    ensures [x] + (a + n + b) == [x] + a + n + b
  {
  }

  /** The first occurrence is the one that is replaced. */
  lemma {:induction false} ReplacesFirst(s: Bytes, o: Bytes, n: Bytes, p: nat)
    requires o != [] && FirstAt(s, o, p)
    ensures ReplaceFirst(s, o, n) == s[..p] + n + s[p + |o|..]
    decreases p
  {
    PrefixIsOccurrence(s, o);
    if p == 0 {
      assert s[..0] + n + s[|o|..] == n + s[|o|..];
    } else {
      FirstShifts(s, o, p - 1);
      ReplacesFirst(s[1..], o, n, p - 1);
      Skip(s, o, n);
      Regroup(s[0], s[1..][..p - 1], n, s[1..][p - 1 + |o|..]);
      assert s[1..][p - 1 + |o|..] == s[p + |o|..];
      assert [s[0]] + s[1..][..p - 1] == s[..p];
    }
  }

  lemma {:induction false} FirstExists(s: Bytes, o: Bytes) returns (p: nat)
    requires o != [] && Occurs(s, o)
    ensures FirstAt(s, o, p)
    decreases |s|
  {
    if OccursAt(s, o, 0) {
      p := 0;
    } else {
      var r: nat :| OccursAt(s, o, r);
      Shifted(s, o, 1, r - 1);
      assert OccursAt(s[1..], o, r - 1);
      var q := FirstExists(s[1..], o);
      FirstShifts(s, o, q);
      p := q + 1;
    }
  }

  /** Behind the first occurrence there is another exactly if two do not overlap. */
  lemma AnotherBehind(s: Bytes, o: Bytes, p: nat)
    requires FirstAt(s, o, p)
    ensures Occurs(s[p + |o|..], o) <==> OccursTwice(s, o)
  {
    var rest := s[p + |o|..];
    if r: nat :| OccursAt(rest, o, r) {
      Shifted(s, o, p + |o|, r);
      assert OccursAt(s, o, p + |o| + r);
    }
    if a: nat, b: nat :| OccursAt(s, o, a) && OccursAt(s, o, b) && a + |o| <= b {
      Shifted(s, o, p + |o|, b - p - |o|);
    }
  }

  /** More than one is counted exactly if two occurrences do not overlap. */
  lemma CountsSeveral(s: Bytes, o: Bytes)
    requires o != []
    ensures Count(s, o) >= 2 <==> OccursTwice(s, o)
  {
    CountsNone(s, o);
    if Occurs(s, o) {
      var p := FirstExists(s, o);
      CountsFirst(s, o, p, s[p + |o|..]);
      AnotherBehind(s, o, p);
      CountsNone(s[p + |o|..], o);
    }
  }

  /** The old text occurs, and nowhere a second time beside itself. */
  ghost predicate Unambiguous(s: Bytes, o: Bytes) {
    Occurs(s, o) && !OccursTwice(s, o)
  }

  lemma CountsOne(s: Bytes, o: Bytes)
    requires o != []
    ensures Count(s, o) == 1 <==> Unambiguous(s, o)
  {
    CountsNone(s, o);
    CountsSeveral(s, o);
  }

  // ----- One edit -----

  /** `r` is `s` with its first `o` replaced by `n`, everything else in place. */
  ghost predicate Replaces(s: Bytes, o: Bytes, n: Bytes, r: Bytes) {
    exists p: nat :: FirstAt(s, o, p) && r == s[..p] + n + s[p + |o|..]
  }

  /** The new text as it is written: as it stands in a file without one line ending, and otherwise the same text
      with every break spelled like the file's. */
  ghost predicate WrittenAs(text: Bytes, eol: Option<Bytes>, n: Bytes) {
    match eol
    case None => n == text
    case Some(e) => AllBreaks(n, e) && ToLf(n) == ToLf(text)
  }

  /** The old text is found as it stands. */
  ghost predicate EditsDirectly(s: Bytes, eol: Option<Bytes>, e: Edit, r: Bytes) {
    Unambiguous(s, e.oldText) && exists n :: WrittenAs(e.newText, eol, n) && Replaces(s, e.oldText, n, r)
  }

  /** The old text does not occur as it stands, but once its breaks are normalised; the result has the file's ending. */
  ghost predicate EditsNormalised(s: Bytes, eol: Option<Bytes>, e: Edit, r: Bytes) {
    && eol.Some? && HasBreak(e.oldText) && !Occurs(s, e.oldText) && Unambiguous(ToLf(s), ToLf(e.oldText))
    && AllBreaks(r, eol.value) && Replaces(ToLf(s), ToLf(e.oldText), ToLf(e.newText), ToLf(r))
  }

  ghost predicate Edits(s: Bytes, eol: Option<Bytes>, e: Edit, r: Bytes) {
    e.oldText != [] && (EditsDirectly(s, eol, e, r) || EditsNormalised(s, eol, e, r))
  }

  function Rendered(text: Bytes, eol: Option<Bytes>): Bytes {
    if eol.Some? && HasBreak(text) then Expand(ToLf(text), eol.value) else text
  }

  lemma RenderedIsWritten(text: Bytes, eol: Option<Bytes>, n: Bytes)
    requires eol.Some? ==> IsEol(eol.value)
    ensures WrittenAs(text, eol, n) <==> n == Rendered(text, eol)
  {
    if eol.Some? {
      ToLfHasNoCr(text);
      ToLfExpand(ToLf(text), eol.value);
      if !HasBreak(text) { NoBreaksFixed(text, eol.value); }
    }
  }

  lemma ReplacesExactly(s: Bytes, o: Bytes, n: Bytes, r: Bytes)
    requires o != [] && Count(s, o) >= 1
    ensures Replaces(s, o, n, r) <==> r == ReplaceFirst(s, o, n)
  {
    CountsNone(s, o);
    var p := FirstExists(s, o);
    ReplacesFirst(s, o, n, p);
    if q: nat :| FirstAt(s, o, q) && r == s[..q] + n + s[q + |o|..] {
      FirstIsUnique(s, o, p, q);
    }
  }

  lemma FirstIsUnique(s: Bytes, o: Bytes, p: nat, q: nat)
    requires FirstAt(s, o, p) && FirstAt(s, o, q)
    ensures p == q
  {
  }

  lemma DirectExactly(s: Bytes, eol: Option<Bytes>, e: Edit, r: Bytes)
    requires (eol.Some? ==> IsEol(eol.value)) && e.oldText != [] && Count(s, e.oldText) == 1
    ensures EditOnce(s, eol, e) == Ok(r) <==> EditsDirectly(s, eol, e, r)
  {
    CountsOne(s, e.oldText);
    ReplacesExactly(s, e.oldText, Rendered(e.newText, eol), r);
    RenderedIsWritten(e.newText, eol, Rendered(e.newText, eol));
    if n :| WrittenAs(e.newText, eol, n) && Replaces(s, e.oldText, n, r) {
      RenderedIsWritten(e.newText, eol, n);
    }
  }

  lemma NormalisedExactly(s: Bytes, eol: Bytes, e: Edit, r: Bytes)
    requires IsEol(eol) && e.oldText != [] && Count(s, e.oldText) == 0 && HasBreak(e.oldText)
    ensures EditOnce(s, Some(eol), e) == Ok(r) <==> EditsNormalised(s, Some(eol), e, r)
  {
    var t, o, n := ToLf(s), ToLf(e.oldText), ToLf(e.newText);
    CountsNone(s, e.oldText);
    ToLfNonEmpty(e.oldText);
    CountsOne(t, o);
    if Count(t, o) == 1 {
      ToLfHasNoCr(s);
      ToLfHasNoCr(e.newText);
      ReplaceFirstHasNoCr(t, o, n);
      ToLfExpand(ReplaceFirst(t, o, n), eol);
      ReplacesExactly(t, o, n, ToLf(r));
    }
  }

  /** An edit is accepted with result `r` exactly when it makes `r` of the text, for every ending and for none. */
  lemma EditExactly(s: Bytes, eol: Option<Bytes>, e: Edit, r: Bytes)
    requires eol.Some? ==> IsEol(eol.value)
    ensures EditOnce(s, eol, e) == Ok(r) <==> Edits(s, eol, e, r)
  {
    if e.oldText != [] {
      CountsNone(s, e.oldText);
      CountsOne(s, e.oldText);
      if Count(s, e.oldText) == 1 {
        DirectExactly(s, eol, e, r);
      } else if Count(s, e.oldText) == 0 && eol.Some? && HasBreak(e.oldText) {
        NormalisedExactly(s, eol.value, e, r);
      }
    }
  }

  /** An empty old text is malformed; any other refusal is a mismatch. */
  lemma EditRefused(s: Bytes, eol: Option<Bytes>, e: Edit)
    requires EditOnce(s, eol, e).Err?
    ensures EditOnce(s, eol, e).error == if e.oldText == [] then InvalidPayload else ReplaceMismatch
  {
  }

  /** In a file without one line ending an edit is accepted exactly if its old text is found once, and then the new
      text stands in its place as it was given. */
  lemma PlainEdit(s: Bytes, e: Edit, p: nat)
    requires e.oldText != [] && FirstAt(s, e.oldText, p)
    ensures EditOnce(s, None, e) ==
      if OccursTwice(s, e.oldText) then Err(ReplaceMismatch) else Ok(s[..p] + e.newText + s[p + |e.oldText|..])
  {
    var r := s[..p] + e.newText + s[p + |e.oldText|..];
    EditExactly(s, None, e, r);
    CountsOne(s, e.oldText);
    assert WrittenAs(e.newText, None, e.newText) && Replaces(s, e.oldText, e.newText, r);
    if OccursTwice(s, e.oldText) {
      CountsSeveral(s, e.oldText);
    }
  }

  // ----- The whole operation -----

  /** The texts between the edits of a list. */
  ghost predicate IsEditing(s: Bytes, eol: Option<Bytes>, edits: seq<Edit>, texts: seq<Bytes>) {
    && |texts| == |edits| + 1 && texts[0] == s
    && forall i :: 0 <= i < |edits| ==> Edits(texts[i], eol, edits[i], texts[i + 1])
  }

  lemma {:induction false} RunHasTexts(s: Bytes, eol: Option<Bytes>, edits: seq<Edit>) returns (texts: seq<Bytes>)
    requires (eol.Some? ==> IsEol(eol.value)) && RunEdits(s, eol, edits).Ok?
    ensures IsEditing(s, eol, edits, texts) && texts[|edits|] == RunEdits(s, eol, edits).value
    decreases |edits|
  {
    if edits == [] {
      texts := [s];
    } else {
      var next := EditOnce(s, eol, edits[0]).value;
      EditExactly(s, eol, edits[0], next);
      var rest := RunHasTexts(next, eol, edits[1..]);
      EditingGrows(s, eol, edits, rest);
      texts := [s] + rest;
    }
  }

  lemma EditingGrows(s: Bytes, eol: Option<Bytes>, edits: seq<Edit>, rest: seq<Bytes>)
    requires edits != [] && rest != [] && Edits(s, eol, edits[0], rest[0]) && IsEditing(rest[0], eol, edits[1..], rest)
    ensures IsEditing(s, eol, edits, [s] + rest)
  {
    var texts, tail := [s] + rest, edits[1..];
    forall i | 0 <= i < |edits| ensures Edits(texts[i], eol, edits[i], texts[i + 1]) {
      assert i > 0 ==> tail[i - 1] == edits[i] && texts[i] == rest[i - 1] && texts[i + 1] == rest[i];
    }
  }

  lemma {:induction false} TextsAreRun(s: Bytes, eol: Option<Bytes>, edits: seq<Edit>, texts: seq<Bytes>)
    requires (eol.Some? ==> IsEol(eol.value)) && IsEditing(s, eol, edits, texts)
    ensures RunEdits(s, eol, edits) == Ok(texts[|edits|])
    decreases |edits|
  {
    if edits != [] {
      EditExactly(s, eol, edits[0], texts[1]);
      var rest, after := edits[1..], texts[1..];
      forall i | 0 <= i < |rest| ensures Edits(after[i], eol, rest[i], after[i + 1]) {
        assert rest[i] == edits[i + 1] && after[i] == texts[i + 1] && after[i + 1] == texts[i + 2];
      }
      TextsAreRun(texts[1], eol, rest, after);
    }
  }

  /** `r` is the source after all edits, each on the text that the last one left, under the ending of the source. */
  ghost predicate EditsAll(s: Bytes, edits: seq<Edit>, r: Bytes) {
    exists texts :: IsEditing(s, UniformLineEnding(s), edits, texts) && texts[|edits|] == r
  }

  /** The edit loop ends with `r` exactly when the edits make `r` of the text. */
  lemma RunExactly(s: Bytes, edits: seq<Edit>, r: Bytes)
    ensures RunEdits(s, UniformLineEnding(s), edits) == Ok(r) <==> EditsAll(s, edits, r)
  {
    var eol := UniformLineEnding(s);
    if eol.Some? { UniformLineEndingMeaning(s, eol.value); }
    if RunEdits(s, eol, edits).Ok? {
      var texts := RunHasTexts(s, eol, edits);
      assert IsEditing(s, eol, edits, texts);
    }
    if texts :| IsEditing(s, eol, edits, texts) && texts[|edits|] == r {
      TextsAreRun(s, eol, edits, texts);
    }
  }

  /** The operation is accepted with result `r` exactly when the source is the expected one, is text, stays within the
      size limit before and after, and the edits make `r` of it. */
  lemma ReplacementExactly(source: Bytes, expected: Digest, edits: seq<Edit>, isUtf8: Bytes -> bool, r: Bytes)
    ensures TextReplacement(source, expected, edits, isUtf8) == Ok(r) <==>
      expected.preimage == source && isUtf8(source) && |source| <= 1048576 && |r| <= 1048576 && EditsAll(source, edits, r)
  {
    RunExactly(source, edits, r);
  }
}
