/** Exact text replacement that accepts any line-ending spelling and keeps the file's own.
    Text is held as its UTF-8 bytes: CR and LF are single bytes that occur inside no other character,
    so counting and replacing on bytes and on characters agree. */
module ExactText {
  import opened Base

  const LF: byte := 10
  const CR: byte := 13
  const CRLF: Bytes := [CR, LF]
  const MAX_TEXT_FILE_BYTES: nat := 1024 * 1024

  /** Python's str.count: non-overlapping occurrences, leftmost first. */
  function Count(s: Bytes, o: Bytes): nat
    requires o != []
  {
    if |s| < |o| then 0
    else if o <= s then 1 + Count(s[|o|..], o)
    else Count(s[1..], o)
  }

  /** Python's str.replace with a count of one. */
  function ReplaceFirst(s: Bytes, o: Bytes, n: Bytes): Bytes
    requires o != []
  {
    if |s| < |o| then s
    else if o <= s then n + s[|o|..]
    else [s[0]] + ReplaceFirst(s[1..], o, n)
  }

  /** Python's unlimited str.replace. */
  function ReplaceAll(s: Bytes, o: Bytes, n: Bytes): Bytes
    requires o != []
  {
    if |s| < |o| then s
    else if o <= s then n + ReplaceAll(s[|o|..], o, n)
    else [s[0]] + ReplaceAll(s[1..], o, n)
  }

  function ToLf(s: Bytes): Bytes {
    ReplaceAll(ReplaceAll(s, CRLF, [LF]), [CR], [LF])
  }

  function Expand(s: Bytes, eol: Bytes): Bytes {
    ReplaceAll(s, [LF], eol)
  }

  predicate HasBreak(s: Bytes) {
    LF in s || CR in s
  }

  /** The one line ending that the text uses, if it uses exactly one kind. */
  function UniformLineEnding(s: Bytes): Option<Bytes> {
    var withoutCrlf := ReplaceAll(s, CRLF, []);
    var hasCrlf := Count(s, CRLF) > 0;
    var hasLf := LF in withoutCrlf;
    var hasCr := CR in withoutCrlf;
    if hasCrlf && !hasLf && !hasCr then Some(CRLF)
    else if !hasCrlf && hasLf && !hasCr then Some([LF])
    else if !hasCrlf && !hasLf && hasCr then Some([CR])
    else None
  }

  predicate IsEol(eol: Bytes) {
    eol == [LF] || eol == [CR] || eol == CRLF
  }

  /** Every line break in `s` is spelled `eol`: normalising and re-spelling changes nothing. */
  predicate AllBreaks(s: Bytes, eol: Bytes) {
    s == Expand(ToLf(s), eol)
  }

  datatype Edit = Edit(oldText: Bytes, newText: Bytes)

  /** One replacement against the current text. */
  function EditOnce(current: Bytes, eol: Option<Bytes>, e: Edit): Result<Bytes> {
    if e.oldText == [] then Err(InvalidPayload)
    else
      var count := Count(current, e.oldText);
      if count == 1 then
        var rendered := if eol.Some? && HasBreak(e.newText) then Expand(ToLf(e.newText), eol.value) else e.newText;
        Ok(ReplaceFirst(current, e.oldText, rendered))
      else if count == 0 && eol.Some? && HasBreak(e.oldText) then
        if ToLf(e.oldText) == [] || Count(ToLf(current), ToLf(e.oldText)) != 1 then Err(ReplaceMismatch)
        else Ok(Expand(ReplaceFirst(ToLf(current), ToLf(e.oldText), ToLf(e.newText)), eol.value))
      else Err(ReplaceMismatch)
  }

  function RunEdits(current: Bytes, eol: Option<Bytes>, edits: seq<Edit>): Result<Bytes>
    decreases edits
  {
    if edits == [] then Ok(current)
    else
      match EditOnce(current, eol, edits[0])
      case Err(code) => Err(code)
      case Ok(next) => RunEdits(next, eol, edits[1..])
  }

  function LfEdit(e: Edit): Edit {
    Edit(ToLf(e.oldText), ToLf(e.newText))
  }

  function LfEdits(edits: seq<Edit>): (r: seq<Edit>)
    ensures |r| == |edits|
  {
    seq(|edits|, i requires 0 <= i < |edits| => LfEdit(edits[i]))
  }

  /** For a CRLF file an old text must not begin or end inside a line break. */
  predicate WholeBreaks(eol: Bytes, oldText: Bytes) {
    eol == CRLF && oldText != [] ==> oldText[0] != LF && oldText[|oldText| - 1] != CR
  }

  /** The whole operation: hash, size and encoding guards around the replacement loop. */
  method ApplyExactTextReplacement(source: Bytes, expected: Digest, edits: seq<Edit>, isUtf8: Bytes -> bool)
    returns (r: Result<Bytes>)
    ensures r == TextReplacement(source, expected, edits, isUtf8)
  {
    if Sha256(source) != expected {
      return Err(ReplaceMismatch);
    }
    if |source| > MAX_TEXT_FILE_BYTES {
      return Err(PolicyDenied);
    }
    if !isUtf8(source) {
      return Err(InvalidPayload);
    }
    var eol := UniformLineEnding(source);
    var current := source;
    for i := 0 to |edits|
      invariant RunEdits(source, eol, edits) == RunEdits(current, eol, edits[i..])
    {
      assert edits[i..][0] == edits[i] && edits[i..][1..] == edits[i + 1..];
      match EditOnce(current, eol, edits[i]) {
        case Err(code) =>
          return Err(code);
        case Ok(next) =>
          current := next;
      }
    }
    if |current| > MAX_TEXT_FILE_BYTES {
      return Err(PolicyDenied);
    }
    return Ok(current);
  }

  function TextReplacement(source: Bytes, expected: Digest, edits: seq<Edit>, isUtf8: Bytes -> bool): Result<Bytes> {
    if Sha256(source) != expected then Err(ReplaceMismatch)
    else if |source| > MAX_TEXT_FILE_BYTES then Err(PolicyDenied)
    else if !isUtf8(source) then Err(InvalidPayload)
    else
      match RunEdits(source, UniformLineEnding(source), edits)
      case Err(code) => Err(code)
      case Ok(text) => if |text| > MAX_TEXT_FILE_BYTES then Err(PolicyDenied) else Ok(text)
  }

  // ----- Normalising and re-spelling -----

  /** How the two replacement passes of ToLf treat the front of the text. */
  lemma ToLfStep(s: Bytes)
    requires s != []
    ensures s[0] != CR ==> ToLf(s) == [s[0]] + ToLf(s[1..])
    ensures s[0] == CR && |s| > 1 && s[1] == LF ==> ToLf(s) == [LF] + ToLf(s[2..])
    ensures s[0] == CR && !(|s| > 1 && s[1] == LF) ==> ToLf(s) == [LF] + ToLf(s[1..])
  {
    if s[0] == CR && |s| > 1 && s[1] == LF {
      assert CRLF <= s;
      var rest := ReplaceAll(s[2..], CRLF, [LF]);
      assert ReplaceAll(s, CRLF, [LF]) == [LF] + rest;
      assert ([LF] + rest)[1..] == rest;
    } else {
      assert !(CRLF <= s);
      var rest := ReplaceAll(s[1..], CRLF, [LF]);
      assert ReplaceAll(s, CRLF, [LF]) == [s[0]] + rest by {
        if |s| < 2 { assert s == [s[0]] && s[1..] == []; }
      }
      assert ([s[0]] + rest)[1..] == rest;
    }
  }

  lemma ExpandStep(t: Bytes, eol: Bytes)
    requires t != []
    ensures Expand(t, eol) == (if t[0] == LF then eol else [t[0]]) + Expand(t[1..], eol)
  {
    if t[0] == LF { assert [LF] <= t; }
  }

  lemma {:induction false} ToLfHasNoCr(s: Bytes)
    ensures CR !in ToLf(s)
    decreases |s|
  {
    if s != [] {
      ToLfStep(s);
      ToLfHasNoCr(s[1..]);
      if |s| > 1 { ToLfHasNoCr(s[2..]); }
    }
  }

  /** Re-spelling then normalising is the identity on LF text. */
  lemma {:induction false} ToLfExpand(t: Bytes, eol: Bytes)
    requires IsEol(eol) && CR !in t
    ensures ToLf(Expand(t, eol)) == t
  {
    if t != [] {
      ExpandStep(t, eol);
      var rest := Expand(t[1..], eol);
      ToLfExpand(t[1..], eol);
      if rest != [] && eol == [CR] {
        StartsClean(t[1..], eol);
      }
      ToLfStep(Expand(t, eol));
      if t[0] == LF && eol == CRLF {
        assert Expand(t, eol)[2..] == rest;
      } else {
        assert Expand(t, eol)[1..] == rest;
      }
    }
  }

  /** Re-spelled text never begins with LF (unless that is the spelling) and never ends with CR. */
  lemma StartsClean(t: Bytes, eol: Bytes)
    requires IsEol(eol) && CR !in t && t != []
    ensures Expand(t, eol) != []
    ensures eol != [LF] ==> Expand(t, eol)[0] != LF
  {
    ExpandStep(t, eol);
  }

  lemma {:induction false} ExpandAppend(a: Bytes, b: Bytes, eol: Bytes)
    ensures Expand(a + b, eol) == Expand(a, eol) + Expand(b, eol)
  {
    if a == [] {
      assert a + b == b;
    } else {
      ExpandAppend(a[1..], b, eol);
      ExpandStep(a, eol);
      assert (a + b)[1..] == a[1..] + b && (a + b)[0] == a[0];
      ExpandStep(a + b, eol);
      var head := if a[0] == LF then eol else [a[0]];
      Associative(head, Expand(a[1..], eol), Expand(b, eol));
    }
  }

  lemma Associative(a: Bytes, b: Bytes, c: Bytes)
    ensures a + (b + c) == (a + b) + c
  {
  }

  lemma NoBreaksFixed(s: Bytes, eol: Bytes)
    requires !HasBreak(s)
    ensures ToLf(s) == s && Expand(s, eol) == s
  {
    if s != [] {
      ToLfStep(s);
      ExpandStep(s, eol);
      NoBreaksFixed(s[1..], eol);
    }
  }

  // ----- Occurrences survive re-spelling -----

  lemma {:induction false} ExpandPrefix(o: Bytes, t: Bytes, eol: Bytes)
    requires IsEol(eol) && CR !in o && CR !in t
    ensures Expand(o, eol) <= Expand(t, eol) <==> o <= t
  {
    if o == [] {
    } else if t == [] {
      ExpandStep(o, eol);
    } else {
      ExpandStep(o, eol);
      ExpandStep(t, eol);
      ExpandPrefix(o[1..], t[1..], eol);
      assert o <= t <==> o[0] == t[0] && o[1..] <= t[1..];
      if o[0] == t[0] {
        var piece := if t[0] == LF then eol else [t[0]];
        PrefixPeel(piece, Expand(o[1..], eol), Expand(t[1..], eol));
      } else {
        assert o[0] in o && t[0] in t;
        assert Expand(o, eol)[0] != Expand(t, eol)[0];
      }
    }
  }

  lemma PrefixPeel(p: Bytes, a: Bytes, b: Bytes)
    ensures p + a <= p + b <==> a <= b
  {
    if p + a <= p + b {
      assert (p + b)[|p|..][..|a|] == (p + a)[|p|..];
      assert (p + b)[|p|..] == b && (p + a)[|p|..] == a;
    }
    if a <= b {
      assert p + b == p + a + b[|a|..];
    }
  }

  /** Skipping a byte at which `o` does not start changes neither count nor replacement. */
  lemma Skip(s: Bytes, o: Bytes, n: Bytes)
    requires s != [] && o != [] && !(o <= s)
    ensures Count(s, o) == Count(s[1..], o)
    ensures ReplaceFirst(s, o, n) == [s[0]] + ReplaceFirst(s[1..], o, n)
  {
    if |s| < |o| { assert s == [s[0]] + s[1..]; }
  }

  /** Skipping one re-spelled character at which `o` does not start. */
  lemma SkipPiece(t: Bytes, o: Bytes, n: Bytes, eol: Bytes)
    requires IsEol(eol) && t != [] && o != [] && (eol == CRLF ==> o[0] != LF)
    requires !(o <= Expand(t, eol))
    ensures Count(Expand(t, eol), o) == Count(Expand(t[1..], eol), o)
    ensures ReplaceFirst(Expand(t, eol), o, n)
         == Expand([t[0]], eol) + ReplaceFirst(Expand(t[1..], eol), o, n)
  {
    ExpandStep(t, eol);
    ExpandStep([t[0]], eol);
    var s, rest := Expand(t, eol), Expand(t[1..], eol);
    Skip(s, o, n);
    if t[0] == LF && eol == CRLF {
      assert s[1..] == [LF] + rest;
      assert !(o <= s[1..]);
      Skip(s[1..], o, n);
      assert s[1..][1..] == rest;
    } else {
      assert s[1..] == rest;
    }
  }

  lemma {:induction false} CountExpand(t: Bytes, o: Bytes, n: Bytes, eol: Bytes)
    requires IsEol(eol) && CR !in t && CR !in o && o != []
    ensures Expand(o, eol) != []
    ensures Count(Expand(t, eol), Expand(o, eol)) == Count(t, o)
    ensures ReplaceFirst(Expand(t, eol), Expand(o, eol), Expand(n, eol)) == Expand(ReplaceFirst(t, o, n), eol)
    decreases |t|
  {
    StartsClean(o, eol);
    ExpandPrefix(o, t, eol);
    var s, p := Expand(t, eol), Expand(o, eol);
    if o <= t {
      var rest := t[|o|..];
      assert t == o + rest;
      ExpandAppend(o, rest, eol);
      assert s[|p|..] == Expand(rest, eol);
      ExpandAppend(n, rest, eol);
      CountExpand(rest, o, n, eol);
    } else if t != [] {
      CountExpand(t[1..], o, n, eol);
      SkipPiece(t, p, Expand(n, eol), eol);
      Skip(t, o, n);
      ExpandAppend([t[0]], ReplaceFirst(t[1..], o, n), eol);
    }
  }

  /** A prefix of uniform text that does not stop inside a break is itself uniform. */
  lemma {:induction false} PrefixUniform(t: Bytes, o: Bytes, eol: Bytes)
    requires IsEol(eol) && CR !in t && o <= Expand(t, eol)
    requires eol == CRLF && o != [] ==> o[|o| - 1] != CR
    ensures AllBreaks(o, eol)
  {
    if o != [] {
      assert t != [];
      ExpandStep(t, eol);
      var rest := Expand(t[1..], eol);
      var piece := if t[0] == LF then eol else [t[0]];
      assert t[0] in t;
      if t[0] == LF && eol == CRLF {
        assert o[0] == CR && |o| >= 2 && o[1] == LF;
      }
      var tail := o[|piece|..];
      assert o == piece + tail;
      PrefixPeel(piece, tail, rest);
      if tail != [] { assert tail[|tail| - 1] == o[|o| - 1]; }
      PrefixUniform(t[1..], tail, eol);
      if eol == [CR] && tail != [] && t[1..] != [] { StartsClean(t[1..], eol); }
      ToLfStep(o);
      assert o[1..] == tail || (piece == CRLF && o[2..] == tail);
      ExpandStep(ToLf(o), eol);
      assert ToLf(o)[1..] == ToLf(tail);
    }
  }

  /** An old text with a foreign break occurs nowhere in uniform text. */
  lemma {:induction false} ForeignBreaksAbsent(t: Bytes, o: Bytes, eol: Bytes)
    requires IsEol(eol) && CR !in t && o != [] && WholeBreaks(eol, o)
    requires !AllBreaks(o, eol)
    ensures Count(Expand(t, eol), o) == 0
  {
    if o <= Expand(t, eol) {
      PrefixUniform(t, o, eol);
      assert false;
    }
    if t != [] {
      SkipPiece(t, o, [], eol);
      ForeignBreaksAbsent(t[1..], o, eol);
    }
  }

  lemma {:induction false} ReplaceFirstHasNoCr(t: Bytes, o: Bytes, n: Bytes)
    requires CR !in t && CR !in n && o != []
    ensures CR !in ReplaceFirst(t, o, n)
  {
    if |t| >= |o| && !(o <= t) {
      ReplaceFirstHasNoCr(t[1..], o, n);
    }
  }

  lemma {:induction false} ToLfNonEmpty(s: Bytes)
    requires s != []
    ensures ToLf(s) != []
  {
    ToLfStep(s);
  }

  // ----- Replacement commutes with normalisation -----

  /** On LF text with LF edits the code is plain exact replacement. */
  lemma LfEditOnce(t: Bytes, e: Edit)
    requires CR !in t
    ensures EditOnce(t, Some([LF]), LfEdit(e)) ==
      if e.oldText == [] then Err(InvalidPayload)
      else if ToLf(e.oldText) == [] || Count(t, ToLf(e.oldText)) != 1 then Err(ReplaceMismatch)
      else Ok(ReplaceFirst(t, ToLf(e.oldText), ToLf(e.newText)))
  {
    ToLfHasNoCr(e.oldText);
    ToLfHasNoCr(e.newText);
    ExpandLf(ToLf(e.oldText));
    ExpandLf(ToLf(e.newText));
    ToLfExpand(ToLf(e.oldText), [LF]);
    ToLfExpand(ToLf(e.newText), [LF]);
    ExpandLf(t);
    ToLfExpand(t, [LF]);
    if e.oldText != [] { ToLfNonEmpty(e.oldText); }
  }

  lemma {:induction false} ExpandLf(t: Bytes)
    ensures Expand(t, [LF]) == t
  {
    if t != [] {
      ExpandStep(t, [LF]);
      ExpandLf(t[1..]);
    }
  }

  /** One edit: same verdict on the file and on its normal form, and corresponding results. */
  lemma EditCommutes(s: Bytes, eol: Bytes, e: Edit)
    requires IsEol(eol) && AllBreaks(s, eol) && WholeBreaks(eol, e.oldText)
    ensures match EditOnce(s, Some(eol), e)
            case Ok(r) => AllBreaks(r, eol) && EditOnce(ToLf(s), Some([LF]), LfEdit(e)) == Ok(ToLf(r))
            case Err(code) => EditOnce(ToLf(s), Some([LF]), LfEdit(e)) == Err(code)
  {
    var t, o, n := ToLf(s), ToLf(e.oldText), ToLf(e.newText);
    ToLfHasNoCr(s);
    ToLfHasNoCr(e.oldText);
    ToLfHasNoCr(e.newText);
    LfEditOnce(t, e);
    if e.oldText != [] {
      ToLfNonEmpty(e.oldText);
      CountExpand(t, o, n, eol);
      var result := ReplaceFirst(t, o, n);
      ReplaceFirstHasNoCr(t, o, n);
      ToLfExpand(result, eol);
      if AllBreaks(e.oldText, eol) {
        if !HasBreak(e.newText) { NoBreaksFixed(e.newText, eol); }
      } else {
        ForeignBreaksAbsent(t, e.oldText, eol);
        if !HasBreak(e.oldText) { NoBreaksFixed(e.oldText, eol); }
      }
    }
  }

  /** The edit list: for a file with one uniform line ending, every break of the result has that
      ending, and normalising commutes with editing, with the same accept or reject outcome. */
  lemma {:induction false} ReplacementCommutes(s: Bytes, eol: Bytes, edits: seq<Edit>)
    requires IsEol(eol) && AllBreaks(s, eol)
    requires forall i :: 0 <= i < |edits| ==> WholeBreaks(eol, edits[i].oldText)
    ensures match RunEdits(s, Some(eol), edits)
            case Ok(r) => AllBreaks(r, eol) && RunEdits(ToLf(s), Some([LF]), LfEdits(edits)) == Ok(ToLf(r))
            case Err(code) => RunEdits(ToLf(s), Some([LF]), LfEdits(edits)) == Err(code)
    decreases edits
  {
    if edits != [] {
      EditCommutes(s, eol, edits[0]);
      assert LfEdits(edits)[0] == LfEdit(edits[0]);
      assert LfEdits(edits)[1..] == LfEdits(edits[1..]);
      match EditOnce(s, Some(eol), edits[0]) {
        case Err(_) =>
        case Ok(next) => ReplacementCommutes(next, eol, edits[1..]);
      }
    }
  }

  // ----- What the detector detects -----

  lemma {:induction false} DropCrlf(s: Bytes)
    ensures Count(s, CRLF) == 0 ==> ReplaceAll(s, CRLF, []) == s
    ensures !HasBreak(ReplaceAll(s, CRLF, [])) <==> AllBreaks(s, CRLF)
    ensures AllBreaks(s, CRLF) ==> (Count(s, CRLF) > 0 <==> HasBreak(s))
    ensures Count(s, CRLF) > 0 ==> HasBreak(s)
    decreases |s|
  {
    if s != [] {
      ToLfStep(s);
      ToLfHasNoCr(s);
      ExpandStep(ToLf(s), CRLF);
      if CRLF <= s {
        DropCrlf(s[2..]);
        assert ToLf(s)[1..] == ToLf(s[2..]);
        assert s[0] in s && s == CRLF + s[2..];
      } else {
        DropCrlf(s[1..]);
        assert ToLf(s)[1..] == ToLf(s[1..]);
        assert s == [s[0]] + s[1..];
        Skip(s, CRLF, []);
        assert ReplaceAll(s, CRLF, []) == [s[0]] + ReplaceAll(s[1..], CRLF, []);
        if AllBreaks(s, CRLF) && (s[0] == LF || s[0] == CR) {
          assert false;
        }
      }
    }
  }

  lemma {:induction false} SingleSpelling(s: Bytes, eol: Bytes)
    requires eol == [LF] || eol == [CR]
    ensures AllBreaks(s, eol) <==> (if eol == [LF] then CR !in s else LF !in s)
  {
    if s != [] {
      ToLfStep(s);
      ExpandStep(ToLf(s), eol);
      SingleSpelling(s[1..], eol);
      assert s == [s[0]] + s[1..];
      if s[0] == CR && |s| > 1 && s[1] == LF {
        assert s[1] in s;
        assert eol == [CR] ==> s[1..][0] == LF;
        if eol == [CR] && AllBreaks(s, eol) {
          assert Expand(ToLf(s), eol) == [CR] + Expand(ToLf(s[2..]), eol);
          assert s[1..] == Expand(ToLf(s[2..]), eol);
          SpelledCr(ToLf(s[2..]));
          assert false;
        }
      } else {
        assert ToLf(s)[1..] == ToLf(s[1..]);
      }
    }
  }

  lemma {:induction false} SpelledCr(t: Bytes)
    ensures LF !in Expand(t, [CR])
  {
    if t != [] {
      ExpandStep(t, [CR]);
      SpelledCr(t[1..]);
    }
  }

  /** The detector finds an ending exactly when the text has a break and all its breaks are that one. */
  lemma UniformLineEndingMeaning(s: Bytes, eol: Bytes)
    ensures UniformLineEnding(s) == Some(eol) <==> IsEol(eol) && HasBreak(s) && AllBreaks(s, eol)
  {
    DropCrlf(s);
    SingleSpelling(s, [LF]);
    SingleSpelling(s, [CR]);
    CrlfHasBoth(s);
  }

  lemma {:induction false} CrlfHasBoth(s: Bytes)
    ensures Count(s, CRLF) > 0 ==> CR in s && LF in s
  {
    if CRLF <= s {
      assert s[0] == CR && s[1] == LF;
    } else if |s| >= 2 {
      CrlfHasBoth(s[1..]);
    }
  }

  // ----- The CRLF exception is exact -----

  /** Position by position: in CRLF text each CR is followed by LF and each LF follows a CR. */
  lemma {:induction false} CrlfPointwise(t: Bytes, i: nat)
    requires CR !in t && i < |Expand(t, CRLF)|
    ensures var s := Expand(t, CRLF);
      && (s[i] == CR ==> i + 1 < |s| && s[i + 1] == LF)
      && (s[i] == LF ==> i > 0 && s[i - 1] == CR)
  {
    ExpandStep(t, CRLF);
    var k := if t[0] == LF then 2 else 1;
    assert t[0] in t;
    if i >= k {
      CrlfPointwise(t[1..], i - k);
    }
  }

  /** The single direct match that the code replaces. */
  lemma {:induction false} SoleMatch(s: Bytes, o: Bytes, n: Bytes) returns (p: nat)
    requires o != [] && Count(s, o) >= 1
    ensures p + |o| <= |s| && s[p..p + |o|] == o
    ensures ReplaceFirst(s, o, n) == s[..p] + n + s[p + |o|..]
  {
    if o <= s {
      p := 0;
      assert s[..0] + n + s[|o|..] == n + s[|o|..];
    } else {
      var q := SoleMatch(s[1..], o, n);
      p := q + 1;
      assert s[p..p + |o|] == s[1..][q..q + |o|];
      assert s[..p] == [s[0]] + s[1..][..q] && s[p + |o|..] == s[1..][q + |o|..];
    }
  }

  /** ToLf drops exactly the CR of each CRLF pair. */
  lemma {:induction false} ToLfLength(a: Bytes, b: Bytes)
    ensures |ToLf(a + b)| == |ToLf(a)| + |ToLf(b)| -
      (if a != [] && b != [] && a[|a| - 1] == CR && b[0] == LF then 1 else 0)
    decreases |a|
  {
    if a == [] {
      assert a + b == b;
    } else {
      ToLfStep(a);
      ToLfStep(a + b);
      if |a| == 1 {
        assert (a + b)[1..] == b;
        if a[0] == CR && b != [] && b[0] == LF {
          assert (a + b)[2..] == b[1..];
          ToLfStep(b);
        }
      } else if a[0] == CR && a[1] == LF {
        assert (a + b)[2..] == a[2..] + b;
        ToLfLength(a[2..], b);
      } else {
        assert (a + b)[1..] == a[1..] + b;
        ToLfLength(a[1..], b);
      }
    }
  }

  /** Cutting at a leading LF keeps CRLF text uniform only if both halves of the cut fuse. */
  lemma LeadingLf(pre: Bytes, o: Bytes, n: Bytes, post: Bytes)
    requires AllBreaks(pre + o + post, CRLF) && AllBreaks(pre + n + post, CRLF)
    requires o != [] && o[0] == LF && (n != [] ==> n[0] != LF)
    ensures n == [] && pre != [] && pre[|pre| - 1] == CR
    ensures post != [] && post[0] == LF && o[|o| - 1] == CR
  {
    var s, r := pre + o + post, pre + n + post;
    ToLfHasNoCr(s);
    ToLfHasNoCr(r);
    CrlfPointwise(ToLf(s), |pre|);
    assert s[|pre|] == LF && s[|pre| - 1] == pre[|pre| - 1] == CR;
    assert r[|pre| - 1] == CR;
    CrlfPointwise(ToLf(r), |pre| - 1);
    assert n == [] ==> r == pre + post;
    assert post[0] == LF;
    CrlfPointwise(ToLf(s), |pre| + |o|);
    assert s[|pre| + |o| - 1] == o[|o| - 1];
  }

  /** Cutting before a trailing CR alone always leaves a stray LF. */
  lemma TrailingCr(pre: Bytes, o: Bytes, n: Bytes, post: Bytes)
    requires AllBreaks(pre + o + post, CRLF)
    requires o != [] && o[0] != LF && o[|o| - 1] == CR && (n != [] ==> n[|n| - 1] != CR)
    ensures !AllBreaks(pre + n + post, CRLF)
  {
    var s, r := pre + o + post, pre + n + post;
    ToLfHasNoCr(s);
    ToLfHasNoCr(r);
    assert s[|pre| + |o| - 1] == CR;
    CrlfPointwise(ToLf(s), |pre| + |o| - 1);
    assert s[|pre| + |o|] == post[0] == LF;
    if pre != [] {
      CrlfPointwise(ToLf(s), |pre| - 1);
      assert s[|pre|] == o[0];
    }
    assert r[|pre| + |n|] == LF;
    assert |pre| + |n| > 0 ==> r[|pre| + |n| - 1] == if n == [] then pre[|pre| - 1] else n[|n| - 1];
    if AllBreaks(r, CRLF) {
      CrlfPointwise(ToLf(r), |pre| + |n|);
      assert false;
    }
  }

  /** In CRLF text an old text that begins or ends inside a break and matches once is always
      mishandled: a broken line ending is left behind, or normalising no longer commutes. */
  lemma SplitBreakFails(s: Bytes, e: Edit)
    requires AllBreaks(s, CRLF) && e.oldText != [] && Count(s, e.oldText) == 1
    requires !WholeBreaks(CRLF, e.oldText)
    ensures EditOnce(s, Some(CRLF), e).Ok?
    ensures var r := EditOnce(s, Some(CRLF), e).value;
      !(AllBreaks(r, CRLF) && EditOnce(ToLf(s), Some([LF]), LfEdit(e)) == Ok(ToLf(r)))
  {
    var o := e.oldText;
    var n := if HasBreak(e.newText) then Expand(ToLf(e.newText), CRLF) else e.newText;
    var p := SoleMatch(s, o, n);
    DirectEdit(s, e, n);
    RenderedEnds(e.newText, n);
    SplitAt(s, e, n, p);
  }

  lemma DirectEdit(s: Bytes, e: Edit, n: Bytes)
    requires e.oldText != [] && Count(s, e.oldText) == 1
    requires n == if HasBreak(e.newText) then Expand(ToLf(e.newText), CRLF) else e.newText
    ensures EditOnce(s, Some(CRLF), e) == Ok(ReplaceFirst(s, e.oldText, n))
  {
  }

  lemma SplitAt(s: Bytes, e: Edit, n: Bytes, p: nat)
    requires e.oldText != [] && !WholeBreaks(CRLF, e.oldText) && AllBreaks(s, CRLF)
    requires p + |e.oldText| <= |s| && s[p..p + |e.oldText|] == e.oldText
    requires n != [] ==> n[0] != LF && n[|n| - 1] != CR
    requires n == [] ==> ToLf(e.newText) == []
    ensures var r := s[..p] + n + s[p + |e.oldText|..];
      !(AllBreaks(r, CRLF) && EditOnce(ToLf(s), Some([LF]), LfEdit(e)) == Ok(ToLf(r)))
  {
    var pre, post := s[..p], s[p + |e.oldText|..];
    assert s == pre + e.oldText + post;
    if AllBreaks(pre + n + post, CRLF) {
      SplitPieces(pre, n, post, e);
    }
  }

  lemma SplitPieces(pre: Bytes, n: Bytes, post: Bytes, e: Edit)
    requires e.oldText != [] && !WholeBreaks(CRLF, e.oldText)
    requires AllBreaks(pre + e.oldText + post, CRLF) && AllBreaks(pre + n + post, CRLF)
    requires n != [] ==> n[0] != LF && n[|n| - 1] != CR
    requires n == [] ==> ToLf(e.newText) == []
    ensures EditOnce(ToLf(pre + e.oldText + post), Some([LF]), LfEdit(e)) != Ok(ToLf(pre + n + post))
  {
    var o := e.oldText;
    if o[0] == LF {
      LeadingLf(pre, o, n, post);
      SeamLosesABreak(pre, o, post, e);
    } else {
      TrailingCr(pre, o, n, post);
    }
  }

  lemma RenderedEnds(text: Bytes, n: Bytes)
    requires n == if HasBreak(text) then Expand(ToLf(text), CRLF) else text
    ensures n != [] ==> n[0] != LF && n[|n| - 1] != CR
    ensures n == [] ==> ToLf(text) == []
  {
    if HasBreak(text) {
      ToLfHasNoCr(text);
      if ToLf(text) != [] {
        StartsClean(ToLf(text), CRLF);
        CrlfPointwise(ToLf(text), |n| - 1);
      }
    } else {
      if n != [] { assert n[0] in n && n[|n| - 1] in n; }
    }
  }

  /** When the match is cut out of the middle of two breaks, the halves fuse into one. */
  lemma SeamLosesABreak(pre: Bytes, o: Bytes, post: Bytes, e: Edit)
    requires pre != [] && pre[|pre| - 1] == CR && post != [] && post[0] == LF
    requires o != [] && o[0] == LF && o[|o| - 1] == CR
    requires e.oldText == o && ToLf(e.newText) == []
    ensures EditOnce(ToLf(pre + o + post), Some([LF]), LfEdit(e)) != Ok(ToLf(pre + [] + post))
  {
    assert pre + [] + post == pre + post;
    ToLfLength(pre, post);
    ToLfLength(pre + o, post);
    ToLfLength(pre, o);
    assert (pre + o)[|pre + o| - 1] == CR;
    var t := ToLf(pre + o + post);
    ToLfHasNoCr(pre + o + post);
    LfEditOnce(t, e);
    if EditOnce(t, Some([LF]), LfEdit(e)).Ok? {
      var q := SoleMatch(t, ToLf(o), []);
      assert |ReplaceFirst(t, ToLf(o), [])| == |t| - |ToLf(o)|;
    }
  }

  /** Editing the file and editing its LF form give the same verdict and corresponding results, and the
      file keeps its line ending. */
  predicate Commutes(s: Bytes, eol: Bytes, e: Edit) {
    match EditOnce(s, Some(eol), e)
    case Ok(r) => AllBreaks(r, eol) && EditOnce(ToLf(s), Some([LF]), LfEdit(e)) == Ok(ToLf(r))
    case Err(code) => EditOnce(ToLf(s), Some([LF]), LfEdit(e)) == Err(code)
  }

  /** The old text splits no break of the CRLF text, or matches nowhere directly, or is ambiguous in both forms. */
  predicate Harmless(s: Bytes, e: Edit) {
    || WholeBreaks(CRLF, e.oldText)
    || Count(s, e.oldText) == 0
    || (Count(s, e.oldText) >= 2 && (ToLfNonEmpty(e.oldText); Count(ToLf(s), ToLf(e.oldText)) != 1))
  }

  /** Without a direct match the code itself works on the LF form. */
  lemma NoDirectMatch(s: Bytes, e: Edit)
    requires AllBreaks(s, CRLF) && !WholeBreaks(CRLF, e.oldText) && Count(s, e.oldText) == 0
    ensures Commutes(s, CRLF, e)
  {
    var t, o, n := ToLf(s), ToLf(e.oldText), ToLf(e.newText);
    ToLfHasNoCr(s);
    ToLfHasNoCr(e.newText);
    LfEditOnce(t, e);
    ToLfNonEmpty(e.oldText);
    ReplaceFirstHasNoCr(t, o, n);
    ToLfExpand(ReplaceFirst(t, o, n), CRLF);
    assert e.oldText[0] in e.oldText && e.oldText[|e.oldText| - 1] in e.oldText;
  }

  /** With several direct matches the file is refused, so its LF form must be refused as well. */
  lemma SeveralMatches(s: Bytes, e: Edit)
    requires AllBreaks(s, CRLF) && e.oldText != [] && Count(s, e.oldText) >= 2
    ensures EditOnce(s, Some(CRLF), e) == Err(ReplaceMismatch) && ToLf(e.oldText) != []
    ensures Commutes(s, CRLF, e) <==> Count(ToLf(s), ToLf(e.oldText)) != 1
  {
    ToLfHasNoCr(s);
    LfEditOnce(ToLf(s), e);
    ToLfNonEmpty(e.oldText);
  }

  /** In CRLF text an edit commutes with normalisation exactly when it is harmless. */
  lemma CommutesExactly(s: Bytes, e: Edit)
    requires AllBreaks(s, CRLF)
    ensures Commutes(s, CRLF, e) <==> Harmless(s, e)
  {
    if WholeBreaks(CRLF, e.oldText) {
      EditCommutes(s, CRLF, e);
    } else if Count(s, e.oldText) == 0 {
      NoDirectMatch(s, e);
    } else if Count(s, e.oldText) == 1 {
      SplitBreakFails(s, e);
    } else {
      SeveralMatches(s, e);
    }
  }

  /** A whole list of edits, each harmless at its turn. */
  predicate AllHarmless(s: Bytes, edits: seq<Edit>)
    decreases edits
  {
    edits == [] || (Harmless(s, edits[0]) &&
      match EditOnce(s, Some(CRLF), edits[0])
      case Err(_) => true
      case Ok(next) => AllHarmless(next, edits[1..]))
  }

  /** Then the whole list commutes, whatever its old texts look like. */
  lemma {:induction false} HarmlessListCommutes(s: Bytes, edits: seq<Edit>)
    requires AllBreaks(s, CRLF) && AllHarmless(s, edits)
    ensures match RunEdits(s, Some(CRLF), edits)
            case Ok(r) => AllBreaks(r, CRLF) && RunEdits(ToLf(s), Some([LF]), LfEdits(edits)) == Ok(ToLf(r))
            case Err(code) => RunEdits(ToLf(s), Some([LF]), LfEdits(edits)) == Err(code)
    decreases edits
  {
    if edits != [] {
      CommutesExactly(s, edits[0]);
      assert LfEdits(edits)[0] == LfEdit(edits[0]);
      assert LfEdits(edits)[1..] == LfEdits(edits[1..]);
      match EditOnce(s, Some(CRLF), edits[0]) {
        case Err(_) =>
        case Ok(next) => HarmlessListCommutes(next, edits[1..]);
      }
    }
  }

  /** The file is refused as ambiguous although its LF form has one match: three breaks, and an old text
      that reaches from the middle of one into the middle of the next. */
  lemma AmbiguousOnlyInCrlf()
    ensures var s, e := CRLF + CRLF + CRLF, Edit([LF, CR], []);
      && AllBreaks(s, CRLF) && EditOnce(s, Some(CRLF), e) == Err(ReplaceMismatch)
      && EditOnce(ToLf(s), Some([LF]), LfEdit(e)).Ok? && !Commutes(s, CRLF, e)
  {
    var s, e := CRLF + CRLF + CRLF, Edit([LF, CR], []);
    var t: Bytes := [LF, LF, LF];
    ThreeBreaks();
    assert s == [CR, LF, CR, LF, CR, LF];
    var u := s[1..];
    assert u == [LF, CR, LF, CR, LF] && u[2..] == [LF, CR, LF] && u[2..][2..] == [LF];
    var v := u[2..];
    assert !(e.oldText <= s) by { assert s[0] != e.oldText[0]; }
    assert Count(s, e.oldText) == Count(u, e.oldText);
    assert Count(u, e.oldText) == 1 + Count(v, e.oldText);
    assert v[2..] == [LF] && Count(v, e.oldText) == 1;
    assert Count(s, e.oldText) == 2;
    assert t[2..] == [LF] && Count(t, [LF, LF]) == 1;
    SeveralMatches(s, e);
    LfEditOnce(t, e);
  }

  lemma ThreeBreaks()
    ensures ToLf(CRLF + CRLF + CRLF) == [LF, LF, LF] && Expand([LF, LF, LF], CRLF) == CRLF + CRLF + CRLF
    ensures ToLf([LF, CR]) == [LF, LF]
  {
    var one: Bytes, two: Bytes, three: Bytes, split: Bytes, cr: Bytes := [LF], [LF, LF], [LF, LF, LF], [LF, CR], [CR];
    assert three[1..] == two && two[1..] == one && one[1..] == [] && split[1..] == cr && cr[1..] == [];
    ExpandStep(three, CRLF);
    ExpandStep(two, CRLF);
    ExpandStep(one, CRLF);
    assert Expand([], CRLF) == [];
    assert CRLF + [] == CRLF && CRLF + (CRLF + CRLF) == CRLF + CRLF + CRLF;
    assert Expand(three, CRLF) == CRLF + CRLF + CRLF;
    ToLfExpand(three, CRLF);
    ToLfStep(split);
    ToLfStep(cr);
    assert ToLf([]) == [];
  }
}
