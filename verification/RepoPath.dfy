/** Repository-relative paths: validation and normalisation. */
module RepoPath {
  import opened Base

  function SplitSlash(s: string): (r: seq<string>)
    ensures |r| >= 1
  {
    if s == "" then [""]
    else
      var rest := SplitSlash(s[1..]);
      if s[0] == '/' then [""] + rest else [[s[0]] + rest[0]] + rest[1..]
  }

  predicate IsPart(p: string) { p != "" && p != "." }

  function Parts(pieces: seq<string>): seq<string> {
    if pieces == [] then []
    else (if IsPart(pieces[0]) then [pieces[0]] else []) + Parts(pieces[1..])
  }

  function Join(parts: seq<string>): string {
    if parts == [] then "" else if |parts| == 1 then parts[0] else parts[0] + "/" + Join(parts[1..])
  }

  function AsPosix(parts: seq<string>): string {
    if parts == [] then "." else Join(parts)
  }

  predicate Plain(s: string) { '\\' !in s && '\0' !in s }

  /** The accepted spelling of a path, with empty and "." pieces dropped. */
  function Normalise(value: string): Result<string> {
    if value == "" || (|value| >= 2 && value[..2] == "./") || !Plain(value) then Err(UnsafePath)
    else
      var parts := Parts(SplitSlash(value));
      if value[0] == '/' || ".." in parts then Err(UnsafePath) else Ok(AsPosix(parts))
  }

  /** The directory of a path, as its parts. */
  function Parent(path: string): seq<string> {
    var parts := Parts(SplitSlash(path));
    if parts == [] then [] else parts[..|parts| - 1]
  }

  ghost predicate CleanParts(parts: seq<string>) {
    forall i :: 0 <= i < |parts| ==> IsPart(parts[i]) && parts[i] != ".." && '/' !in parts[i] && Plain(parts[i])
  }

  lemma {:induction false} PiecesPlain(s: string)
    requires Plain(s)
    ensures forall i :: 0 <= i < |SplitSlash(s)| ==> '/' !in SplitSlash(s)[i] && Plain(SplitSlash(s)[i])
  {
    if s != "" {
      PiecesPlain(s[1..]);
    }
  }

  lemma {:induction false} PartsPlain(pieces: seq<string>)
    requires forall i :: 0 <= i < |pieces| ==> '/' !in pieces[i] && Plain(pieces[i])
    requires ".." !in Parts(pieces)
    ensures CleanParts(Parts(pieces))
  {
    if pieces != [] {
      assert Parts(pieces) == (if IsPart(pieces[0]) then [pieces[0]] else []) + Parts(pieces[1..]);
      PartsPlain(pieces[1..]);
    }
  }

  lemma {:induction false} SplitPrefix(p: string, s: string)
    requires '/' !in p
    ensures SplitSlash(p + s) == [p + SplitSlash(s)[0]] + SplitSlash(s)[1..]
  {
    if p == "" {
      assert p + s == s && p + SplitSlash(s)[0] == SplitSlash(s)[0];
    } else {
      var h, t := SplitSlash(s)[0], SplitSlash(s)[1..];
      assert (p + s)[1..] == p[1..] + s && (p + s)[0] == p[0];
      SplitPrefix(p[1..], s);
      assert SplitSlash(p[1..] + s)[0] == p[1..] + h && SplitSlash(p[1..] + s)[1..] == t;
      assert [p[0]] + (p[1..] + h) == p + h;
    }
  }

  lemma {:induction false} SplitJoin(parts: seq<string>)
    requires CleanParts(parts) && parts != []
    ensures SplitSlash(Join(parts)) == parts
  {
    if |parts| == 1 {
      SplitPrefix(parts[0], "");
      assert parts[0] + "" == parts[0];
    } else {
      SplitJoin(parts[1..]);
      assert ("/" + Join(parts[1..]))[1..] == Join(parts[1..]);
      assert SplitSlash("/" + Join(parts[1..])) == [""] + parts[1..];
      assert parts[0] + "" == parts[0];
      assert Join(parts) == parts[0] + ("/" + Join(parts[1..]));
      SplitPrefix(parts[0], "/" + Join(parts[1..]));
    }
  }

  lemma {:induction false} PartsOfClean(parts: seq<string>)
    requires CleanParts(parts)
    ensures Parts(parts) == parts
  {
    if parts != [] {
      PartsOfClean(parts[1..]);
    }
  }

  lemma {:induction false} JoinPlain(parts: seq<string>)
    requires CleanParts(parts) && parts != []
    ensures Join(parts) != "" && Plain(Join(parts)) && Join(parts)[0] == parts[0][0]
    ensures |Join(parts)| >= 2 && |parts[0]| >= 2 ==> Join(parts)[1] == parts[0][1]
  {
    if |parts| > 1 {
      JoinPlain(parts[1..]);
    }
  }

  /** Splitting cuts exactly at the slashes: no piece holds one, and joined again they give the text. */
  lemma {:induction false} SplitExactly(s: string)
    ensures Join(SplitSlash(s)) == s && forall i :: 0 <= i < |SplitSlash(s)| ==> '/' !in SplitSlash(s)[i]
  {
    if s != "" {
      SplitExactly(s[1..]);
      var rest := SplitSlash(s[1..]);
      if s[0] == '/' {
        assert Join([""] + rest) == "" + "/" + Join(rest);
      } else {
        assert [[s[0]] + rest[0]] + rest[1..] == SplitSlash(s);
        assert Join(SplitSlash(s)) == [s[0]] + Join(rest);
      }
      assert s == [s[0]] + s[1..];
    }
  }

  /** The parts are the pieces that are neither empty nor ".". */
  lemma {:induction false} PartsFilter(pieces: seq<string>, p: string)
    ensures p in Parts(pieces) <==> p in pieces && p != "" && p != "."
  {
    if pieces != [] {
      PartsFilter(pieces[1..], p);
      assert pieces == [pieces[0]] + pieces[1..];
    }
  }

  /** They keep their order. */
  lemma {:induction false} PartsAppend(a: seq<string>, b: seq<string>)
    ensures Parts(a + b) == Parts(a) + Parts(b)
  {
    if a == [] {
      assert a + b == b;
    } else {
      PartsAppend(a[1..], b);
      assert (a + b)[1..] == a[1..] + b && (a + b)[0] == a[0];
    }
  }

  /** The directory of a path is everything before its last part. */
  lemma ParentOf(parts: seq<string>)
    requires CleanParts(parts) && parts != []
    ensures Parent(Join(parts)) == parts[..|parts| - 1]
  {
    SplitJoin(parts);
    PartsOfClean(parts);
  }

  /** A path is accepted exactly when it is relative, plain, free of ".." and does not start with "./";
      the accepted spelling names the same parts. */
  lemma NormaliseMeans(value: string)
    ensures Normalise(value).Ok? <==>
      && value != "" && value[0] != '/' && !(|value| >= 2 && value[..2] == "./")
      && '\\' !in value && '\0' !in value && ".." !in Parts(SplitSlash(value))
    ensures Normalise(value).Ok? ==> Parts(SplitSlash(Normalise(value).value)) == Parts(SplitSlash(value))
  {
    var parts := Parts(SplitSlash(value));
    if Normalise(value).Ok? {
      PiecesPlain(value);
      PartsPlain(SplitSlash(value));
      if parts == [] {
        assert SplitSlash(".") == ["."] by { assert "."[1..] == ""; }
        assert Parts(["."]) == [];
      } else {
        SplitJoin(parts);
        PartsOfClean(parts);
      }
    }
  }

  /** Normalising an accepted path again changes nothing. */
  lemma NormaliseIdempotent(value: string, path: string)
    requires Normalise(value) == Ok(path)
    ensures Normalise(path) == Ok(path)
  {
    var parts := Parts(SplitSlash(value));
    PiecesPlain(value);
    PartsPlain(SplitSlash(value));
    if parts == [] {
      assert SplitSlash(".") == ["."] by { assert "."[1..] == ""; }
      assert Parts(["."]) == [];
    } else {
      SplitJoin(parts);
      PartsOfClean(parts);
      JoinPlain(parts);
      assert !(|path| >= 2 && path[..2] == "./") by {
        assert parts[0] != ".";
        assert |parts[0]| == 1 ==> parts[0] == [parts[0][0]];
      }
    }
  }
}
