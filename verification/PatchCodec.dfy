/** Parsing and printing of multi-file patch documents. */
module PatchCodec {
  import opened Base
  import opened Base64
  import opened RepoPath

  const EDIT_SCHEMA: string := "bdb-edit-operation-v1"
  const FILE_SCHEMA: string := "bdb-file-replacement-v1"
  const TEXT_SCHEMA: string := "bdb-text-replacement-v1"
  const PATCH_SCHEMA: string := "bdb-multi-file-patch-v1"
  const MAX_OPERATIONS: nat := 100
  const MAX_BATCH_CONTENT_BYTES: nat := 8 * 1024 * 1024
  const MAX_TEXT_EDITS: nat := 32
  const MAX_REPLACEMENTS: nat := 64
  const MAX_REPLACEMENT_BYTES: nat := 256 * 1024

  /** The keys these documents know; any other key is `Other`. */
  datatype Key = Schema | Kind | PathKey | SourcePath | DestinationPath | ContentBase64 | ContentSha256
               | ExpectedSha256 | ExpectedSourceSha256 | Replacements | OldText | NewText | Operations | Other(name: string)

  datatype Json = Text(text: string) | List(items: seq<Json>) | Object(fields: map<Key, Json>) | Scalar

  /** Functions the codec takes as given: SHA-256 spelled as text, the hash of a document's canonical
      JSON, the sensitive-path policy, and the UTF-8 length of a string. */
  datatype Env = Env(digest: Bytes -> string, seal: Json -> string, sensitive: string -> bool, utf8: string -> nat)

  datatype EditKind = CreateFile | DeleteFile | RenameFile | MoveFile

  datatype Replacement = Replacement(oldText: string, newText: string)

  datatype Spec =
    | Structural(schema: string, kind: EditKind, source: Option<string>, destination: Option<string>, content: Option<Bytes>,
                 expectedSource: Option<string>, contentSha: Option<string>, sealed: string)
    | ReplaceFile(schema: string, path: string, expected: string, bytes: Bytes, bytesSha: string, sealed: string)
    | ReplaceText(schema: string, path: string, expected: string, replacements: seq<Replacement>,
                  count: nat, textBytes: nat, sealed: string)

  datatype Patch = Patch(schema: string, operations: seq<Spec>, count: nat, contentBytes: nat, sealed: string)

  // ----- Fields -----

  function GetText(d: map<Key, Json>, k: Key, allowEmpty: bool): Result<string> {
    if k in d && d[k].Text? && (allowEmpty || d[k].text != "") then Ok(d[k].text) else Err(InvalidPayload)
  }

  predicate IsDigest(s: string) {
    |s| == 71 && s[..7] == "sha256:" && forall i :: 7 <= i < 71 ==> '0' <= s[i] <= '9' || 'a' <= s[i] <= 'f'
  }

  function GetDigest(d: map<Key, Json>, k: Key): Result<string> {
    match GetText(d, k, false)
    case Err(e) => Err(e)
    case Ok(s) => if IsDigest(s) then Ok(s) else Err(InvalidPayload)
  }

  function GetPath(env: Env, d: map<Key, Json>, k: Key): Result<string> {
    match GetText(d, k, false)
    case Err(e) => Err(e)
    case Ok(s) =>
      match Normalise(s)
      case Err(e) => Err(e)
      case Ok(p) => if env.sensitive(p) then Err(PolicyDenied) else Ok(p)
  }

  /** The content field with its declared hash; `tooLarge` is the code for an oversized body. */
  function GetContent(env: Env, d: map<Key, Json>, tooLarge: ErrorCode): Result<(Bytes, string)> {
    match GetText(d, ContentBase64, true)
    case Err(e) => Err(e)
    case Ok(s) =>
      match DecodeCanonical(s)
      case None => Err(InvalidPayload)
      case Some(data) =>
        if |data| > MAX_STRUCTURAL_CONTENT_BYTES then Err(tooLarge)
        else
          match GetDigest(d, ContentSha256)
          case Err(e) => Err(e)
          case Ok(h) => if env.digest(data) == h then Ok((data, h)) else Err(InvalidPayload)
  }

  function KindName(k: EditKind): string {
    match k
    case CreateFile => "create_file"
    case DeleteFile => "delete_file"
    case RenameFile => "rename_file"
    case MoveFile => "move_file"
  }

  function KindOf(s: string): Option<EditKind> {
    if s == "create_file" then Some(CreateFile)
    else if s == "delete_file" then Some(DeleteFile)
    else if s == "rename_file" then Some(RenameFile)
    else if s == "move_file" then Some(MoveFile)
    else None
  }

  // ----- Structural edits -----

  function CreateDoc(path: string, content: Bytes, sha: string): map<Key, Json> {
    map[Schema := Text(EDIT_SCHEMA), Kind := Text("create_file"), PathKey := Text(path),
        ContentBase64 := Text(Encode(content)), ContentSha256 := Text(sha)]
  }

  function DeleteDoc(path: string, expected: string): map<Key, Json> {
    map[Schema := Text(EDIT_SCHEMA), Kind := Text("delete_file"), PathKey := Text(path), ExpectedSha256 := Text(expected)]
  }

  function RelocateDoc(kind: EditKind, source: string, destination: string, expected: string): map<Key, Json> {
    map[Schema := Text(EDIT_SCHEMA), Kind := Text(KindName(kind)), SourcePath := Text(source),
        DestinationPath := Text(destination), ExpectedSourceSha256 := Text(expected)]
  }

  function ParseCreate(env: Env, d: map<Key, Json>): Result<Spec> {
    if d.Keys != {Schema, Kind, PathKey, ContentBase64, ContentSha256} then Err(InvalidPayload)
    else
      match GetPath(env, d, PathKey)
      case Err(e) => Err(e)
      case Ok(path) =>
        match GetContent(env, d, InvalidPayload)
        case Err(e) => Err(e)
        case Ok(body) =>
          Ok(Structural(EDIT_SCHEMA, CreateFile, None, Some(path), Some(body.0), None, Some(body.1),
                        env.seal(Object(CreateDoc(path, body.0, body.1)))))
  }

  function ParseDelete(env: Env, d: map<Key, Json>): Result<Spec> {
    if d.Keys != {Schema, Kind, PathKey, ExpectedSha256} then Err(InvalidPayload)
    else
      match GetPath(env, d, PathKey)
      case Err(e) => Err(e)
      case Ok(path) =>
        match GetDigest(d, ExpectedSha256)
        case Err(e) => Err(e)
        case Ok(h) =>
          Ok(Structural(EDIT_SCHEMA, DeleteFile, Some(path), None, None, Some(h), None, env.seal(Object(DeleteDoc(path, h)))))
  }

  /** A rename stays in its directory, a move leaves it. */
  predicate Relocates(kind: EditKind, source: string, destination: string) {
    && source != destination
    && (kind.RenameFile? ==> Parent(source) == Parent(destination))
    && (kind.MoveFile? ==> Parent(source) != Parent(destination))
  }

  function ParseRelocation(env: Env, d: map<Key, Json>, kind: EditKind): Result<Spec> {
    if d.Keys != {Schema, Kind, SourcePath, DestinationPath, ExpectedSourceSha256} then Err(InvalidPayload)
    else
      match GetPath(env, d, SourcePath)
      case Err(e) => Err(e)
      case Ok(source) =>
        match GetPath(env, d, DestinationPath)
        case Err(e) => Err(e)
        case Ok(destination) =>
          if !Relocates(kind, source, destination) then Err(InvalidPayload)
          else
            match GetDigest(d, ExpectedSourceSha256)
            case Err(e) => Err(e)
            case Ok(h) =>
              Ok(Structural(EDIT_SCHEMA, kind, Some(source), Some(destination), None, Some(h), None,
                            env.seal(Object(RelocateDoc(kind, source, destination, h)))))
  }

  function ParseStructural(env: Env, d: map<Key, Json>): Result<Spec> {
    match GetText(d, Schema, false)
    case Err(e) => Err(e)
    case Ok(schema) =>
      if schema != EDIT_SCHEMA then Err(UnsupportedSchema)
      else
        match GetText(d, Kind, false)
        case Err(e) => Err(e)
        case Ok(name) =>
          match KindOf(name)
          case None => Err(UnsupportedOperation)
          case Some(CreateFile) => ParseCreate(env, d)
          case Some(DeleteFile) => ParseDelete(env, d)
          case Some(kind) => ParseRelocation(env, d, kind)
  }

  // ----- File replacement -----

  function FileDoc(path: string, expected: string, content: Bytes, sha: string): map<Key, Json> {
    map[Schema := Text(FILE_SCHEMA), Kind := Text("replace_file"), PathKey := Text(path), ExpectedSha256 := Text(expected),
        ContentBase64 := Text(Encode(content)), ContentSha256 := Text(sha)]
  }

  function Tagged(d: map<Key, Json>, keys: set<Key>, schema: string, kind: string): Option<ErrorCode> {
    if d.Keys != keys then Some(InvalidPayload)
    else if GetText(d, Schema, false).Err? then Some(InvalidPayload)
    else if GetText(d, Schema, false).value != schema then Some(UnsupportedSchema)
    else if GetText(d, Kind, false).Err? then Some(InvalidPayload)
    else if GetText(d, Kind, false).value != kind then Some(UnsupportedOperation)
    else None
  }

  function ParseFile(env: Env, d: map<Key, Json>): Result<Spec> {
    match Tagged(d, {Schema, Kind, PathKey, ExpectedSha256, ContentBase64, ContentSha256}, FILE_SCHEMA, "replace_file")
    case Some(e) => Err(e)
    case None =>
      match GetPath(env, d, PathKey)
      case Err(e) => Err(e)
      case Ok(path) =>
        match GetDigest(d, ExpectedSha256)
        case Err(e) => Err(e)
        case Ok(h) =>
          match GetContent(env, d, PolicyDenied)
          case Err(e) => Err(e)
          case Ok(body) =>
            Ok(ReplaceFile(FILE_SCHEMA, path, h, body.0, body.1, env.seal(Object(FileDoc(path, h, body.0, body.1)))))
  }

  // ----- Text replacement -----

  function ReplacementDoc(r: Replacement): Json {
    Object(map[OldText := Text(r.oldText), NewText := Text(r.newText)])
  }

  function ReplacementDocs(rs: seq<Replacement>): seq<Json> {
    if rs == [] then [] else ReplacementDocs(rs[..|rs| - 1]) + [ReplacementDoc(rs[|rs| - 1])]
  }

  function TextDoc(path: string, expected: string, rs: seq<Replacement>): map<Key, Json> {
    map[Schema := Text(TEXT_SCHEMA), Kind := Text("replace_exact_text"), PathKey := Text(path),
        ExpectedSha256 := Text(expected), Replacements := List(ReplacementDocs(rs))]
  }

  function Size(env: Env, r: Replacement): nat { env.utf8(r.oldText) + env.utf8(r.newText) }

  function TextBytes(env: Env, rs: seq<Replacement>): nat {
    if rs == [] then 0 else TextBytes(env, rs[..|rs| - 1]) + Size(env, rs[|rs| - 1])
  }

  function ParseReplacement(j: Json): Result<Replacement> {
    if !j.Object? || j.fields.Keys != {OldText, NewText} then Err(InvalidPayload)
    else
      match GetText(j.fields, OldText, false)
      case Err(e) => Err(e)
      case Ok(o) =>
        match GetText(j.fields, NewText, true)
        case Err(e) => Err(e)
        case Ok(n) => Ok(Replacement(o, n))
  }

  predicate Repeats(rs: seq<Replacement>, o: string) {
    exists i :: 0 <= i < |rs| && rs[i].oldText == o
  }

  /** The replacement list read one by one: no repeated old text, and a running byte limit. */
  function ParseReplacements(env: Env, items: seq<Json>): Result<seq<Replacement>> {
    if items == [] then Ok([])
    else
      match ParseReplacements(env, items[..|items| - 1])
      case Err(e) => Err(e)
      case Ok(rs) =>
        match ParseReplacement(items[|items| - 1])
        case Err(e) => Err(e)
        case Ok(r) =>
          if Repeats(rs, r.oldText) then Err(InvalidPayload)
          else if TextBytes(env, rs) + Size(env, r) > MAX_REPLACEMENT_BYTES then Err(PolicyDenied)
          else Ok(rs + [r])
  }

  /** An error among the first items is the error of the whole list. */
  lemma {:induction false} FirstErrorStays(env: Env, items: seq<Json>, i: nat)
    requires i <= |items| && ParseReplacements(env, items[..i]).Err?
    ensures ParseReplacements(env, items) == ParseReplacements(env, items[..i])
    decreases |items|
  {
    if i < |items| {
      assert items[..|items| - 1][..i] == items[..i];
      FirstErrorStays(env, items[..|items| - 1], i);
    } else {
      assert items[..i] == items;
    }
  }

  /** The reading loop with its running set and byte count. */
  method ReadReplacements(env: Env, items: seq<Json>) returns (r: Result<seq<Replacement>>)
    ensures r == ParseReplacements(env, items)
  {
    var rs: seq<Replacement> := [];
    var seen: set<string> := {};
    var total := 0;
    for i := 0 to |items|
      invariant ParseReplacements(env, items[..i]) == Ok(rs) && total == TextBytes(env, rs)
      invariant forall o :: o in seen <==> Repeats(rs, o)
    {
      assert items[..i + 1][..i] == items[..i];
      var next := ParseReplacement(items[i]);
      if next.Err? {
        FirstErrorStays(env, items, i + 1);
        return Err(next.error);
      }
      if next.value.oldText in seen {
        FirstErrorStays(env, items, i + 1);
        return Err(InvalidPayload);
      }
      total := total + Size(env, next.value);
      if total > MAX_REPLACEMENT_BYTES {
        FirstErrorStays(env, items, i + 1);
        return Err(PolicyDenied);
      }
      RepeatsMore(rs, next.value);
      assert (rs + [next.value])[..|rs|] == rs;
      seen := seen + {next.value.oldText};
      rs := rs + [next.value];
    }
    assert items[..|items|] == items;
    return Ok(rs);
  }

  lemma RepeatsMore(rs: seq<Replacement>, r: Replacement)
    ensures forall o :: Repeats(rs + [r], o) <==> Repeats(rs, o) || o == r.oldText
  {
    forall o ensures Repeats(rs + [r], o) <==> Repeats(rs, o) || o == r.oldText {
      if Repeats(rs, o) {
        var i :| 0 <= i < |rs| && rs[i].oldText == o;
        assert (rs + [r])[i].oldText == o;
      }
      assert (rs + [r])[|rs|] == r;
    }
  }

  function ParseText(env: Env, d: map<Key, Json>): Result<Spec> {
    match Tagged(d, {Schema, Kind, PathKey, ExpectedSha256, Replacements}, TEXT_SCHEMA, "replace_exact_text")
    case Some(e) => Err(e)
    case None =>
      match GetPath(env, d, PathKey)
      case Err(e) => Err(e)
      case Ok(path) =>
        match GetDigest(d, ExpectedSha256)
        case Err(e) => Err(e)
        case Ok(h) =>
          if Replacements !in d || !d[Replacements].List? || d[Replacements].items == [] then Err(InvalidPayload)
          else if |d[Replacements].items| > MAX_REPLACEMENTS then Err(PolicyDenied)
          else
            match ParseReplacements(env, d[Replacements].items)
            case Err(e) => Err(e)
            case Ok(rs) =>
              Ok(ReplaceText(TEXT_SCHEMA, path, h, rs, |rs|, TextBytes(env, rs), env.seal(Object(TextDoc(path, h, rs)))))
  }

  // ----- Printing one operation -----

  /** The document of a spec; incomplete structural specs have none. */
  function Document(s: Spec): Option<map<Key, Json>> {
    match s
    case Structural(schema, CreateFile, _, Some(path), Some(content), _, Some(sha), _) =>
      Some(CreateDoc(path, content, sha)[Schema := Text(schema)])
    case Structural(schema, DeleteFile, Some(path), _, _, Some(expected), _, _) =>
      Some(DeleteDoc(path, expected)[Schema := Text(schema)])
    case Structural(schema, kind, Some(source), Some(destination), _, Some(expected), _, _) =>
      if kind.CreateFile? || kind.DeleteFile? then None
      else Some(RelocateDoc(kind, source, destination, expected)[Schema := Text(schema)])
    case ReplaceFile(schema, path, expected, bytes, sha, _) => Some(FileDoc(path, expected, bytes, sha)[Schema := Text(schema)])
    case ReplaceText(schema, path, expected, rs, _, _, _) => Some(TextDoc(path, expected, rs)[Schema := Text(schema)])
    case _ => None
  }

  function ParseOperation(env: Env, j: Json): Result<Spec> {
    if !j.Object? then Err(InvalidPayload)
    else if Schema in j.fields && j.fields[Schema] == Text(EDIT_SCHEMA) then ParseStructural(env, j.fields)
    else if Schema in j.fields && j.fields[Schema] == Text(FILE_SCHEMA) then ParseFile(env, j.fields)
    else if Schema in j.fields && j.fields[Schema] == Text(TEXT_SCHEMA) then ParseText(env, j.fields)
    else Err(UnsupportedSchema)
  }

  // ----- What a parsed operation looks like -----

  ghost predicate GoodPath(env: Env, p: string) { p != "" && Normalise(p) == Ok(p) && !env.sensitive(p) }

  ghost predicate GoodContent(env: Env, data: Bytes, sha: string) {
    |data| <= MAX_STRUCTURAL_CONTENT_BYTES && IsDigest(sha) && env.digest(data) == sha
  }

  ghost predicate GoodReplacements(env: Env, rs: seq<Replacement>) {
    && TextBytes(env, rs) <= MAX_REPLACEMENT_BYTES
    && (forall i :: 0 <= i < |rs| ==> rs[i].oldText != "")
    && (forall i, j :: 0 <= i < j < |rs| ==> rs[i].oldText != rs[j].oldText)
  }

  /** A well-formed operation, said without the parser. */
  ghost predicate Good(env: Env, s: Spec) {
    match s
    case Structural(schema, CreateFile, None, Some(path), Some(content), None, Some(sha), sealed) =>
      schema == EDIT_SCHEMA && GoodPath(env, path) && GoodContent(env, content, sha)
      && sealed == env.seal(Object(CreateDoc(path, content, sha)))
    case Structural(schema, DeleteFile, Some(path), None, None, Some(h), None, sealed) =>
      schema == EDIT_SCHEMA && GoodPath(env, path) && IsDigest(h) && sealed == env.seal(Object(DeleteDoc(path, h)))
    case Structural(schema, kind, Some(source), Some(destination), None, Some(h), None, sealed) =>
      (kind.RenameFile? || kind.MoveFile?) && schema == EDIT_SCHEMA && GoodPath(env, source) && GoodPath(env, destination)
      && Relocates(kind, source, destination) && IsDigest(h) && sealed == env.seal(Object(RelocateDoc(kind, source, destination, h)))
    case ReplaceFile(schema, path, h, bytes, sha, sealed) =>
      schema == FILE_SCHEMA && GoodPath(env, path) && IsDigest(h) && GoodContent(env, bytes, sha)
      && sealed == env.seal(Object(FileDoc(path, h, bytes, sha)))
    case ReplaceText(schema, path, h, rs, count, textBytes, sealed) =>
      schema == TEXT_SCHEMA && GoodPath(env, path) && IsDigest(h) && rs != [] && |rs| <= MAX_REPLACEMENTS
      && GoodReplacements(env, rs) && count == |rs| && textBytes == TextBytes(env, rs)
      && sealed == env.seal(Object(TextDoc(path, h, rs)))
    case _ => false
  }

  lemma ParsedPath(env: Env, d: map<Key, Json>, k: Key)
    requires GetPath(env, d, k).Ok?
    ensures GoodPath(env, GetPath(env, d, k).value)
  {
    NormaliseIdempotent(d[k].text, GetPath(env, d, k).value);
  }

  lemma PrintedPath(env: Env, d: map<Key, Json>, k: Key, p: string)
    requires k in d && d[k] == Text(p) && GoodPath(env, p)
    ensures GetPath(env, d, k) == Ok(p)
  {
  }

  lemma PrintedContent(env: Env, d: map<Key, Json>, data: Bytes, sha: string, tooLarge: ErrorCode)
    requires ContentBase64 in d && d[ContentBase64] == Text(Encode(data)) && ContentSha256 in d && d[ContentSha256] == Text(sha)
    requires GoodContent(env, data, sha)
    ensures GetContent(env, d, tooLarge) == Ok((data, sha))
  {
    CanonicalBijection(data, Encode(data));
  }

  lemma {:induction false} ParsedReplacements(env: Env, items: seq<Json>)
    requires ParseReplacements(env, items).Ok?
    ensures GoodReplacements(env, ParseReplacements(env, items).value) && |ParseReplacements(env, items).value| == |items|
  {
    if items != [] {
      var init := items[..|items| - 1];
      ParsedReplacements(env, init);
      var rs, r := ParseReplacements(env, init).value, ParseReplacement(items[|items| - 1]).value;
      assert (rs + [r])[..|rs|] == rs;
      assert !Repeats(rs, r.oldText);
    }
  }

  lemma PrintedReplacement(r: Replacement)
    requires r.oldText != ""
    ensures ParseReplacement(ReplacementDoc(r)) == Ok(r)
  {
  }

  lemma InitGood(env: Env, rs: seq<Replacement>)
    requires rs != [] && GoodReplacements(env, rs)
    ensures GoodReplacements(env, rs[..|rs| - 1]) && !Repeats(rs[..|rs| - 1], rs[|rs| - 1].oldText)
    ensures rs[|rs| - 1].oldText != ""
  {
  }

  lemma ParseOneMore(env: Env, items: seq<Json>, j: Json, rs: seq<Replacement>, r: Replacement)
    requires ParseReplacements(env, items) == Ok(rs) && ParseReplacement(j) == Ok(r) && !Repeats(rs, r.oldText)
    requires TextBytes(env, rs) + Size(env, r) <= MAX_REPLACEMENT_BYTES
    ensures ParseReplacements(env, items + [j]) == Ok(rs + [r])
  {
    assert (items + [j])[..|items|] == items;
  }

  lemma {:induction false} PrintedReplacements(env: Env, rs: seq<Replacement>)
    requires GoodReplacements(env, rs)
    ensures ParseReplacements(env, ReplacementDocs(rs)) == Ok(rs) && |ReplacementDocs(rs)| == |rs|
  {
    if rs != [] {
      var init, last := rs[..|rs| - 1], rs[|rs| - 1];
      InitGood(env, rs);
      PrintedReplacements(env, init);
      PrintedReplacement(last);
      ParseOneMore(env, ReplacementDocs(init), ReplacementDoc(last), init, last);
      assert init + [last] == rs;
    }
  }

  // ----- One operation: print then parse -----

  lemma SchemaNames()
    ensures EDIT_SCHEMA != FILE_SCHEMA && FILE_SCHEMA != TEXT_SCHEMA && TEXT_SCHEMA != EDIT_SCHEMA
    ensures EDIT_SCHEMA != "" && FILE_SCHEMA != "" && TEXT_SCHEMA != ""
  {
    assert |EDIT_SCHEMA| == 21 && |FILE_SCHEMA| == 23 && |TEXT_SCHEMA| == 23;
    assert FILE_SCHEMA[4] == 'f' && TEXT_SCHEMA[4] == 't';
  }

  lemma KindNames()
    ensures forall k :: KindName(k) != "" && KindOf(KindName(k)) == Some(k)
  {
    assert "create_file"[0] == 'c' && "delete_file"[0] == 'd' && "rename_file"[0] == 'r' && "move_file"[0] == 'm';
  }

  lemma PrintedCreate(env: Env, s: Spec)
    requires s.Structural? && s.kind.CreateFile? && Good(env, s)
    ensures ParseStructural(env, CreateDoc(s.destination.value, s.content.value, s.contentSha.value)) == Ok(s)
  {
    var d := CreateDoc(s.destination.value, s.content.value, s.contentSha.value);
    SchemaNames();
    KindNames();
    PrintedPath(env, d, PathKey, s.destination.value);
    PrintedContent(env, d, s.content.value, s.contentSha.value, InvalidPayload);
    assert KindOf("create_file") == Some(CreateFile);
    assert ParseCreate(env, d) == Ok(s);
  }

  lemma PrintedDelete(env: Env, s: Spec)
    requires s.Structural? && s.kind.DeleteFile? && Good(env, s)
    ensures ParseStructural(env, DeleteDoc(s.source.value, s.expectedSource.value)) == Ok(s)
  {
    var d := DeleteDoc(s.source.value, s.expectedSource.value);
    SchemaNames();
    KindNames();
    PrintedPath(env, d, PathKey, s.source.value);
    assert KindName(DeleteFile) == "delete_file";
    assert ParseDelete(env, d) == Ok(s);
  }

  lemma PrintedRelocation(env: Env, s: Spec)
    requires s.Structural? && (s.kind.RenameFile? || s.kind.MoveFile?) && Good(env, s)
    ensures ParseStructural(env, RelocateDoc(s.kind, s.source.value, s.destination.value, s.expectedSource.value)) == Ok(s)
  {
    var d := RelocateDoc(s.kind, s.source.value, s.destination.value, s.expectedSource.value);
    SchemaNames();
    KindNames();
    PrintedPath(env, d, SourcePath, s.source.value);
    PrintedPath(env, d, DestinationPath, s.destination.value);
    assert ParseRelocation(env, d, s.kind) == Ok(s);
  }

  lemma PrintedFile(env: Env, s: Spec)
    requires s.ReplaceFile? && Good(env, s)
    ensures ParseFile(env, FileDoc(s.path, s.expected, s.bytes, s.bytesSha)) == Ok(s)
  {
    var d := FileDoc(s.path, s.expected, s.bytes, s.bytesSha);
    SchemaNames();
    PrintedPath(env, d, PathKey, s.path);
    PrintedContent(env, d, s.bytes, s.bytesSha, PolicyDenied);
  }

  lemma TextTagged(path: string, expected: string, rs: seq<Replacement>)
    ensures Tagged(TextDoc(path, expected, rs), {Schema, Kind, PathKey, ExpectedSha256, Replacements},
                   TEXT_SCHEMA, "replace_exact_text") == None
  {
    SchemaNames();
    assert "replace_exact_text"[0] == 'r';
  }

  lemma PrintedDigest(d: map<Key, Json>, k: Key, h: string)
    requires k in d && d[k] == Text(h) && IsDigest(h)
    ensures GetDigest(d, k) == Ok(h)
  {
  }

  lemma PrintedText(env: Env, s: Spec)
    requires s.ReplaceText? && Good(env, s)
    ensures ParseText(env, TextDoc(s.path, s.expected, s.replacements)) == Ok(s)
  {
    var d := TextDoc(s.path, s.expected, s.replacements);
    TextTagged(s.path, s.expected, s.replacements);
    PrintedPath(env, d, PathKey, s.path);
    PrintedDigest(d, ExpectedSha256, s.expected);
    PrintedReplacements(env, s.replacements);
    assert d[Replacements] == List(ReplacementDocs(s.replacements));
  }

  lemma StructuralPrintsBack(env: Env, s: Spec)
    requires s.Structural? && Good(env, s)
    ensures Document(s).Some? && Document(s).value[Schema] == Text(EDIT_SCHEMA)
    ensures ParseStructural(env, Document(s).value) == Ok(s)
  {
    match s.kind
    case CreateFile =>
      PrintedCreate(env, s);
      assert Document(s).value == CreateDoc(s.destination.value, s.content.value, s.contentSha.value);
    case DeleteFile =>
      PrintedDelete(env, s);
      assert Document(s).value == DeleteDoc(s.source.value, s.expectedSource.value);
    case _ =>
      PrintedRelocation(env, s);
      assert Document(s).value == RelocateDoc(s.kind, s.source.value, s.destination.value, s.expectedSource.value);
  }

  lemma FilePrintsBack(env: Env, s: Spec)
    requires s.ReplaceFile? && Good(env, s)
    ensures Document(s).Some? && Document(s).value[Schema] == Text(FILE_SCHEMA) && ParseFile(env, Document(s).value) == Ok(s)
  {
    PrintedFile(env, s);
    assert Document(s).value == FileDoc(s.path, s.expected, s.bytes, s.bytesSha);
  }

  lemma TextPrintsBack(env: Env, s: Spec)
    requires s.ReplaceText? && Good(env, s)
    ensures Document(s).Some? && Document(s).value[Schema] == Text(TEXT_SCHEMA) && ParseText(env, Document(s).value) == Ok(s)
  {
    PrintedText(env, s);
    assert Document(s).value == TextDoc(s.path, s.expected, s.replacements);
  }

  /** A well-formed operation has a document, and parsing it gives the operation back. */
  lemma PrintThenParse(env: Env, s: Spec)
    requires Good(env, s)
    ensures Document(s).Some? && ParseOperation(env, Object(Document(s).value)) == Ok(s)
  {
    SchemaNames();
    if s.Structural? {
      StructuralPrintsBack(env, s);
    } else if s.ReplaceFile? {
      FilePrintsBack(env, s);
    } else {
      TextPrintsBack(env, s);
    }
  }

  lemma ParsedCreate(env: Env, d: map<Key, Json>)
    requires ParseCreate(env, d).Ok?
    ensures Good(env, ParseCreate(env, d).value)
  {
    ParsedPath(env, d, PathKey);
  }

  lemma ParsedDelete(env: Env, d: map<Key, Json>)
    requires ParseDelete(env, d).Ok?
    ensures Good(env, ParseDelete(env, d).value)
  {
    ParsedPath(env, d, PathKey);
  }

  lemma ParsedRelocation(env: Env, d: map<Key, Json>, kind: EditKind)
    requires ParseRelocation(env, d, kind).Ok? && (kind.RenameFile? || kind.MoveFile?)
    ensures Good(env, ParseRelocation(env, d, kind).value)
  {
    ParsedPath(env, d, SourcePath);
    ParsedPath(env, d, DestinationPath);
  }

  lemma ParsedStructural(env: Env, d: map<Key, Json>)
    requires ParseStructural(env, d).Ok?
    ensures Good(env, ParseStructural(env, d).value)
  {
    match KindOf(GetText(d, Kind, false).value)
    case Some(CreateFile) => ParsedCreate(env, d);
    case Some(DeleteFile) => ParsedDelete(env, d);
    case Some(kind) => ParsedRelocation(env, d, kind);
  }

  lemma ParsedFile(env: Env, d: map<Key, Json>)
    requires ParseFile(env, d).Ok?
    ensures Good(env, ParseFile(env, d).value)
  {
    ParsedPath(env, d, PathKey);
  }

  lemma ParsedText(env: Env, d: map<Key, Json>)
    requires ParseText(env, d).Ok?
    ensures Good(env, ParseText(env, d).value)
  {
    ParsedPath(env, d, PathKey);
    ParsedReplacements(env, d[Replacements].items);
  }

  /** The parser returns exactly the well-formed operations. */
  lemma ParserImage(env: Env, s: Spec)
    ensures Good(env, s) <==> exists j :: ParseOperation(env, j) == Ok(s)
  {
    if Good(env, s) {
      PrintThenParse(env, s);
    }
    if j :| ParseOperation(env, j) == Ok(s) {
      ParsedGood(env, j);
    }
  }

  lemma ParsedGood(env: Env, j: Json)
    requires ParseOperation(env, j).Ok?
    ensures Good(env, ParseOperation(env, j).value)
  {
    if j.fields[Schema] == Text(EDIT_SCHEMA) {
      ParsedStructural(env, j.fields);
    } else if j.fields[Schema] == Text(FILE_SCHEMA) {
      ParsedFile(env, j.fields);
    } else {
      ParsedText(env, j.fields);
    }
  }

  /** The structural validator: print, parse, compare. */
  function ValidateStructural(env: Env, s: Spec): Option<ErrorCode>
    requires s.Structural?
  {
    match Document(s)
    case None => Some(InvalidPayload)
    case Some(d) =>
      match ParseStructural(env, d)
      case Err(e) => Some(e)
      case Ok(again) => if again == s then None else Some(InvalidPayload)
  }

  /** It accepts exactly the specs the parser can return. */
  lemma ValidatorExact(env: Env, s: Spec)
    requires s.Structural?
    ensures ValidateStructural(env, s) == None <==> exists j :: ParseOperation(env, j) == Ok(s)
  {
    ParserImage(env, s);
    if Good(env, s) {
      PrintThenParse(env, s);
      SchemaNames();
    } else if Document(s).Some? && ParseStructural(env, Document(s).value).Ok? {
      ParsedStructural(env, Document(s).value);
    }
  }
}
