/** Which field of a patch document becomes which part of an operation, said key by key. */
module DocumentMeaning {
  import opened Base
  import opened PatchCodec
  import opened PatchBatch
  import Base64
  import RepoPath

  /** The field holds this text. */
  predicate Says(d: map<Key, Json>, k: Key, text: string) {
    k in d && d[k] == Text(text)
  }

  /** The field holds a digest: the prefix and sixty-four lower-case hexadecimal figures. */
  predicate SaysDigest(d: map<Key, Json>, k: Key, digest: string) {
    && Says(d, k, digest) && |digest| == 71 && digest[..7] == "sha256:"
    && forall i :: 7 <= i < 71 ==> '0' <= digest[i] <= '9' || 'a' <= digest[i] <= 'f'
  }

  /** The field names this path, up to empty and "." parts. */
  predicate SaysPath(env: Env, d: map<Key, Json>, k: Key, path: string) {
    k in d && d[k].Text? && RepoPath.Normalise(d[k].text) == Ok(path) && !env.sensitive(path)
  }

  /** The content fields spell these bytes and their hash. */
  predicate SaysContent(env: Env, d: map<Key, Json>, content: Bytes, sha: string) {
    && Says(d, ContentBase64, Base64.Encode(content)) && SaysDigest(d, ContentSha256, sha)
    && env.digest(content) == sha && |content| <= 1048576
  }

  /** The list of replacements, in the order of the document. */
  predicate SaysReplacements(d: map<Key, Json>, rs: seq<Replacement>) {
    && Replacements in d && d[Replacements].List? && |d[Replacements].items| == |rs|
    && forall i :: 0 <= i < |rs| ==>
         d[Replacements].items[i].Object? && d[Replacements].items[i].fields == map[OldText := Text(rs[i].oldText), NewText := Text(rs[i].newText)]
  }

  /** What a document of each kind must say for the operation to be read from it. */
  ghost predicate Describes(env: Env, d: map<Key, Json>, s: Spec) {
    match s
    case Structural(_, CreateFile, source, destination, content, expected, sha, _) =>
      && Says(d, Schema, "bdb-edit-operation-v1") && Says(d, Kind, "create_file")
      && source == None && destination.Some? && SaysPath(env, d, PathKey, destination.value)
      && content.Some? && sha.Some? && SaysContent(env, d, content.value, sha.value) && expected == None
    case Structural(_, DeleteFile, source, destination, content, expected, sha, _) =>
      && Says(d, Schema, "bdb-edit-operation-v1") && Says(d, Kind, "delete_file")
      && source.Some? && SaysPath(env, d, PathKey, source.value) && destination == None
      && expected.Some? && SaysDigest(d, ExpectedSha256, expected.value) && content == None && sha == None
    case Structural(_, kind, source, destination, content, expected, sha, _) =>
      && Says(d, Schema, "bdb-edit-operation-v1") && Says(d, Kind, if kind.RenameFile? then "rename_file" else "move_file")
      && source.Some? && SaysPath(env, d, SourcePath, source.value)
      && destination.Some? && SaysPath(env, d, DestinationPath, destination.value) && source != destination
      && (kind.RenameFile? <==> RepoPath.Parent(source.value) == RepoPath.Parent(destination.value))
      && expected.Some? && SaysDigest(d, ExpectedSourceSha256, expected.value) && content == None && sha == None
    case ReplaceFile(_, path, expected, bytes, sha, _) =>
      && Says(d, Schema, "bdb-file-replacement-v1") && Says(d, Kind, "replace_file")
      && SaysPath(env, d, PathKey, path) && SaysDigest(d, ExpectedSha256, expected) && SaysContent(env, d, bytes, sha)
    case ReplaceText(_, path, expected, rs, count, textBytes, _) =>
      && Says(d, Schema, "bdb-text-replacement-v1") && Says(d, Kind, "replace_exact_text")
      && SaysPath(env, d, PathKey, path) && SaysDigest(d, ExpectedSha256, expected) && SaysReplacements(d, rs)
      && 1 <= |rs| <= 64 && count == |rs| && textBytes == TextBytes(env, rs) && textBytes <= 262144
      && (forall i :: 0 <= i < |rs| ==> rs[i].oldText != "")
      && (forall i, j :: 0 <= i < j < |rs| ==> rs[i].oldText != rs[j].oldText)
  }

  lemma PathSaid(env: Env, d: map<Key, Json>, k: Key)
    requires GetPath(env, d, k).Ok?
    ensures SaysPath(env, d, k, GetPath(env, d, k).value)
  {
  }

  lemma DigestSaid(d: map<Key, Json>, k: Key)
    requires GetDigest(d, k).Ok?
    ensures SaysDigest(d, k, GetDigest(d, k).value)
  {
  }

  lemma ContentSaid(env: Env, d: map<Key, Json>, tooLarge: ErrorCode)
    requires GetContent(env, d, tooLarge).Ok?
    ensures SaysContent(env, d, GetContent(env, d, tooLarge).value.0, GetContent(env, d, tooLarge).value.1)
  {
    var body := GetContent(env, d, tooLarge).value;
    DigestSaid(d, ContentSha256);
    Base64.CanonicalBijection(body.0, d[ContentBase64].text);
  }

  lemma CreateSaid(env: Env, d: map<Key, Json>)
    requires Says(d, Schema, "bdb-edit-operation-v1") && Says(d, Kind, "create_file") && ParseCreate(env, d).Ok?
    ensures Describes(env, d, ParseCreate(env, d).value)
  {
    PathSaid(env, d, PathKey);
    ContentSaid(env, d, InvalidPayload);
  }

  lemma DeleteSaid(env: Env, d: map<Key, Json>)
    requires Says(d, Schema, "bdb-edit-operation-v1") && Says(d, Kind, "delete_file") && ParseDelete(env, d).Ok?
    ensures Describes(env, d, ParseDelete(env, d).value)
  {
    PathSaid(env, d, PathKey);
    DigestSaid(d, ExpectedSha256);
  }

  lemma RelocationSaid(env: Env, d: map<Key, Json>, kind: EditKind)
    requires (kind.RenameFile? && Says(d, Kind, "rename_file")) || (kind.MoveFile? && Says(d, Kind, "move_file"))
    requires Says(d, Schema, "bdb-edit-operation-v1") && ParseRelocation(env, d, kind).Ok?
    ensures Describes(env, d, ParseRelocation(env, d, kind).value)
  {
    PathSaid(env, d, SourcePath);
    PathSaid(env, d, DestinationPath);
    DigestSaid(d, ExpectedSourceSha256);
  }

  lemma KindSaid(d: map<Key, Json>, name: string)
    requires KindOf(name).Some?
    ensures name == match KindOf(name).value
      case CreateFile => "create_file" case DeleteFile => "delete_file" case RenameFile => "rename_file" case MoveFile => "move_file"
  {
  }

  lemma StructuralSaid(env: Env, d: map<Key, Json>)
    requires Says(d, Schema, "bdb-edit-operation-v1") && ParseStructural(env, d).Ok?
    ensures Describes(env, d, ParseStructural(env, d).value)
  {
    var name := GetText(d, Kind, false).value;
    KindSaid(d, name);
    match KindOf(name)
    case Some(CreateFile) => CreateSaid(env, d);
    case Some(DeleteFile) => DeleteSaid(env, d);
    case Some(kind) => RelocationSaid(env, d, kind);
  }

  lemma FileSaid(env: Env, d: map<Key, Json>)
    requires ParseFile(env, d).Ok?
    ensures Describes(env, d, ParseFile(env, d).value)
  {
    PathSaid(env, d, PathKey);
    DigestSaid(d, ExpectedSha256);
    ContentSaid(env, d, PolicyDenied);
  }

  lemma {:induction false} ReplacementsSaid(env: Env, items: seq<Json>, i: nat)
    requires ParseReplacements(env, items).Ok? && i < |items|
    ensures |ParseReplacements(env, items).value| == |items| && items[i].Object?
    ensures var r := ParseReplacements(env, items).value[i];
      items[i].fields == map[OldText := Text(r.oldText), NewText := Text(r.newText)]
  {
    var init, last := items[..|items| - 1], items[|items| - 1];
    ParsedReplacements(env, items);
    ParsedReplacements(env, init);
    if i < |init| {
      ReplacementsSaid(env, init, i);
    } else {
      OneReplacementSaid(last);
    }
  }

  lemma OneReplacementSaid(j: Json)
    requires ParseReplacement(j).Ok?
    ensures j.Object? && j.fields == map[OldText := Text(ParseReplacement(j).value.oldText), NewText := Text(ParseReplacement(j).value.newText)]
  {
    assert j.fields.Keys == {OldText, NewText};
  }

  lemma TextSaid(env: Env, d: map<Key, Json>)
    requires ParseText(env, d).Ok?
    ensures Describes(env, d, ParseText(env, d).value)
  {
    PathSaid(env, d, PathKey);
    DigestSaid(d, ExpectedSha256);
    var items := d[Replacements].items;
    ParsedReplacements(env, items);
    forall i | 0 <= i < |items|
      ensures items[i].Object?
      ensures var r := ParseReplacements(env, items).value[i];
        items[i].fields == map[OldText := Text(r.oldText), NewText := Text(r.newText)]
    {
      ReplacementsSaid(env, items, i);
    }
  }

  /** Whatever the parser reads is what the document says, field by field. */
  lemma ParsedIsSaid(env: Env, j: Json, s: Spec)
    requires ParseOperation(env, j) == Ok(s)
    ensures j.Object? && Describes(env, j.fields, s)
  {
    if Says(j.fields, Schema, "bdb-edit-operation-v1") {
      StructuralSaid(env, j.fields);
    } else if Says(j.fields, Schema, "bdb-file-replacement-v1") {
      FileSaid(env, j.fields);
    } else {
      TextSaid(env, j.fields);
    }
  }

  /** A document describes at most one operation, apart from the byte count and the seal, which are computed from it. */
  lemma DescribedOnce(env: Env, d: map<Key, Json>, a: Spec, b: Spec)
    requires Describes(env, d, a) && Describes(env, d, b)
    ensures a.Structural? && b.Structural? ==>
      a.kind == b.kind && a.source == b.source && a.destination == b.destination && a.content == b.content
      && a.expectedSource == b.expectedSource && a.contentSha == b.contentSha
    ensures a.ReplaceFile? && b.ReplaceFile? ==> a.path == b.path && a.expected == b.expected && a.bytes == b.bytes && a.bytesSha == b.bytesSha
    ensures a.ReplaceText? && b.ReplaceText? ==> a.path == b.path && a.expected == b.expected && |a.replacements| == |b.replacements|
  {
    if a.Structural? && b.Structural? && a.content.Some? && b.content.Some? {
      Base64.CanonicalBijection(a.content.value, Base64.Encode(b.content.value));
      Base64.CanonicalBijection(b.content.value, Base64.Encode(b.content.value));
    }
    if a.ReplaceFile? && b.ReplaceFile? {
      Base64.CanonicalBijection(a.bytes, Base64.Encode(b.bytes));
      Base64.CanonicalBijection(b.bytes, Base64.Encode(b.bytes));
    }
  }

  // ----- What the limits count -----

  /** Replacements count with the bytes of both their texts. */
  lemma TextBytesMean(env: Env, rs: seq<Replacement>, r: Replacement)
    ensures TextBytes(env, []) == 0
    ensures TextBytes(env, rs + [r]) == TextBytes(env, rs) + env.utf8(r.oldText) + env.utf8(r.newText)
  {
    assert (rs + [r])[..|rs|] == rs;
  }

  /** Each operation counts with the bytes it brings, a text replacement also as an edit with its replacements. */
  lemma TotalsMean(specs: seq<Spec>, s: Spec)
    ensures Sum([]) == Totals(0, 0, 0)
    ensures var was, now := Sum(specs), Sum(specs + [s]);
      match s
      case ReplaceFile(_, _, _, bytes, _, _) =>
        now.textEdits == was.textEdits && now.replacements == was.replacements && now.contentBytes == was.contentBytes + |bytes|
      case ReplaceText(_, _, _, _, count, textBytes, _) =>
        now.textEdits == was.textEdits + 1 && now.replacements == was.replacements + count && now.contentBytes == was.contentBytes + textBytes
      case Structural(_, kind, _, _, content, _, _, _) =>
        now.textEdits == was.textEdits && now.replacements == was.replacements
        && now.contentBytes == was.contentBytes + (if kind.CreateFile? && content.Some? then |content.value| else 0)
  {
    SumMore(specs, s);
  }

  // ----- Whole patches -----

  /** The document describes the operation. */
  ghost predicate Tells(env: Env, j: Json, s: Spec) {
    j.Object? && Describes(env, j.fields, s)
  }

  ghost predicate AllTell(env: Env, items: seq<Json>, specs: seq<Spec>) {
    |specs| == |items| && forall i :: 0 <= i < |items| ==> Tells(env, items[i], specs[i])
  }

  lemma OneMoreTells(env: Env, items: seq<Json>, specs: seq<Spec>, init: seq<Json>, before: seq<Spec>)
    requires items != [] && specs != [] && init == items[..|items| - 1] && before == specs[..|specs| - 1]
    requires AllTell(env, init, before) && Tells(env, items[|items| - 1], specs[|specs| - 1])
    ensures AllTell(env, items, specs)
  {
    forall i | 0 <= i < |items| ensures Tells(env, items[i], specs[i]) {
      if i < |init| {
        assert items[i] == init[i] && specs[i] == before[i];
      }
    }
  }

  lemma LastOperation(env: Env, items: seq<Json>, specs: seq<Spec>)
    requires ParseOperations(env, items) == Ok(specs) && items != []
    ensures specs != [] && ParseOperations(env, items[..|items| - 1]) == Ok(specs[..|specs| - 1])
    ensures ParseOperation(env, items[|items| - 1]) == Ok(specs[|specs| - 1])
  {
    var before, s := ParseOperations(env, items[..|items| - 1]).value, ParseOperation(env, items[|items| - 1]).value;
    assert specs == before + [s];
  }

  lemma NothingTold(env: Env, specs: seq<Spec>)
    requires ParseOperations(env, []) == Ok(specs)
    ensures AllTell(env, [], specs)
  {
  }

  lemma {:induction false} OperationsSaid(env: Env, items: seq<Json>, specs: seq<Spec>)
    requires ParseOperations(env, items) == Ok(specs)
    ensures AllTell(env, items, specs)
    decreases |items|
  {
    if items == [] {
      NothingTold(env, specs);
    } else {
      LastOperation(env, items, specs);
      var init, before := items[..|items| - 1], specs[..|specs| - 1];
      OperationsSaid(env, init, before);
      ParsedIsSaid(env, items[|items| - 1], specs[|specs| - 1]);
      OneMoreTells(env, items, specs, init, before);
    }
  }

  /** A parsed patch has the operations of its document, in its order, and no more than a hundred. */
  lemma PatchSaid(env: Env, j: Json, p: Patch)
    requires ParsePatch(env, j) == Ok(p)
    ensures j.Object? && Says(j.fields, Schema, "bdb-multi-file-patch-v1") && Operations in j.fields && j.fields[Operations].List?
    ensures var items := j.fields[Operations].items;
      && 1 <= |items| <= 100 && |p.operations| == |items| && p.count == |items|
      && Sum(p.operations).textEdits <= 32 && Sum(p.operations).replacements <= 64
      && p.contentBytes == Sum(p.operations).contentBytes <= 8388608
      && forall i :: 0 <= i < |items| ==> Tells(env, items[i], p.operations[i])
  {
    var items := j.fields[Operations].items;
    ParsedOperations(env, items);
    OperationsSaid(env, items, p.operations);
  }
}
