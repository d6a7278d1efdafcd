/** Whole multi-file patches: the batch loop with its limits, printing, and validation. */
module PatchBatch {
  import opened Base
  import opened PatchCodec

  /** What the limits count: text edits, single replacements, and content bytes. */
  datatype Totals = Totals(textEdits: nat, replacements: nat, contentBytes: nat)

  function ContentBytesOf(s: Spec): nat {
    match s
    case ReplaceFile(_, _, _, bytes, _, _) => |bytes|
    case ReplaceText(_, _, _, _, _, textBytes, _) => textBytes
    case Structural(_, CreateFile, _, _, Some(content), _, _, _) => |content|
    case _ => 0
  }

  function Add(t: Totals, s: Spec): Totals {
    Totals(t.textEdits + (if s.ReplaceText? then 1 else 0),
           t.replacements + (if s.ReplaceText? then s.count else 0),
           t.contentBytes + ContentBytesOf(s))
  }

  function Sum(specs: seq<Spec>): Totals {
    if specs == [] then Totals(0, 0, 0) else Add(Sum(specs[..|specs| - 1]), specs[|specs| - 1])
  }

  predicate WithinLimits(t: Totals) {
    t.textEdits <= MAX_TEXT_EDITS && t.replacements <= MAX_REPLACEMENTS && t.contentBytes <= MAX_BATCH_CONTENT_BYTES
  }

  /** The operations read one by one, each prefix within the limits. */
  function ParseOperations(env: Env, items: seq<Json>): Result<seq<Spec>> {
    if items == [] then Ok([])
    else
      match ParseOperations(env, items[..|items| - 1])
      case Err(e) => Err(e)
      case Ok(specs) => NextOperation(env, specs, items[|items| - 1])
  }

  function NextOperation(env: Env, specs: seq<Spec>, item: Json): Result<seq<Spec>> {
    match ParseOperation(env, item)
    case Err(e) => Err(e)
    case Ok(s) => if WithinLimits(Add(Sum(specs), s)) then Ok(specs + [s]) else Err(PolicyDenied)
  }

  function OperationDocs(specs: seq<Spec>): Option<seq<Json>> {
    if specs == [] then Some([])
    else
      match (OperationDocs(specs[..|specs| - 1]), Document(specs[|specs| - 1]))
      case (Some(init), Some(d)) => Some(init + [Object(d)])
      case _ => None
  }

  function PatchDoc(schema: string, docs: seq<Json>): map<Key, Json> {
    map[Schema := Text(schema), Operations := List(docs)]
  }

  function SealPatch(env: Env, specs: seq<Spec>): Result<Patch> {
    match OperationDocs(specs)
    case None => Err(InvalidPayload)
    case Some(docs) =>
      Ok(Patch(PATCH_SCHEMA, specs, |specs|, Sum(specs).contentBytes, env.seal(Object(PatchDoc(PATCH_SCHEMA, docs)))))
  }

  predicate HasOperations(d: map<Key, Json>) {
    Operations in d && d[Operations].List? && d[Operations].items != []
  }

  /** What stands before the operations. */
  function Envelope(j: Json): Option<ErrorCode> {
    if !j.Object? || j.fields.Keys != {Schema, Operations} then Some(InvalidPayload)
    else if GetText(j.fields, Schema, false).Err? then Some(InvalidPayload)
    else if GetText(j.fields, Schema, false).value != PATCH_SCHEMA then Some(UnsupportedSchema)
    else if !HasOperations(j.fields) then Some(InvalidPayload)
    else if |j.fields[Operations].items| > MAX_OPERATIONS then Some(PolicyDenied)
    else None
  }

  function ParsePatch(env: Env, j: Json): Result<Patch> {
    match Envelope(j)
    case Some(e) => Err(e)
    case None =>
      match ParseOperations(env, j.fields[Operations].items)
      case Err(e) => Err(e)
      case Ok(specs) => SealPatch(env, specs)
  }

  lemma {:induction false} FirstErrorStays(env: Env, items: seq<Json>, i: nat)
    requires i <= |items| && ParseOperations(env, items[..i]).Err?
    ensures ParseOperations(env, items) == ParseOperations(env, items[..i])
    decreases |items|
  {
    if i < |items| {
      assert items[..|items| - 1][..i] == items[..i];
      FirstErrorStays(env, items[..|items| - 1], i);
    } else {
      assert items[..i] == items;
    }
  }

  lemma SumMore(specs: seq<Spec>, s: Spec)
    ensures Sum(specs + [s]) == Add(Sum(specs), s)
  {
    assert (specs + [s])[..|specs|] == specs;
  }

  lemma ParseNext(env: Env, items: seq<Json>, i: nat, specs: seq<Spec>)
    requires i < |items| && ParseOperations(env, items[..i]) == Ok(specs)
    ensures ParseOperations(env, items[..i + 1]) == NextOperation(env, specs, items[i])
  {
    assert items[..i + 1][..i] == items[..i];
  }

  /** The batch loop with its running totals. */
  method ReadOperations(env: Env, items: seq<Json>) returns (r: Result<seq<Spec>>)
    ensures r == ParseOperations(env, items)
  {
    var specs: seq<Spec> := [];
    var contentBytes: nat, textEdits: nat, replacements: nat := 0, 0, 0;
    for i := 0 to |items|
      invariant ParseOperations(env, items[..i]) == Ok(specs)
      invariant Sum(specs) == Totals(textEdits, replacements, contentBytes) && WithinLimits(Sum(specs))
    {
      ParseNext(env, items, i, specs);
      var next := ParseOperation(env, items[i]);
      if next.Err? {
        FirstErrorStays(env, items, i + 1);
        return Err(next.error);
      }
      var s := next.value;
      if s.ReplaceText? {
        textEdits, replacements := textEdits + 1, replacements + s.count;
        if textEdits > MAX_TEXT_EDITS || replacements > MAX_REPLACEMENTS {
          FirstErrorStays(env, items, i + 1);
          return Err(PolicyDenied);
        }
      }
      contentBytes := contentBytes + ContentBytesOf(s);
      if contentBytes > MAX_BATCH_CONTENT_BYTES {
        FirstErrorStays(env, items, i + 1);
        return Err(PolicyDenied);
      }
      SumMore(specs, s);
      specs := specs + [s];
    }
    assert items[..|items|] == items;
    return Ok(specs);
  }

  // ----- Round trip -----

  ghost predicate AllGood(env: Env, specs: seq<Spec>) {
    forall i :: 0 <= i < |specs| ==> Good(env, specs[i])
  }

  /** A well-formed patch, said without the parser. */
  ghost predicate GoodPatch(env: Env, p: Patch) {
    && p.schema == PATCH_SCHEMA && 1 <= |p.operations| <= MAX_OPERATIONS && AllGood(env, p.operations)
    && WithinLimits(Sum(p.operations)) && SealPatch(env, p.operations) == Ok(p)
  }

  lemma InitWithin(specs: seq<Spec>)
    requires specs != [] && WithinLimits(Sum(specs))
    ensures WithinLimits(Sum(specs[..|specs| - 1]))
  {
  }

  lemma PrintNext(env: Env, items: seq<Json>, specs: seq<Spec>, d: map<Key, Json>, s: Spec)
    requires ParseOperations(env, items) == Ok(specs) && ParseOperation(env, Object(d)) == Ok(s)
    requires WithinLimits(Add(Sum(specs), s))
    ensures ParseOperations(env, items + [Object(d)]) == Ok(specs + [s])
  {
    assert (items + [Object(d)])[..|items|] == items;
  }

  lemma DocsNext(specs: seq<Spec>, s: Spec)
    requires OperationDocs(specs).Some? && Document(s).Some?
    ensures OperationDocs(specs + [s]) == Some(OperationDocs(specs).value + [Object(Document(s).value)])
  {
    assert (specs + [s])[..|specs|] == specs;
  }

  lemma InitGood(env: Env, specs: seq<Spec>)
    requires specs != [] && AllGood(env, specs)
    ensures AllGood(env, specs[..|specs| - 1]) && Good(env, specs[|specs| - 1])
  {
  }

  /** The printed operations read back as themselves. */
  ghost predicate ReadBack(env: Env, specs: seq<Spec>) {
    && OperationDocs(specs).Some? && |OperationDocs(specs).value| == |specs|
    && ParseOperations(env, OperationDocs(specs).value) == Ok(specs)
  }

  lemma PrintedNext(env: Env, specs: seq<Spec>, s: Spec)
    requires ReadBack(env, specs) && Good(env, s) && WithinLimits(Sum(specs + [s]))
    ensures ReadBack(env, specs + [s])
  {
    PrintThenParse(env, s);
    SumMore(specs, s);
    PrintNext(env, OperationDocs(specs).value, specs, Document(s).value, s);
    DocsNext(specs, s);
  }

  lemma PrintedStep(env: Env, specs: seq<Spec>, init: seq<Spec>, last: Spec)
    requires specs == init + [last] && ReadBack(env, init) && Good(env, last) && WithinLimits(Sum(specs))
    ensures ReadBack(env, specs)
  {
    PrintedNext(env, init, last);
  }

  lemma {:induction false} PrintedOperations(env: Env, specs: seq<Spec>)
    requires AllGood(env, specs) && WithinLimits(Sum(specs))
    ensures ReadBack(env, specs)
  {
    if specs == [] {
      assert OperationDocs(specs) == Some([]);
    } else {
      var init, last := specs[..|specs| - 1], specs[|specs| - 1];
      InitWithin(specs);
      InitGood(env, specs);
      PrintedOperations(env, init);
      PrintedStep(env, specs, init, last);
    }
  }

  lemma {:induction false} ParsedOperations(env: Env, items: seq<Json>)
    requires ParseOperations(env, items).Ok?
    ensures AllGood(env, ParseOperations(env, items).value) && WithinLimits(Sum(ParseOperations(env, items).value))
    ensures |ParseOperations(env, items).value| == |items|
  {
    if items != [] {
      ParsedOperations(env, items[..|items| - 1]);
      ParsedGood(env, items[|items| - 1]);
      SumMore(ParseOperations(env, items[..|items| - 1]).value, ParseOperation(env, items[|items| - 1]).value);
    }
  }

  function PatchDocument(p: Patch): Option<Json> {
    match OperationDocs(p.operations)
    case None => None
    case Some(docs) => Some(Object(PatchDoc(p.schema, docs)))
  }

  lemma EnvelopePrinted(docs: seq<Json>)
    requires 1 <= |docs| <= MAX_OPERATIONS
    ensures Envelope(Object(PatchDoc(PATCH_SCHEMA, docs))) == None
    ensures PatchDoc(PATCH_SCHEMA, docs)[Operations] == List(docs)
  {
    assert PATCH_SCHEMA[0] == 'b';
  }

  /** Parsing the printed document of a well-formed patch gives the patch back. */
  lemma PatchRoundTrip(env: Env, p: Patch)
    requires GoodPatch(env, p)
    ensures PatchDocument(p).Some? && ParsePatch(env, PatchDocument(p).value) == Ok(p)
  {
    PrintedOperations(env, p.operations);
    EnvelopePrinted(OperationDocs(p.operations).value);
  }

  /** What the parser returns is well formed. */
  lemma ParsedPatchGood(env: Env, j: Json)
    requires ParsePatch(env, j).Ok?
    ensures GoodPatch(env, ParsePatch(env, j).value)
  {
    ParsedOperations(env, j.fields[Operations].items);
  }

  /** Printing after parsing is stable: the printed document parses to the same patch. */
  lemma ParsePrintParse(env: Env, j: Json)
    requires ParsePatch(env, j).Ok?
    ensures PatchDocument(ParsePatch(env, j).value).Some?
    ensures ParsePatch(env, PatchDocument(ParsePatch(env, j).value).value) == ParsePatch(env, j)
  {
    ParsedPatchGood(env, j);
    PatchRoundTrip(env, ParsePatch(env, j).value);
  }

  /** The validator: print, parse, compare. */
  function ValidatePatch(env: Env, p: Patch): Option<ErrorCode> {
    match PatchDocument(p)
    case None => Some(InvalidPayload)
    case Some(j) =>
      match ParsePatch(env, j)
      case Err(e) => Some(e)
      case Ok(again) => if again == p then None else Some(InvalidPayload)
  }

  /** The validator accepts exactly the patches the parser can return. */
  lemma ValidatePatchExact(env: Env, p: Patch)
    ensures ValidatePatch(env, p) == None <==> exists j :: ParsePatch(env, j) == Ok(p)
  {
    if j :| ParsePatch(env, j) == Ok(p) {
      ParsedPatchGood(env, j);
      PatchRoundTrip(env, p);
    }
  }
}
