/** Values shared by every component: optional values, outcomes, bytes and flat file maps. */
module Base {
  newtype byte = x: int | 0 <= x < 256
  type Bytes = seq<byte>
  /** A repository-relative path. */
  datatype Path = Path(name: string)

  /** The largest file a patch may create, replace or touch. */
  const MAX_STRUCTURAL_CONTENT_BYTES: nat := 1024 * 1024

  datatype Option<+T> = None | Some(value: T)

  /** The error codes of BridgeErrorCode that the modelled operations raise. */
  datatype ErrorCode =
    | InvalidPayload | PolicyDenied | ScopeViolation | UnsafePath | MissingFile | StateMismatch
    | StaleRevision | ReplaceMismatch | UnsupportedSchema | UnsupportedOperation
    | JournalConflict | JournalCorrupt | InvalidStateTransition | ManualReconciliationRequired
    | TransportUnavailable

  datatype Result<+T> = Ok(value: T) | Err(error: ErrorCode)

  /** SHA-256 taken to be collision free: two digests are equal exactly when the hashed bytes are. */
  datatype Digest = Sha256(preimage: Bytes)

  /** A flat file tree: the regular files and their bytes. */
  type FileMap = map<Path, Bytes>

  function Get(files: FileMap, p: Path): Option<Bytes> {
    if p in files then Some(files[p]) else None
  }

  /** Writes the content at `p`, or removes `p` when there is none. */
  function Put(files: FileMap, p: Path, content: Option<Bytes>): (r: FileMap)
    ensures forall q :: Get(r, q) == if q == p then content else Get(files, q)
  {
    match content
    case Some(bytes) => files[p := bytes]
    case None => files - {p}
  }

  lemma SameFiles(a: FileMap, b: FileMap)
    requires forall p :: Get(a, p) == Get(b, p)
    ensures a == b
  {
    forall p ensures p in a <==> p in b {
      assert Get(a, p) == Get(b, p);
    }
    forall p | p in a ensures a[p] == b[p] {
      assert Get(a, p) == Get(b, p);
    }
  }
}
