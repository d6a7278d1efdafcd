/** The durable rows and files behind one multi-file command, with the faults one process life meets. */
module World {
  import opened Base
  import opened Models
  import opened Workspace

  datatype Direction = Forward | Backward

  /** The image a pass in direction `d` writes, and the one it replaces. */
  function Target(item: Item, d: Direction): Option<Bytes> {
    if d.Forward? then item.after else item.before
  }
  function Origin(item: Item, d: Direction): Option<Bytes> {
    if d.Forward? then item.before else item.after
  }

  /** The command-scoped temp file of one path and direction. */
  datatype Temp = Temp(path: Path, direction: Direction)

  /** What happens when the schedule runs out: the process dies, or the effect raises an I/O error.
      `torn` is what an interrupted temp write leaves on disk, if anything. */
  datatype Fault = Crash(torn: Option<Bytes>) | IoError(torn: Option<Bytes>)

  datatype Pulse = Go | Halt

  class World {
    const git: Checkout
    var files: FileMap
    var temps: map<Temp, Bytes>
    var checkpoint: Option<Checkpoint>
    var command: CommandState
    var profile: Option<ProfileStatus>
    var revision: nat
    var stateHash: StateHash

    // The rest of this process life: `fuel` more effects happen, then `fault`.
    var fuel: nat
    var fault: Fault

    // History used in specifications: the files when the checkpoint was taken, the files as last given
    // from outside (the start, a foreign change, a profile run that changed any), and the files on which
    // the checkpoint was committed or rolled back; whether someone else changed files before that, or after.
    ghost var origin: FileMap
    ghost var found: FileMap
    ghost var settled: FileMap
    ghost var tampered: bool
    ghost var moved: bool

    constructor (git: Checkout, files: FileMap, revision: nat, stateHash: StateHash)
      ensures this.git == git && this.files == files && temps == map[] && checkpoint == None
      ensures command == Claimed && profile == None
      ensures this.revision == revision && this.stateHash == stateHash
      ensures origin == found == files && !tampered && !moved
    {
      this.git := git;
      this.files := files;
      temps := map[];
      checkpoint := None;
      command := Claimed;
      profile := None;
      this.revision := revision;
      this.stateHash := stateHash;
      fuel := 0;
      fault := Crash(None);
      origin, found, settled := files, files, files;
      tampered, moved := false, false;
    }

    /** Consumes one step of the schedule before a durable effect. */
    method Tick() returns (pulse: Pulse)
      modifies `fuel
      ensures pulse.Go? <==> old(fuel) > 0
      ensures fuel == if pulse.Go? then old(fuel) - 1 else 0
    {
      if fuel == 0 {
        return Halt;
      }
      fuel := fuel - 1;
      return Go;
    }
  }
}
