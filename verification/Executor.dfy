/** Crash-safe application and rollback of one checkpoint: write first, delete second, through temps. */
module Executor {
  import opened Base
  import opened Models
  import opened Workspace
  import opened World

  datatype Outcome =
    | Done       // the pass completed
    | Stopped    // the checkpoint is blocked and manual reconciliation is required
    | Died       // the process crashed, or an error left the call before the row was touched
    | Refused    // the journal does not allow this transition, or the path holds other bytes

  /** Every planned path holds one of its two images. */
  ghost predicate Mixed(files: FileMap, items: seq<Item>) {
    forall i {:trigger Get(files, items[i].path)} :: 0 <= i < |items| ==>
      Get(files, items[i].path) == items[i].before || Get(files, items[i].path) == items[i].after
  }

  ghost predicate AllAt(files: FileMap, items: seq<Item>, d: Direction) {
    forall i {:trigger Get(files, items[i].path)} :: 0 <= i < |items| ==> Get(files, items[i].path) == Target(items[i], d)
  }

  /** Every temp of this checkpoint holds the whole image it was written for. */
  ghost predicate WholeTemps(temps: map<Temp, Bytes>, items: seq<Item>) {
    forall i, d :: 0 <= i < |items| && Temp(items[i].path, d) in temps ==>
      Some(temps[Temp(items[i].path, d)]) == Target(items[i], d)
  }

  ghost predicate NoTemps(temps: map<Temp, Bytes>, items: seq<Item>) {
    forall t :: t in temps ==> t.path !in Paths(items)
  }

  /** Temps of other commands are untouched. */
  ghost predicate ForeignTempsKept(was: map<Temp, Bytes>, now: map<Temp, Bytes>, items: seq<Item>) {
    forall t: Temp :: t.path !in Paths(items) ==>
      (t in now <==> t in was) && (t in was ==> now[t] == was[t])
  }

  /** What any pass may do to the files: move a planned path from its old image to its new one.
      In particular a path that holds neither image keeps its bytes. */
  ghost predicate Advances(was: FileMap, now: FileMap, items: seq<Item>, d: Direction) {
    && (forall p {:trigger Get(now, p)} :: p !in Paths(items) ==> Get(now, p) == Get(was, p))
    && (forall i {:trigger Get(now, items[i].path)} :: 0 <= i < |items| ==>
          || Get(now, items[i].path) == Get(was, items[i].path)
          || (Get(was, items[i].path) == Origin(items[i], d) && Get(now, items[i].path) == Target(items[i], d)))
  }

  predicate IsImageOf(item: Item, content: Option<Bytes>) {
    content == item.before || content == item.after
  }

  /** What any sequence of passes may do to the files: move planned paths between their two images.
      A path that holds neither image keeps its bytes. */
  ghost predicate Steers(was: FileMap, now: FileMap, items: seq<Item>) {
    && (forall p {:trigger Get(now, p)} :: p !in Paths(items) ==> Get(now, p) == Get(was, p))
    && (forall i {:trigger Get(now, items[i].path)} :: 0 <= i < |items| ==>
          || Get(now, items[i].path) == Get(was, items[i].path)
          || (IsImageOf(items[i], Get(was, items[i].path)) && IsImageOf(items[i], Get(now, items[i].path))))
  }

  /** A path outside the plan, or a planned one that holds neither of its images. */
  ghost predicate Strange(files: FileMap, items: seq<Item>, p: Path) {
    forall i :: 0 <= i < |items| && items[i].path == p ==> !IsImageOf(items[i], Get(files, p))
  }

  /** Every path with a target image holds it. */
  ghost predicate Written(files: FileMap, items: seq<Item>, d: Direction) {
    forall i {:trigger Get(files, items[i].path)} ::
      0 <= i < |items| && Target(items[i], d).Some? ==> Get(files, items[i].path) == Target(items[i], d)
  }

  /** Writes come before deletes: no path that is to go has changed before every image that is to come is there. */
  ghost predicate WritesFirst(was: FileMap, now: FileMap, items: seq<Item>, d: Direction) {
    Written(now, items, d)
    || forall i {:trigger Get(now, items[i].path)} ::
         0 <= i < |items| && Target(items[i], d).None? ==> Get(now, items[i].path) == Get(was, items[i].path)
  }

  /** The files are in the order of a pass: nothing that is to go is gone, or all that is to come is there. */
  ghost predicate InOrder(files: FileMap, items: seq<Item>, d: Direction) {
    Written(files, items, d)
    || forall i {:trigger Get(files, items[i].path)} ::
         0 <= i < |items| && Target(items[i], d).None? ==> Get(files, items[i].path) == Origin(items[i], d)
  }

  /** A pass in whatever part keeps the order. */
  lemma KeepsOrder(was: FileMap, now: FileMap, items: seq<Item>, d: Direction)
    requires InOrder(was, items, d) && Advances(was, now, items, d) && WritesFirst(was, now, items, d)
    ensures InOrder(now, items, d)
  {
  }

  /** Once all images are there they stay. */
  lemma StaysWritten(was: FileMap, now: FileMap, items: seq<Item>, d: Direction)
    requires Written(was, items, d) && Advances(was, now, items, d)
    ensures Written(now, items, d)
  {
  }

  /** Order composes over passes and interruptions. */
  lemma OrderCompose(a: FileMap, b: FileMap, c: FileMap, items: seq<Item>, d: Direction)
    requires WritesFirst(a, b, items, d) && WritesFirst(b, c, items, d) && Advances(b, c, items, d)
    ensures WritesFirst(a, c, items, d)
  {
    if Written(b, items, d) {
      StaysWritten(b, c, items, d);
    }
  }

  /** Before a pass begins and after it has ended the files are in the order of that pass and of its reverse. */
  lemma EndsInOrder(files: FileMap, items: seq<Item>, d: Direction)
    requires AllAt(files, items, d)
    ensures InOrder(files, items, Forward) && InOrder(files, items, Backward)
  {
  }

  /** Item `i` goes and item `j` comes with its bytes: a rename or a move. */
  predicate IsMove(items: seq<Item>, i: nat, j: nat) {
    && i < |items| && j < |items|
    && items[i].before.Some? && items[i].after == None && items[j].before == None && items[j].after == items[i].before
  }

  /** A moved content is never off the disk: in the order of either pass it is at its old place or at its new one. */
  lemma MovedContentStays(files: FileMap, items: seq<Item>, d: Direction, i: nat, j: nat)
    requires InOrder(files, items, d) && IsMove(items, i, j)
    ensures Get(files, items[i].path) == items[i].before || Get(files, items[j].path) == items[i].before
  {
  }

  lemma SteersOn(found: FileMap, was: FileMap, now: FileMap, items: seq<Item>, d: Direction)
    requires Steers(found, was, items) && Advances(was, now, items, d)
    ensures Steers(found, now, items)
  {
  }

  /** From the before images the passes stay among the two images. */
  lemma SteersMixed(found: FileMap, files: FileMap, items: seq<Item>)
    requires AllAt(found, items, Backward) && Steers(found, files, items)
    ensures Mixed(files, items) && forall p :: p !in Paths(items) ==> Get(files, p) == Get(found, p)
  {
  }

  datatype Status = AtBefore | AtAfter | Unexpected

  function Classify(files: FileMap, item: Item): (r: Status)
    ensures r.AtBefore? <==> Get(files, item.path) == item.before
    ensures item.before != item.after ==> (r.AtAfter? <==> Get(files, item.path) == item.after)
    ensures r.Unexpected? <==> Get(files, item.path) != item.before && Get(files, item.path) != item.after
  {
    if Get(files, item.path) == item.before then AtBefore
    else if Get(files, item.path) == item.after then AtAfter
    else Unexpected
  }

  /** One more planned path reaches its target: the pass as a whole still only advances. */
  lemma AdvanceStep(was: FileMap, now: FileMap, items: seq<Item>, i: nat, d: Direction)
    requires ValidItems(items) && i < |items|
    requires Advances(was, now, items, d) && Get(now, items[i].path) == Origin(items[i], d)
    ensures Advances(was, Put(now, items[i].path, Target(items[i], d)), items, d)
  {
    assert items[i].path in Paths(items);
  }

  /** Writing a whole image into its temp, or removing a temp, keeps the temps whole. */
  lemma WholeTempsKept(temps: map<Temp, Bytes>, items: seq<Item>, i: nat, d: Direction)
    requires ValidItems(items) && i < |items| && WholeTemps(temps, items)
    ensures WholeTemps(temps - {Temp(items[i].path, d)}, items)
    ensures Target(items[i], d).Some? ==>
              WholeTemps(temps[Temp(items[i].path, d) := Target(items[i], d).value], items)
  {
  }

  ghost predicate Live(c: Option<Checkpoint>) {
    c.Some? && c.value.state !in {Committed, RolledBack}
  }

  /** Records the blocked state (terminal rows refuse it) and stops. */
  method Block(w: World) returns (out: Outcome)
    requires Live(w.checkpoint)
    modifies w`checkpoint, w`fuel
    ensures out.Stopped? || out.Died?
    ensures w.checkpoint == if out.Stopped? then Some(old(w.checkpoint).value.(state := Blocked)) else old(w.checkpoint)
    ensures old(w.fuel) > 0 || w.fault.IoError? ==> out.Stopped?
    ensures old(w.fuel) - 1 <= w.fuel <= old(w.fuel)
  {
    var pulse := w.Tick();
    if pulse.Halt? && w.fault.Crash? {
      return Died;
    }
    w.checkpoint := Some(w.checkpoint.value.(state := Blocked));
    return Stopped;
  }

  /** A file effect met the end of the schedule: where the caller catches I/O errors, one blocks;
      otherwise the error, like a crash, just ends the call. */
  method Interrupt(w: World, guarded: bool) returns (out: Outcome)
    requires Live(w.checkpoint) && w.fuel == 0
    modifies w`checkpoint, w`fuel
    ensures out == (if guarded && w.fault.IoError? then Stopped else Died)
    ensures w.checkpoint == if out.Stopped? then Some(old(w.checkpoint).value.(state := Blocked)) else old(w.checkpoint)
    ensures w.fuel == 0
  {
    if guarded && w.fault.IoError? {
      out := Block(w);
    } else {
      out := Died;
    }
  }

  /** The atomic write: re-read, temp file, then hard link (no overwrite) or replace. A path that does not
      hold the expected bytes blocks.
      At every exit the path holds its old bytes or the whole target. */
  method WriteExact(w: World, items: seq<Item>, i: nat, d: Direction) returns (out: Outcome)
    requires Live(w.checkpoint) && i < |items| && Target(items[i], d).Some?
    modifies w`files, w`temps, w`checkpoint, w`fuel
    ensures out in {Done, Stopped, Died}
    ensures Get(old(w.files), items[i].path) != Origin(items[i], d) ==>
              !out.Done? && w.files == old(w.files) && w.temps == old(w.temps)
    ensures var path, target, temp := items[i].path, Target(items[i], d), Temp(items[i].path, d);
            && (w.files == old(w.files) || w.files == Put(old(w.files), path, target))
            && (|| w.temps in [old(w.temps), old(w.temps) - {temp}, old(w.temps)[temp := target.value]]
                || (w.fault.torn.Some? && !out.Done? && w.temps == old(w.temps)[temp := w.fault.torn.value]))
            && (out.Done? ==> w.files == Put(old(w.files), path, target) && w.temps == old(w.temps) - {temp})
            && (w.fault.Crash? && Get(old(w.files), path) == Origin(items[i], d) ==>
                  (temp in old(w.temps) ==> Some(old(w.temps)[temp]) == target) ==> !out.Stopped?)
    ensures w.checkpoint == if out.Stopped? then Some(old(w.checkpoint).value.(state := Blocked)) else old(w.checkpoint)
    ensures old(w.fuel) >= 3 ==> !out.Died?
    ensures old(w.fuel) - 3 <= w.fuel <= old(w.fuel)
  {
    var item := items[i];
    var target := Target(item, d).value;
    var temp := Temp(item.path, d);
    if Get(w.files, item.path) != Origin(item, d) {
      out := Block(w);
      return;
    }
    if temp in w.temps {
      if w.temps[temp] != target {
        out := Block(w);
        return;
      }
    } else {
      var pulse := w.Tick();
      if pulse.Halt? {
        if w.fault.torn.Some? {
          w.temps := w.temps[temp := w.fault.torn.value];
        }
        out := Interrupt(w, true);
        return;
      }
      w.temps := w.temps[temp := target];
    }
    assert w.temps == old(w.temps)[temp := target];
    var pulse := w.Tick();
    if pulse.Halt? {
      out := Interrupt(w, true);
      return;
    }
    w.files := w.files[item.path := target];
    if Origin(item, d).None? {
      pulse := w.Tick();
      if pulse.Halt? {
        out := Interrupt(w, true);
        return;
      }
    }
    w.temps := w.temps - {temp};
    assert w.temps == old(w.temps) - {temp};
    return Done;
  }

  /** Re-reads and unlinks the path; other bytes are refused. */
  method DeleteExact(w: World, items: seq<Item>, i: nat, d: Direction) returns (out: Outcome)
    requires Live(w.checkpoint) && i < |items| && Target(items[i], d).None?
    modifies w`files, w`checkpoint, w`fuel
    ensures out.Refused? <==> Get(old(w.files), items[i].path) != Origin(items[i], d)
    ensures w.files == if out.Done? then Put(old(w.files), items[i].path, None) else old(w.files)
    ensures w.checkpoint == if out.Stopped? then Some(old(w.checkpoint).value.(state := Blocked)) else old(w.checkpoint)
    ensures w.fault.Crash? ==> !out.Stopped?
    ensures old(w.fuel) >= 1 ==> !out.Died?
    ensures old(w.fuel) - 1 <= w.fuel <= old(w.fuel)
  {
    if Get(w.files, items[i].path) != Origin(items[i], d) {
      return Refused;
    }
    var pulse := w.Tick();
    if pulse.Halt? {
      out := Interrupt(w, true);
      return;
    }
    w.files := w.files - {items[i].path};
    return Done;
  }

  /** `now` is `was` without some of the temps of one path. */
  ghost predicate Cleaned(was: map<Temp, Bytes>, now: map<Temp, Bytes>, path: Path) {
    && (forall t :: t in now ==> t in was && now[t] == was[t])
    && (forall t: Temp :: t in was && t.path != path ==> t in now)
  }

  /** Removes both temps of one path, refusing bytes that are neither of its images. */
  method CleanupTemps(w: World, items: seq<Item>, i: nat, guarded: bool) returns (out: Outcome)
    requires Live(w.checkpoint) && i < |items|
    modifies w`temps, w`checkpoint, w`fuel
    ensures out in {Done, Stopped, Died}
    ensures Cleaned(old(w.temps), w.temps, items[i].path)
    ensures out.Done? ==> forall t :: t in w.temps ==> t.path != items[i].path
    ensures w.checkpoint == if out.Stopped? then Some(old(w.checkpoint).value.(state := Blocked)) else old(w.checkpoint)
    ensures WholeTemps(old(w.temps), items) && w.fault.Crash? ==> !out.Stopped?
    ensures old(w.fuel) >= 2 ==> !out.Died?
    ensures old(w.fuel) - 2 <= w.fuel <= old(w.fuel)
  {
    var item := items[i];
    var modes := [Forward, Backward];
    for k := 0 to 2
      invariant w.checkpoint == old(w.checkpoint)
      invariant Cleaned(old(w.temps), w.temps, item.path)
      invariant forall m :: 0 <= m < k ==> Temp(item.path, modes[m]) !in w.temps
      invariant old(w.fuel) - k <= w.fuel <= old(w.fuel)
    {
      var temp := Temp(item.path, modes[k]);
      if temp in w.temps {
        if Some(w.temps[temp]) != item.before && Some(w.temps[temp]) != item.after {
          out := Block(w);
          return;
        }
        var pulse := w.Tick();
        if pulse.Halt? {
          out := Interrupt(w, guarded);
          return;
        }
        w.temps := w.temps - {temp};
      }
    }
    forall t | t in w.temps ensures t.path != item.path {
      assert t == Temp(t.path, modes[if t.direction.Forward? then 0 else 1]);
    }
    return Done;
  }

  /** The durable part of the world that a pass works on. */
  datatype Disk = Disk(files: FileMap, temps: map<Temp, Bytes>, checkpoint: Option<Checkpoint>)

  ghost function DiskOf(w: World): Disk reads w {
    Disk(w.files, w.temps, w.checkpoint)
  }

  /** What every pass in direction `d` guarantees at every exit, whatever fault it met. */
  ghost predicate PassOk(was: Disk, now: Disk, items: seq<Item>, d: Direction, fault: Fault, out: Outcome) {
    && out in {Done, Stopped, Died}
    && Advances(was.files, now.files, items, d)
    && WritesFirst(was.files, now.files, items, d)
    && ForeignTempsKept(was.temps, now.temps, items)
    && was.checkpoint.Some?
    && now.checkpoint == (if out.Stopped? then Some(was.checkpoint.value.(state := Blocked)) else was.checkpoint)
    && (WholeTemps(was.temps, items) && Mixed(was.files, items) && fault.Crash? ==> !out.Stopped?)
    && (WholeTemps(was.temps, items) && (out.Done? || fault == Crash(None)) ==> WholeTemps(now.temps, items))
  }

  lemma PassCompose(a: Disk, b: Disk, c: Disk, items: seq<Item>, d: Direction, fault: Fault, out: Outcome)
    requires ValidItems(items)
    requires PassOk(a, b, items, d, fault, Done) && PassOk(b, c, items, d, fault, out)
    ensures PassOk(a, c, items, d, fault, out)
  {
    OrderCompose(a.files, b.files, c.files, items, d);
    AdvancesCompose(a.files, b.files, c.files, items, d);
  }

  lemma PassRefl(a: Disk, items: seq<Item>, d: Direction, fault: Fault)
    requires a.checkpoint.Some?
    ensures PassOk(a, a, items, d, fault, Done)
  {
  }

  /** Blocking on a path that holds neither image. */
  lemma PassBlocked(a: Disk, items: seq<Item>, i: nat, d: Direction, fault: Fault)
    requires a.checkpoint.Some? && i < |items|
    requires Get(a.files, items[i].path) != items[i].before && Get(a.files, items[i].path) != items[i].after
    ensures PassOk(a, a.(checkpoint := Some(a.checkpoint.value.(state := Blocked))), items, d, fault, Stopped)
    ensures PassOk(a, a, items, d, fault, Died)
  {
  }

  /** A single-path write is a pass. */
  lemma WriteIsPass(was: Disk, now: Disk, items: seq<Item>, i: nat, d: Direction, fault: Fault, out: Outcome)
    requires ValidItems(items) && i < |items| && was.checkpoint.Some? && out in {Done, Stopped, Died}
    requires Get(was.files, items[i].path) == Origin(items[i], d) && Target(items[i], d).Some?
    requires var path, target, temp := items[i].path, Target(items[i], d), Temp(items[i].path, d);
            && (now.files == was.files || now.files == Put(was.files, path, target))
            && (|| now.temps in [was.temps, was.temps - {temp}, was.temps[temp := target.value]]
                || (fault.torn.Some? && !out.Done? && now.temps == was.temps[temp := fault.torn.value]))
            && (fault.Crash? && (temp in was.temps ==> Some(was.temps[temp]) == target) ==> !out.Stopped?)
    requires now.checkpoint == if out.Stopped? then Some(was.checkpoint.value.(state := Blocked)) else was.checkpoint
    ensures PassOk(was, now, items, d, fault, out)
  {
    AdvanceStep(was.files, was.files, items, i, d);
    assert items[i].path in Paths(items);
    if WholeTemps(was.temps, items) {
      WholeTempsKept(was.temps, items, i, d);
    }
  }

  /** One turn of the first loop. */
  method WriteOne(w: World, items: seq<Item>, i: nat, d: Direction) returns (out: Outcome)
    requires Live(w.checkpoint) && ValidItems(items) && i < |items| && Target(items[i], d).Some?
    modifies w`files, w`temps, w`checkpoint, w`fuel
    ensures PassOk(old(DiskOf(w)), DiskOf(w), items, d, w.fault, out)
    ensures out.Done? ==> Get(w.files, items[i].path) == Target(items[i], d) && w.checkpoint == old(w.checkpoint)
    ensures out.Done? ==> forall p :: p != items[i].path ==> Get(w.files, p) == Get(old(w.files), p)
    ensures old(w.fuel) > 3 ==> !out.Died?
    ensures old(w.fuel) - 3 <= w.fuel || (!out.Done? && old(w.fuel) - 4 <= w.fuel)
  {
    ghost var here := DiskOf(w);
    var item := items[i];
    var status := Classify(w.files, item);
    if status == (if d.Forward? then AtAfter else AtBefore) {
      out := CleanupTemps(w, items, i, true);
      CleanupIsPass(here, DiskOf(w), items, i, d, w.fault, out);
    } else if status.Unexpected? {
      PassBlocked(here, items, i, d, w.fault);
      out := Block(w);
    } else {
      out := WriteExact(w, items, i, d);
      WriteIsPass(here, DiskOf(w), items, i, d, w.fault, out);
    }
  }

  /** First loop: write every path whose target image exists. */
  method WritePass(w: World, items: seq<Item>, d: Direction) returns (out: Outcome)
    requires Live(w.checkpoint) && ValidItems(items)
    modifies w`files, w`temps, w`checkpoint, w`fuel
    ensures PassOk(old(DiskOf(w)), DiskOf(w), items, d, w.fault, out)
    ensures out.Done? ==> forall i :: 0 <= i < |items| && Target(items[i], d).Some? ==>
              Get(w.files, items[i].path) == Target(items[i], d)
    ensures old(w.fuel) > 3 * |items| ==> !out.Died?
    ensures old(w.fuel) - 3 * |items| - 1 <= w.fuel
  {
    ghost var start := DiskOf(w);
    PassRefl(start, items, d, w.fault);
    for i := 0 to |items|
      invariant w.checkpoint == old(w.checkpoint)
      invariant PassOk(start, DiskOf(w), items, d, w.fault, Done)
      invariant forall j :: 0 <= j < i && Target(items[j], d).Some? ==>
                  Get(w.files, items[j].path) == Target(items[j], d)
      invariant old(w.fuel) - 3 * i <= w.fuel
    {
      if Target(items[i], d).None? {
        continue;
      }
      ghost var here := DiskOf(w);
      out := WriteOne(w, items, i, d);
      PassCompose(start, here, DiskOf(w), items, d, w.fault, out);
      if !out.Done? {
        return;
      }
    }
    return Done;
  }

  lemma CleanupIsPass(was: Disk, now: Disk, items: seq<Item>, i: nat, d: Direction, fault: Fault, out: Outcome)
    requires i < |items| && was.checkpoint.Some? && out in {Done, Stopped, Died}
    requires now.files == was.files && Cleaned(was.temps, now.temps, items[i].path)
    requires WholeTemps(was.temps, items) && fault.Crash? ==> !out.Stopped?
    requires now.checkpoint == if out.Stopped? then Some(was.checkpoint.value.(state := Blocked)) else was.checkpoint
    ensures PassOk(was, now, items, d, fault, out)
  {
    assert items[i].path in Paths(items);
  }

  lemma DeleteIsPass(was: Disk, now: Disk, items: seq<Item>, i: nat, d: Direction, fault: Fault, out: Outcome)
    requires ValidItems(items) && i < |items| && was.checkpoint.Some? && out in {Done, Stopped, Died}
    requires Get(was.files, items[i].path) == Origin(items[i], d) && Target(items[i], d).None?
    requires now.files == (if out.Done? then Put(was.files, items[i].path, None) else was.files)
    requires now.temps == was.temps && (fault.Crash? ==> !out.Stopped?) && Written(was.files, items, d)
    requires now.checkpoint == if out.Stopped? then Some(was.checkpoint.value.(state := Blocked)) else was.checkpoint
    ensures PassOk(was, now, items, d, fault, out)
  {
    AdvanceStep(was.files, was.files, items, i, d);
    StaysWritten(was.files, now.files, items, d);
  }

  /** One turn of the second loop. */
  method DeleteOne(w: World, items: seq<Item>, i: nat, d: Direction) returns (out: Outcome)
    requires Live(w.checkpoint) && ValidItems(items) && i < |items| && Target(items[i], d).None?
    requires Written(w.files, items, d)
    modifies w`files, w`temps, w`checkpoint, w`fuel
    ensures PassOk(old(DiskOf(w)), DiskOf(w), items, d, w.fault, out)
    ensures out.Done? ==> Get(w.files, items[i].path) == Target(items[i], d)
    ensures old(w.fuel) >= 3 ==> !out.Died?
    ensures old(w.fuel) - 3 <= w.fuel
  {
    ghost var start := DiskOf(w);
    var status := Classify(w.files, items[i]);
    if status.Unexpected? {
      PassBlocked(start, items, i, d, w.fault);
      out := Block(w);
      return;
    }
    PassRefl(start, items, d, w.fault);
    if status != (if d.Forward? then AtAfter else AtBefore) {
      out := DeleteExact(w, items, i, d);
      DeleteIsPass(start, DiskOf(w), items, i, d, w.fault, out);
      if !out.Done? {
        return;
      }
    }
    ghost var here := DiskOf(w);
    out := CleanupTemps(w, items, i, true);
    CleanupIsPass(here, DiskOf(w), items, i, d, w.fault, out);
    PassCompose(start, here, DiskOf(w), items, d, w.fault, out);
  }

  /** A path at its target stays there for the rest of the pass. */
  lemma TargetStays(was: Disk, now: Disk, items: seq<Item>, i: nat, d: Direction, fault: Fault, out: Outcome)
    requires ValidItems(items) && i < |items| && PassOk(was, now, items, d, fault, out)
    requires Get(was.files, items[i].path) == Target(items[i], d)
    ensures Get(now.files, items[i].path) == Target(items[i], d)
  {
  }

  /** Second loop: delete every path whose target image is absence. */
  method DeletePass(w: World, items: seq<Item>, d: Direction) returns (out: Outcome)
    requires Live(w.checkpoint) && ValidItems(items)
    requires Written(w.files, items, d)
    modifies w`files, w`temps, w`checkpoint, w`fuel
    ensures PassOk(old(DiskOf(w)), DiskOf(w), items, d, w.fault, out)
    ensures out.Done? ==> forall i :: 0 <= i < |items| && Target(items[i], d).None? ==>
              Get(w.files, items[i].path) == Target(items[i], d)
    ensures old(w.fuel) > 3 * |items| ==> !out.Died?
    ensures old(w.fuel) - 3 * |items| - 1 <= w.fuel
  {
    ghost var start := DiskOf(w);
    PassRefl(start, items, d, w.fault);
    for i := 0 to |items|
      invariant w.checkpoint == old(w.checkpoint)
      invariant PassOk(start, DiskOf(w), items, d, w.fault, Done)
      invariant forall j :: 0 <= j < i && Target(items[j], d).None? ==>
                  Get(w.files, items[j].path) == Target(items[j], d)
      invariant Written(w.files, items, d)
      invariant old(w.fuel) - 3 * i <= w.fuel
    {
      if Target(items[i], d).Some? {
        continue;
      }
      ghost var here := DiskOf(w);
      out := DeleteOne(w, items, i, d);
      StaysWritten(here.files, w.files, items, d);
      PassCompose(start, here, DiskOf(w), items, d, w.fault, out);
      if !out.Done? {
        return;
      }
      forall j | 0 <= j < i && Target(items[j], d).None?
        ensures Get(w.files, items[j].path) == Target(items[j], d)
      {
        TargetStays(here, DiskOf(w), items, j, d, w.fault, out);
      }
    }
    return Done;
  }

  /** Blocks unless every planned path holds its target image; a terminal row cannot be blocked. */
  method RequireAll(w: World, items: seq<Item>, d: Direction) returns (out: Outcome)
    requires w.checkpoint.Some? && ValidItems(items)
    modifies w`checkpoint, w`fuel
    ensures out.Done? <==> AllAt(w.files, items, d)
    ensures out.Refused? ==> !old(Live(w.checkpoint))
    ensures w.checkpoint == if out.Stopped? then Some(old(w.checkpoint).value.(state := Blocked)) else old(w.checkpoint)
    ensures out.Stopped? ==> old(Live(w.checkpoint))
    ensures if out.Done? then w.fuel == old(w.fuel) else old(w.fuel) - 1 <= w.fuel
    ensures old(w.fuel) > 0 ==> !out.Died?
  {
    for i := 0 to |items|
      invariant forall j :: 0 <= j < i ==> Get(w.files, items[j].path) == Target(items[j], d)
    {
      if Classify(w.files, items[i]) != (if d.Forward? then AtAfter else AtBefore) {
        assert Get(w.files, items[i].path) != Target(items[i], d);
        if w.checkpoint.value.state in {Committed, RolledBack} {
          return Refused;
        }
        out := Block(w);
        return;
      }
    }
    return Done;
  }

  /** Removes every temp of the checkpoint. */
  method CleanupAllTemps(w: World, items: seq<Item>, d: Direction, guarded: bool) returns (out: Outcome)
    requires Live(w.checkpoint) && ValidItems(items)
    modifies w`temps, w`checkpoint, w`fuel
    ensures PassOk(old(DiskOf(w)), DiskOf(w), items, d, w.fault, out)
    ensures out.Done? ==> NoTemps(w.temps, items)
    ensures old(w.fuel) > 2 * |items| ==> !out.Died?
    ensures old(w.fuel) - 2 * |items| - 1 <= w.fuel
  {
    ghost var start := DiskOf(w);
    PassRefl(start, items, d, w.fault);
    for i := 0 to |items|
      invariant w.checkpoint == old(w.checkpoint)
      invariant PassOk(start, DiskOf(w), items, d, w.fault, Done)
      invariant forall t, j :: 0 <= j < i && t in w.temps ==> t.path != items[j].path
      invariant old(w.fuel) - 2 * i <= w.fuel
    {
      ghost var here := DiskOf(w);
      out := CleanupTemps(w, items, i, guarded);
      CleanupIsPass(here, DiskOf(w), items, i, d, w.fault, out);
      PassCompose(start, here, DiskOf(w), items, d, w.fault, out);
      if !out.Done? {
        return;
      }
    }
    return Done;
  }

  /** All paths at their after images, and no temps left; an I/O error here is not caught. */
  method Recheck(w: World, items: seq<Item>) returns (out: Outcome)
    requires Live(w.checkpoint) && ValidItems(items)
    modifies w`temps, w`checkpoint, w`fuel
    ensures out in {Done, Stopped, Died}
    ensures out.Done? ==> AllAt(w.files, items, Forward)
    ensures w.checkpoint == if out.Stopped? then Some(old(w.checkpoint).value.(state := Blocked)) else old(w.checkpoint)
    ensures WholeTemps(old(w.temps), items) && Mixed(w.files, items) && AllAt(w.files, items, Forward) && w.fault.Crash? ==> !out.Stopped?
    ensures WholeTemps(old(w.temps), items) && (out.Done? || w.fault == Crash(None)) ==> WholeTemps(w.temps, items)
    ensures old(w.fuel) >= PassBudget(|items|) ==> !out.Died?
    ensures w.fuel >= old(w.fuel) - PassBudget(|items|) - 3
  {
    out := RequireAll(w, items, Forward);
    if out.Done? {
      out := CleanupAllTemps(w, items, Forward, false);
    }
  }

  /** Enough effects for one whole pass over `n` paths. */
  function PassBudget(n: nat): nat {
    8 * n + 4
  }

  /** The body shared by apply and rollback: write, delete, check, clean up. */
  method Drive(w: World, items: seq<Item>, d: Direction) returns (out: Outcome)
    requires Live(w.checkpoint) && ValidItems(items)
    modifies w`files, w`temps, w`checkpoint, w`fuel
    ensures PassOk(old(DiskOf(w)), DiskOf(w), items, d, w.fault, out)
    ensures out.Done? ==> AllAt(w.files, items, d) && NoTemps(w.temps, items)
    ensures old(w.fuel) >= PassBudget(|items|) ==> !out.Died?
    ensures old(w.fuel) - PassBudget(|items|) <= w.fuel
  {
    ghost var start := DiskOf(w);
    out := WritePass(w, items, d);
    if !out.Done? {
      return;
    }
    ghost var written := DiskOf(w);
    out := DeletePass(w, items, d);
    PassCompose(start, written, DiskOf(w), items, d, w.fault, out);
    if !out.Done? {
      return;
    }
    ghost var deleted := DiskOf(w);
    out := RequireAll(w, items, d);
    assert out.Done?;
    out := CleanupAllTemps(w, items, d, true);
    PassCompose(start, deleted, DiskOf(w), items, d, w.fault, out);
  }

  /** One journal transition: a no-op when already there, refused when the table forbids it. */
  method Mark(w: World, to: CheckpointState) returns (out: Outcome)
    requires w.checkpoint.Some?
    modifies w`checkpoint, w`fuel
    ensures var from := old(w.checkpoint).value.state;
      && (out.Refused? <==> from != to && from !in CheckpointPredecessors(to))
      && (out.Done? ==> w.checkpoint == Some(old(w.checkpoint).value.(state := to)))
      && (!out.Done? ==> w.checkpoint == old(w.checkpoint))
    ensures !out.Stopped?
    ensures old(w.fuel) > 0 ==> !out.Died?
    ensures old(w.fuel) - 1 <= w.fuel <= old(w.fuel)
  {
    var from := w.checkpoint.value.state;
    if from == to {
      return Done;
    }
    if from !in CheckpointPredecessors(to) {
      return Refused;
    }
    var pulse := w.Tick();
    if pulse.Halt? {
      return Died;
    }
    w.checkpoint := Some(w.checkpoint.value.(state := to));
    return Done;
  }

  /** What apply guarantees from a checkpoint that is planned or half applied. */
  ghost predicate ApplyOk(was: Disk, now: Disk, fault: Fault, out: Outcome)
  {
    && was.checkpoint.Some? && now.checkpoint.Some?
    && var items := was.checkpoint.value.items;
    && out in {Done, Stopped, Died}
    && now.checkpoint.value == was.checkpoint.value.(state := now.checkpoint.value.state)
    && now.checkpoint.value.state in
         (if out.Done? then {Applied} else if out.Stopped? then {Blocked} else {was.checkpoint.value.state, Applying})
    && (now.checkpoint == was.checkpoint && was.checkpoint.value.state == Planned ==> now == was)
    && Advances(was.files, now.files, items, Forward) && WritesFirst(was.files, now.files, items, Forward)
    && ForeignTempsKept(was.temps, now.temps, items)
    && (out.Done? ==> AllAt(now.files, items, Forward) && NoTemps(now.temps, items))
    && (WholeTemps(was.temps, items) && Mixed(was.files, items) && fault.Crash? ==> !out.Stopped?)
    && (WholeTemps(was.temps, items) && (out.Done? || fault == Crash(None)) ==> WholeTemps(now.temps, items))
  }

  /** Applies a checkpoint, resuming whatever an interrupted apply left behind. */
  method Apply(w: World) returns (out: Outcome)
    requires w.checkpoint.Some? && ValidItems(w.checkpoint.value.items)
    modifies w`files, w`temps, w`checkpoint, w`fuel
    ensures var s := old(w.checkpoint).value.state;
      && (s in {Planned, Applying} ==> ApplyOk(old(DiskOf(w)), DiskOf(w), w.fault, out))
      && (s == Committed ==> out.Done? && DiskOf(w) == old(DiskOf(w)))
      && (s == Applied ==>
            && w.files == old(w.files) && w.temps == old(w.temps)
            && (out.Done? <==> AllAt(w.files, old(w.checkpoint).value.items, Forward))
            && (out.Done? ==> w.checkpoint == old(w.checkpoint)))
      && (s in {RollingBack, RolledBack, Blocked} ==> out.Refused? && DiskOf(w) == old(DiskOf(w)))
    ensures old(w.fuel) >= PassBudget(|old(w.checkpoint).value.items|) + 2 ==> !out.Died?
    ensures old(w.fuel) - PassBudget(|old(w.checkpoint).value.items|) - 2 <= w.fuel
  {
    var items := w.checkpoint.value.items;
    if w.checkpoint.value.state == Committed {
      return Done;
    }
    if w.checkpoint.value.state == Applied {
      out := RequireAll(w, items, Forward);
      return;
    }
    if w.checkpoint.value.state == Planned {
      out := Mark(w, Applying);
      if !out.Done? {
        return;
      }
    }
    if w.checkpoint.value.state != Applying {
      return Refused;
    }
    out := Drive(w, items, Forward);
    if !out.Done? {
      return;
    }
    out := Mark(w, Applied);
  }

  /** What rollback guarantees from every state it may start in. */
  ghost predicate RollbackOk(git: Checkout, was: Disk, now: Disk, fault: Fault, out: Outcome)
  {
    && was.checkpoint.Some? && now.checkpoint.Some?
    && var items := was.checkpoint.value.items;
    && out in {Done, Stopped, Died}
    && now.checkpoint.value == was.checkpoint.value.(state := now.checkpoint.value.state)
    && now.checkpoint.value.state in
         (if out.Done? then {RolledBack} else if out.Stopped? then {Blocked}
          else {was.checkpoint.value.state, RollingBack})
    && (now.checkpoint == was.checkpoint && was.checkpoint.value.state != RollingBack ==> now == was)
    && Advances(was.files, now.files, items, Backward) && WritesFirst(was.files, now.files, items, Backward)
    && ForeignTempsKept(was.temps, now.temps, items)
    && (out.Done? ==>
          && AllAt(now.files, items, Backward) && NoTemps(now.temps, items)
          && ComputeStateHash(git, now.files) == was.checkpoint.value.hashBefore)
    && (WholeTemps(was.temps, items) && Mixed(was.files, items) && fault.Crash? && out.Stopped? ==>
          && AllAt(now.files, items, Backward)
          && ComputeStateHash(git, now.files) != was.checkpoint.value.hashBefore)
    && (WholeTemps(was.temps, items) && (out.Done? || fault == Crash(None)) ==> WholeTemps(now.temps, items))
  }

  /** Restores the before images and checks the workspace hash against the checkpoint. */
  method Rollback(w: World) returns (out: Outcome)
    requires w.checkpoint.Some? && ValidItems(w.checkpoint.value.items)
    modifies w`files, w`temps, w`checkpoint, w`fuel
    ensures var s := old(w.checkpoint).value.state;
      && (s in {Planned, Applying, Applied, RollingBack} ==>
            RollbackOk(w.git, old(DiskOf(w)), DiskOf(w), w.fault, out))
      && (s == RolledBack ==>
            && DiskOf(w) == old(DiskOf(w)) && out in {Done, Refused, Died}
            && (out.Done? <==> AllAt(w.files, old(w.checkpoint).value.items, Backward)))
      && (s in {Committed, Blocked} ==> out.Refused? && DiskOf(w) == old(DiskOf(w)))
    ensures old(w.fuel) >= PassBudget(|old(w.checkpoint).value.items|) + 3 ==> !out.Died?
    ensures old(w.fuel) - PassBudget(|old(w.checkpoint).value.items|) - 3 <= w.fuel
  {
    var items := w.checkpoint.value.items;
    if w.checkpoint.value.state == RolledBack {
      out := RequireAll(w, items, Backward);
      return;
    }
    if w.checkpoint.value.state == Committed {
      return Refused;
    }
    if w.checkpoint.value.state != RollingBack {
      out := Mark(w, RollingBack);
      if !out.Done? {
        return;
      }
    }
    out := Drive(w, items, Backward);
    if !out.Done? {
      return;
    }
    if ComputeStateHash(w.git, w.files) != w.checkpoint.value.hashBefore {
      out := Block(w);
      return;
    }
    out := Mark(w, RolledBack);
  }

  /** One process life of the schedule. */
  datatype Life = Life(fuel: nat, fault: Fault)

  /** No crash in the schedule tore a temp write and no effect raised an I/O error. */
  ghost predicate CleanCrashes(lives: seq<Life>) {
    forall k :: 0 <= k < |lives| ==> lives[k].fault == Crash(None)
  }

  /** Moving every planned path of a mixed state reaches the image and nothing else. */
  lemma MixedKept(was: FileMap, now: FileMap, items: seq<Item>, d: Direction)
    requires Mixed(was, items) && Advances(was, now, items, d)
    ensures Mixed(now, items)
  {
  }

  lemma AdvancesCompose(a: FileMap, b: FileMap, c: FileMap, items: seq<Item>, d: Direction)
    requires ValidItems(items) && Advances(a, b, items, d) && Advances(b, c, items, d)
    ensures Advances(a, c, items, d)
  {
  }

  /** Convergence of apply: restarted after any number of interruptions, and then left alone,
      it ends Applied with every path at its after image and no temps, or Blocked
      after an I/O error or a torn temp. */
  method ConvergeApply(w: World, lives: seq<Life>) returns (out: Outcome)
    requires w.checkpoint.Some? && ValidItems(w.checkpoint.value.items)
    requires w.checkpoint.value.state in {Planned, Applying}
    requires Mixed(w.files, w.checkpoint.value.items) && WholeTemps(w.temps, w.checkpoint.value.items)
    modifies w
    ensures w.checkpoint.Some? && SameCheckpoint(old(w.checkpoint).value, w.checkpoint.value)
    ensures var items := old(w.checkpoint).value.items;
      && Advances(old(w.files), w.files, items, Forward) && WritesFirst(old(w.files), w.files, items, Forward)
      && (w.checkpoint.value.state == Applied ==> AllAt(w.files, items, Forward) && NoTemps(w.temps, items))
      && w.checkpoint.value.state in {Applied, Blocked}
      && (CleanCrashes(lives) ==> w.checkpoint.value.state == Applied)
  {
    var items := w.checkpoint.value.items;
    ghost var files0 := w.files;
    var all := lives + [Life(PassBudget(|items|) + 2, Crash(None))];
    var k := 0;
    while true
      invariant k < |all|
      invariant w.checkpoint.Some? && w.checkpoint.value.items == items
      invariant SameCheckpoint(old(w.checkpoint).value, w.checkpoint.value)
      invariant w.checkpoint.value.state in {Planned, Applying}
      invariant Advances(files0, w.files, items, Forward) && WritesFirst(files0, w.files, items, Forward)
      invariant CleanCrashes(lives) ==> WholeTemps(w.temps, items)
      decreases |all| - k
    {
      w.fuel, w.fault := all[k].fuel, all[k].fault;
      ghost var here := w.files;
      out := Apply(w);
      AdvancesCompose(files0, here, w.files, items, Forward);
      OrderCompose(files0, here, w.files, items, Forward);
      MixedKept(files0, here, items, Forward);
      if out.Done? || out.Stopped? {
        return;
      }
      k := k + 1;
    }
  }

  /** Convergence of rollback: it ends RolledBack on exactly the original files with no temps,
      or Blocked after an I/O error or a torn temp. */
  method ConvergeRollback(w: World, lives: seq<Life>, ghost base: FileMap) returns (out: Outcome)
    requires w.checkpoint.Some? && ValidItems(w.checkpoint.value.items)
    requires w.checkpoint.value.state in {Planned, Applying, Applied, RollingBack}
    requires Mixed(w.files, w.checkpoint.value.items) && WholeTemps(w.temps, w.checkpoint.value.items)
    requires AllAt(base, w.checkpoint.value.items, Backward)
    requires forall p :: p !in Paths(w.checkpoint.value.items) ==> Get(w.files, p) == Get(base, p)
    requires w.checkpoint.value.hashBefore == ComputeStateHash(w.git, base)
    modifies w
    ensures w.checkpoint.Some? && SameCheckpoint(old(w.checkpoint).value, w.checkpoint.value)
    ensures var items := old(w.checkpoint).value.items;
      && Advances(old(w.files), w.files, items, Backward) && WritesFirst(old(w.files), w.files, items, Backward)
      && (w.checkpoint.value.state == RolledBack ==> w.files == base && NoTemps(w.temps, items))
      && w.checkpoint.value.state in {RolledBack, Blocked}
      && (CleanCrashes(lives) ==> w.checkpoint.value.state == RolledBack)
  {
    var items := w.checkpoint.value.items;
    ghost var files0 := w.files;
    var all := lives + [Life(PassBudget(|items|) + 3, Crash(None))];
    var k := 0;
    while true
      invariant k < |all|
      invariant w.checkpoint.Some? && w.checkpoint.value.items == items
      invariant SameCheckpoint(old(w.checkpoint).value, w.checkpoint.value)
      invariant w.checkpoint.value.state in {Planned, Applying, Applied, RollingBack}
      invariant Advances(files0, w.files, items, Backward) && WritesFirst(files0, w.files, items, Backward)
      invariant CleanCrashes(lives) ==> WholeTemps(w.temps, items)
      decreases |all| - k
    {
      w.fuel, w.fault := all[k].fuel, all[k].fault;
      ghost var here := w.files;
      out := Rollback(w);
      AdvancesCompose(files0, here, w.files, items, Backward);
      OrderCompose(files0, here, w.files, items, Backward);
      MixedKept(files0, here, items, Backward);
      if AllAt(w.files, items, Backward) {
        RestoredFiles(w.files, base, items);
      }
      if out.Done? || out.Stopped? {
        return;
      }
      k := k + 1;
    }
  }

  lemma RestoredFiles(files: FileMap, base: FileMap, items: seq<Item>)
    requires AllAt(files, items, Backward) && AllAt(base, items, Backward)
    requires forall p :: p !in Paths(items) ==> Get(files, p) == Get(base, p)
    ensures files == base
  {
    forall p ensures Get(files, p) == Get(base, p) {
      if p in Paths(items) {
        var i :| 0 <= i < |items| && items[i].path == p;
      }
    }
    SameFiles(files, base);
  }
}
