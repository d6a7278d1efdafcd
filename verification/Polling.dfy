/** From the polled snapshot to the journal: what a restart of the polling process can set off. */
module Polling {
  import opened Base
  import opened JournalTables
  import opened Scheduling
  import Ingestion
  import Transport

  /** The journal's document for a polled one; `decode` reads its bytes. */
  function DocOf(decode: Bytes -> Content, d: Transport.Document): Doc {
    Doc(d.commit, decode(d.content))
  }

  /** Before action `i` the slot holds the receipt of this very document. */
  ghost predicate Receipted(acts: seq<Action>, i: nat, slot: Slot, doc: Doc) {
    i <= |acts| && slot in At(acts, i).receipts && At(acts, i).receipts[slot] == ReceiptFor(doc)
  }

  predicate TakenIn(acts: seq<Action>, i: nat, slot: Slot, doc: Doc) {
    i < |acts| && acts[i] == SeeCommand(slot, doc)
  }

  ghost predicate NoClaims(acts: seq<Action>, from: nat) {
    forall k :: from <= k < |acts| ==> ClaimAt(acts, k) == None
  }

  /** Once `first` has its receipt, taking in `second` for the same slot ends all claiming, in every run. */
  ghost predicate Freezes(slot: Slot, first: Doc, second: Doc) {
    forall acts, i, j :: Receipted(acts, i, slot, first) && i <= j && TakenIn(acts, j, slot, second) ==> NoClaims(acts, j + 1)
  }

  lemma RecommittedEverywhere(slot: Slot, first: Doc, second: Doc)
    requires first.content == second.content && first.commit != second.commit
    ensures Freezes(slot, first, second)
  {
    forall acts, i: nat, j: nat | Receipted(acts, i, slot, first) && i <= j && TakenIn(acts, j, slot, second)
      ensures NoClaims(acts, j + 1)
    {
      RunLater(acts, i, j);
      forall k | j + 1 <= k < |acts| ensures ClaimAt(acts, k) == None {
        Ingestion.RecommittedFreezes(acts, j, k, first.commit);
      }
    }
  }

  /** A command document is changed and reverted between two polls, and then the polling process restarts:
      it reports the same bytes under another commit, and from the moment the journal takes that in, no run claims
      anything any more. */
  method RestartFreezes(repo: Transport.Repository, first: Transport.Sha, second: Transport.Sha, p: Path,
                        slot: Slot, decode: Bytes -> Content)
    returns (kept: Transport.Document, reported: Transport.Document)
    requires Transport.Truthful(repo) && first in repo.trees && second in repo.trees && first != second
    requires repo.controlled(p) && Transport.Decodable(p) in repo.trees[first]
    requires !Transport.Named(repo.diff(first, second), p) && Transport.AllDecodable(repo.diff(first, second))
    requires repo.lastTouch(first, p) != repo.lastTouch(second, p)
    ensures kept.content == reported.content == repo.trees[second][Transport.Decodable(p)] && kept.commit != reported.commit
    ensures Freezes(slot, DocOf(decode, kept), DocOf(decode, reported))
  {
    kept, reported := Transport.RestartAfterRevert(repo, first, second, p);
    RecommittedEverywhere(slot, DocOf(decode, kept), DocOf(decode, reported));
  }
}
