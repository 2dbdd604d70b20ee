/** The journal never rejects its own writer. */
module Replay {
  import opened Outcomes
  import opened Checkpoints
  import opened ReceiptJournal
  import opened Publisher

  lemma NextAccepted(run: seq<Checkpoint>, k: nat)
    requires AcceptedRun(run) && k < |run|
    ensures WellFormed(run[k]) && Accepts(run[..k], run[k])
  {
  }

  lemma SealedKeepsCheckpoint(codec: Codec, log: seq<Receipt>, c: Checkpoint)
    ensures CheckpointsOf(log + [codec.Sealed(log, c)]) == CheckpointsOf(log) + [c]
  {
  }

  /** A journal that holds a prefix of an accepted run can be read. */
  lemma PrefixReads(j: FileReceiptJournal, run: seq<Checkpoint>)
    requires j.Valid() && AcceptedRun(run) && CheckpointsOf(j.Contents()) <= run
    ensures j.Intact()
  {
    hide Codec.Chain, Codec.Canonical, WellFormed, Records;
    j.ChainOfContents();
    DecodableCheckpoints(j.codec, j.Contents());
    forall i | 0 <= i < |j.Contents()| ensures WellFormed(CheckpointsOf(j.Contents())[i]) {
      NextAccepted(run, i);
    }
  }

  /** Store the rest of a run; a crash leaves a longer prefix to go on from, and no append is refused. */
  method StoreRun(j: FileReceiptJournal, run: seq<Checkpoint>) returns (o: JournalOutcome<()>)
    requires j.Valid() && AcceptedRun(run) && CheckpointsOf(j.Contents()) <= run
    modifies j
    ensures j.Valid() && !o.Blocked?
    ensures old(CheckpointsOf(j.Contents())) <= CheckpointsOf(j.Contents()) <= run
    ensures o.Done? ==> CheckpointsOf(j.Contents()) == run
  {
    hide FileReceiptJournal.Valid, FileReceiptJournal.Intact, AcceptedRun, WellFormed, Accepts, Codec.Sealed;
    PrefixReads(j, run);
    var stored :- j.LoadAll();
    var k := |stored|;
    while k < |run|
      invariant j.Valid() && k == |CheckpointsOf(j.Contents())|
      invariant old(CheckpointsOf(j.Contents())) <= CheckpointsOf(j.Contents()) <= run
    {
      NextAccepted(run, k);
      assert CheckpointsOf(j.Contents()) == run[..k];
      SealedKeepsCheckpoint(j.codec, j.Contents(), run[k]);
      PrefixReads(j, run);
      o := j.Append(run[k]);
      if !o.Done? { return; }
      k := k + 1;
    }
    o := Done(());
  }

  /** In particular every run, recovery and crash of the publisher leaves such a run. */
  method StorePublication(p: Task12Publisher, j: FileReceiptJournal) returns (o: JournalOutcome<()>)
    requires p.Safe() && j.Valid() && CheckpointsOf(j.Contents()) <= p.journal
    modifies j
    ensures j.Valid() && !o.Blocked?
    ensures o.Done? ==> CheckpointsOf(j.Contents()) == p.journal
  {
    o := StoreRun(j, p.journal);
  }
}
