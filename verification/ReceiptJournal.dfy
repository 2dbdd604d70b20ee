/**
 The crash-recoverable receipt journal: one directory of hard-linked files, changed one
 name at a time, with a power failure possible before every change.
 */
module ReceiptJournal {
  import opened Outcomes
  import opened Checkpoints

  newtype byte = x: int | 0 <= x < 256
  type Bytes = seq<byte>

  /** SHA-256 is taken to be injective: a digest is its preimage. */
  datatype Digest = Sha256(payload: Bytes)

  datatype Receipt = Receipt(checkpoint: Checkpoint, sequence: nat, previous: Option<Digest>)
  datatype Head = Head(sequence: nat, receipt: Digest)
  datatype Transaction = Transaction(previous: Option<Head>, next: Head, receipt: Receipt)

  predicate WellFormedReceipt(r: Receipt) { r.sequence > 0 && WellFormed(r.checkpoint) }
  predicate WellFormedHead(h: Head) { h.sequence > 0 }
  predicate WellFormedTransaction(t: Transaction) {
    && (t.previous.Some? ==> WellFormedHead(t.previous.value))
    && WellFormedHead(t.next)
    && WellFormedReceipt(t.receipt)
  }

  /** Canonical JSON and its strict, schema-checking reader. */
  datatype Codec = Codec(
    receiptBytes: Receipt -> Bytes, readReceipt: Bytes -> Option<Receipt>,
    headBytes: Head -> Bytes, readHead: Bytes -> Option<Head>,
    transactionBytes: Transaction -> Bytes, readTransaction: Bytes -> Option<Transaction>)
  {
    /**
     Different documents have different bytes; a well-formed one reads back, and the reader takes nothing but the
     bytes of well-formed ones. The writer, in contrast, encodes whatever it is given.
     */
    ghost predicate Canonical() {
      && (forall r, s :: receiptBytes(r) == receiptBytes(s) ==> r == s)
      && (forall t, u :: transactionBytes(t) == transactionBytes(u) ==> t == u)
      && (forall r :: WellFormedReceipt(r) ==> readReceipt(receiptBytes(r)) == Some(r))
      && (forall b :: readReceipt(b).Some? ==>
            WellFormedReceipt(readReceipt(b).value) && receiptBytes(readReceipt(b).value) == b)
      && (forall h :: WellFormedHead(h) ==> readHead(headBytes(h)) == Some(h))
      && (forall b :: readHead(b).Some? ==>
            WellFormedHead(readHead(b).value) && headBytes(readHead(b).value) == b)
      && (forall t :: WellFormedTransaction(t) ==> readTransaction(transactionBytes(t)) == Some(t))
      && (forall b :: readTransaction(b).Some? ==>
            WellFormedTransaction(readTransaction(b).value) && transactionBytes(readTransaction(b).value) == b)
    }

    function ReceiptDigest(r: Receipt): Digest { Sha256(receiptBytes(r)) }

    /** The digest the next receipt must carry. */
    function TailDigest(log: seq<Receipt>): Option<Digest> {
      if log == [] then None else Some(ReceiptDigest(log[|log| - 1]))
    }

    /** The head that anchors a log; an empty log has none. */
    function HeadOf(log: seq<Receipt>): Option<Head> {
      if log == [] then None else Some(Head(|log|, ReceiptDigest(log[|log| - 1])))
    }

    /** One step of the chain check: is r an admissible receipt after log? */
    predicate Follows(log: seq<Receipt>, r: Receipt) {
      && r.sequence == |log| + 1
      && r.previous == TailDigest(log)
      && (if log == [] then Initial(r.checkpoint)
          else SameRun(log[0].checkpoint, r.checkpoint) && Transition(log[|log| - 1].checkpoint, r.checkpoint))
    }

    ghost predicate Chain(log: seq<Receipt>) {
      forall i :: 0 <= i < |log| ==> Follows(log[..i], log[i])
    }

    /** The receipt an append of this checkpoint writes. */
    function Sealed(log: seq<Receipt>, c: Checkpoint): Receipt {
      Receipt(c, |log| + 1, TailDigest(log))
    }

    function TransactionFor(log: seq<Receipt>, r: Receipt): Transaction {
      Transaction(HeadOf(log), Head(|log| + 1, ReceiptDigest(r)), r)
    }
  }

  /** Every receipt satisfies the reader's schema. */
  ghost predicate Decodable(log: seq<Receipt>) {
    forall i :: 0 <= i < |log| ==> WellFormedReceipt(log[i])
  }

  lemma DecodableExtend(log: seq<Receipt>, r: Receipt)
    ensures Decodable(log + [r]) <==> Decodable(log) && WellFormedReceipt(r)
  {
    hide WellFormedReceipt;
    assert (log + [r])[|log|] == r;
    forall i | 0 <= i < |log| ensures (log + [r])[i] == log[i] {
    }
  }

  lemma DecodableCheckpoints(k: Codec, log: seq<Receipt>)
    requires k.Chain(log)
    ensures Decodable(log) <==> forall i :: 0 <= i < |log| ==> WellFormed(CheckpointsOf(log)[i])
  {
    forall i | 0 <= i < |log| ensures log[i].sequence > 0 {
      assert k.Follows(log[..i], log[i]);
    }
    forall i | 0 <= i < |log| ensures WellFormedReceipt(log[i]) <==> WellFormed(CheckpointsOf(log)[i]) {
    }
  }

  function CheckpointsOf(log: seq<Receipt>): (cs: seq<Checkpoint>)
    ensures |cs| == |log| && forall i :: 0 <= i < |log| ==> cs[i] == log[i].checkpoint
  {
    seq(|log|, i requires 0 <= i < |log| => log[i].checkpoint)
  }

  lemma ChainExtend(k: Codec, log: seq<Receipt>, r: Receipt)
    requires k.Chain(log) && k.Follows(log, r)
    ensures k.Chain(log + [r])
  {
    forall i | 0 <= i < |log + [r]| ensures k.Follows((log + [r])[..i], (log + [r])[i]) {
      assert (log + [r])[..i] == log[..i];
      assert log[..|log|] == log;
    }
  }

  lemma {:induction false} ChainSameRun(k: Codec, log: seq<Receipt>, i: nat)
    requires k.Chain(log) && i < |log|
    ensures SameRun(log[0].checkpoint, log[i].checkpoint)
  {
    assert k.Follows(log[..i], log[i]);
  }

  /** A chain of receipts is a run of checkpoints each accepted after its predecessors. */
  lemma {:induction false} ChainIsAcceptedRun(k: Codec, log: seq<Receipt>)
    requires k.Chain(log) && Decodable(log)
    ensures AcceptedRun(CheckpointsOf(log))
  {
    var cs := CheckpointsOf(log);
    forall i | 0 <= i < |cs| ensures WellFormed(cs[i]) && Accepts(cs[..i], cs[i]) {
      assert k.Follows(log[..i], log[i]);
      if i > 0 {
        ChainSameRun(k, log, i - 1);
        assert log[..i][i - 1] == log[i - 1];
        assert cs[..i][i - 1] == cs[i - 1];
      }
    }
  }

  /** Accepting a checkpoint is exactly being able to chain its receipt. */
  lemma {:induction false} SealedFollows(k: Codec, log: seq<Receipt>, c: Checkpoint)
    requires k.Chain(log)
    ensures k.Follows(log, k.Sealed(log, c)) <==> Accepts(CheckpointsOf(log), c)
  {
    if log != [] {
      ChainSameRun(k, log, |log| - 1);
    }
  }

  /** The part of the chain check that concerns digests only. */
  predicate LinkedAt(k: Codec, log: seq<Receipt>, i: nat)
    requires i < |log|
  {
    log[i].previous == (if i == 0 then None else Some(k.ReceiptDigest(log[i - 1])))
  }

  lemma ChainLinkedAt(k: Codec, log: seq<Receipt>, i: nat)
    requires k.Chain(log) && i < |log|
    ensures LinkedAt(k, log, i)
  {
    assert k.Follows(log[..i], log[i]);
  }

  lemma ReceiptBytesInjective(k: Codec, a: Receipt, b: Receipt)
    requires k.Canonical()
    requires k.ReceiptDigest(a) == k.ReceiptDigest(b)
    ensures a == b
  {
    assert k.receiptBytes(a) == k.receiptBytes(b);
  }

  lemma {:induction false} BackLinkedPins(k: Codec, a: seq<Receipt>, b: seq<Receipt>, i: nat)
    requires k.Canonical()
    requires forall j {:trigger LinkedAt(k, a, j)} :: 0 <= j < |a| ==> LinkedAt(k, a, j)
    requires forall j {:trigger LinkedAt(k, b, j)} :: 0 <= j < |b| ==> LinkedAt(k, b, j)
    requires |a| == |b| && i < |a| && a[|a| - 1] == b[|a| - 1]
    ensures a[i] == b[i]
    decreases |a| - i
  {
    if i + 1 < |a| {
      BackLinkedPins(k, a, b, i + 1);
      assert LinkedAt(k, a, i) && LinkedAt(k, b, i) && LinkedAt(k, a, i + 1) && LinkedAt(k, b, i + 1);
      ReceiptBytesInjective(k, a[i], b[i]);
    }
  }

  /** The head alone pins every receipt: two chains anchored by one head are one chain. */
  lemma {:induction false} HeadPinsChain(k: Codec, a: seq<Receipt>, b: seq<Receipt>)
    requires k.Canonical() && k.Chain(a) && k.Chain(b)
    requires k.HeadOf(a) == k.HeadOf(b)
    ensures a == b
  {
    forall j | 0 <= j < |a| ensures LinkedAt(k, a, j) { ChainLinkedAt(k, a, j); }
    forall j | 0 <= j < |b| ensures LinkedAt(k, b, j) { ChainLinkedAt(k, b, j); }
    if a != [] {
      assert LinkedAt(k, a, |a| - 1) && LinkedAt(k, b, |b| - 1);
      ReceiptBytesInjective(k, a[|a| - 1], b[|b| - 1]);
      forall i | 0 <= i < |a| ensures a[i] == b[i] {
        BackLinkedPins(k, a, b, i);
      }
    }
  }

  /** The journal accepts some checkpoint that its own reader refuses: a planned probe that already has a winner. */
  lemma {:induction false} IllFormedIsAccepted(first: Checkpoint)
    requires Initial(first)
    ensures Accepts([], first) && WellFormed(first)
    ensures Accepts([first], WithEarlyWinner(first)) && !WellFormed(WithEarlyWinner(first))
  {
  }

  function WithEarlyWinner(c: Checkpoint): Checkpoint {
    c.(createProbe := Some(Probe(CreateProbe, "", ProbeRef(CreateProbe, ""), Planned, None, Some(0), None)))
  }

  /** The reader takes the receipt of a checkpoint, and a transaction that holds it, exactly when it is well formed. */
  lemma {:induction false} ReadExactlyWellFormed(k: Codec, log: seq<Receipt>, c: Checkpoint)
    requires k.Canonical()
    ensures var r := k.Sealed(log, c);
            && k.readReceipt(k.receiptBytes(r)) == (if WellFormed(c) then Some(r) else None)
            && k.readTransaction(k.transactionBytes(k.TransactionFor(log, r)))
               == (if WellFormed(c) then Some(k.TransactionFor(log, r)) else None)
  {
    var r := k.Sealed(log, c);
    var t := k.TransactionFor(log, r);
    var read, linked := k.readReceipt(k.receiptBytes(r)), k.readTransaction(k.transactionBytes(t));
    if read.Some? { assert k.receiptBytes(read.value) == k.receiptBytes(r); }
    if linked.Some? { assert k.transactionBytes(linked.value) == k.transactionBytes(t); }
    assert WellFormedReceipt(r) <==> WellFormed(c);
    assert WellFormedTransaction(t) <==> WellFormed(c);
  }

  // ---------------------------------------------------------------- the directory

  datatype Name =
    | HeadFile
    | HeadNext
    | HeadNextStaged
    | TransactionFile
    | TransactionStaged
    | ReceiptFile(index: nat)
    | ReceiptStaged(index: nat)

  /** A directory entry: the inode it names and that inode's content. */
  datatype Entry = Entry(inode: nat, content: Bytes)

  type Directory = map<Name, Entry>

  function Links(d: Directory, inode: nat): set<Name> {
    set n | n in d && d[n].inode == inode
  }

  /** st_nlink of the inode a name refers to. */
  function LinkCount(d: Directory, n: Name): nat
    requires n in d
  {
    |Links(d, d[n].inode)|
  }

  predicate StagingPair(a: Name, b: Name) {
    || (a == HeadNextStaged && b == HeadNext)
    || (a == TransactionStaged && b == TransactionFile)
    || (a.ReceiptStaged? && b.ReceiptFile? && a.index == b.index)
  }

  /** Only a staged name and its target ever share an inode. */
  ghost predicate LinksDisciplined(d: Directory) {
    forall a, b :: a in d && b in d && a != b && d[a].inode == d[b].inode ==> StagingPair(a, b) || StagingPair(b, a)
  }

  /** No name but these two differs between the directories. */
  ghost predicate SameExcept(d: Directory, e: Directory, a: Name, b: Name) {
    forall n :: n != a && n != b ==> (n in d <==> n in e) && (n in d ==> d[n] == e[n])
  }

  lemma SingleLink(d: Directory, n: Name)
    requires n in d
    requires forall m :: m in d && d[m].inode == d[n].inode ==> m == n
    ensures LinkCount(d, n) == 1
  {
    assert Links(d, d[n].inode) == {n};
  }

  lemma UniqueLink(d: Directory, n: Name)
    requires n in d && LinkCount(d, n) == 1
    ensures forall m :: m in d && d[m].inode == d[n].inode ==> m == n
  {
    var links := Links(d, d[n].inode);
    assert n in links;
    forall m | m in d && d[m].inode == d[n].inode ensures m == n {
      assert m in links && |links - {n}| == 0;
    }
  }

  lemma DoubleLink(d: Directory, staged: Name, target: Name)
    requires staged in d && target in d && staged != target
    requires d[staged].inode == d[target].inode
    requires LinksDisciplined(d) && StagingPair(staged, target)
    ensures LinkCount(d, staged) == LinkCount(d, target) == 2
  {
    assert Links(d, d[staged].inode) == {staged, target};
  }

  // ---------------------------------------------------------------- what a directory records

  lemma LoneStaged(d: Directory, staged: Name, target: Name)
    requires LinksDisciplined(d) && StagingPair(staged, target) && staged in d && target !in d
    ensures LinkCount(d, staged) == 1
  {
    SingleLink(d, staged);
  }

  lemma LoneTarget(d: Directory, staged: Name, target: Name)
    requires LinksDisciplined(d) && StagingPair(staged, target) && target in d && staged !in d
    ensures LinkCount(d, target) == 1
  {
    SingleLink(d, target);
  }

  /**
   Where the publication of one payload may have got to: neither name; a staged prefix; both
   names on one complete inode; or the target alone.
   */
  ghost predicate InSlot(d: Directory, staged: Name, target: Name, payload: Bytes) {
    && (staged in d ==> d[staged].content <= payload)
    && (target in d ==> d[target].content == payload && (staged in d ==> d[staged] == d[target]))
  }

  ghost predicate Unpublished(d: Directory, staged: Name, target: Name) {
    staged !in d && target !in d
  }

  ghost predicate Published(d: Directory, staged: Name, target: Name, payload: Bytes) {
    staged !in d && target in d && d[target].content == payload
  }

  ghost predicate HeadIs(k: Codec, d: Directory, log: seq<Receipt>) {
    if log == [] then HeadFile !in d
    else HeadFile in d && d[HeadFile].content == k.headBytes(k.HeadOf(log).value)
  }

  ghost predicate ReceiptsOnDisk(k: Codec, d: Directory, log: seq<Receipt>) {
    forall i :: 1 <= i <= |log| ==>
      ReceiptFile(i) in d && ReceiptStaged(i) !in d && d[ReceiptFile(i)].content == k.receiptBytes(log[i - 1])
  }

  /** No receipt name outside 1..limit is in use. */
  ghost predicate ReceiptsWithin(d: Directory, limit: nat) {
    && (forall i: nat :: ReceiptFile(i) in d ==> 1 <= i <= limit)
    && (forall i: nat :: ReceiptStaged(i) in d ==> 1 <= i <= limit)
  }

  /** Between appends: the log, its head, and at most an unlinked staged transaction. */
  ghost predicate Quiet(k: Codec, d: Directory, log: seq<Receipt>) {
    && ReceiptsOnDisk(k, d, log)
    && ReceiptsWithin(d, |log|)
    && HeadIs(k, d, log)
    && TransactionFile !in d
    && HeadNext !in d
    && HeadNextStaged !in d
  }

  function NextHeadBytes(k: Codec, log: seq<Receipt>, r: Receipt): Bytes {
    k.headBytes(Head(|log| + 1, k.ReceiptDigest(r)))
  }

  /** The linked transaction and the log it extends. */
  ghost predicate Committed(k: Codec, d: Directory, log: seq<Receipt>, r: Receipt) {
    && k.Follows(log, r)
    && ReceiptsOnDisk(k, d, log)
    && ReceiptsWithin(d, |log| + 1)
    && TransactionFile in d
    && InSlot(d, TransactionStaged, TransactionFile, k.transactionBytes(k.TransactionFor(log, r)))
  }

  /** The new receipt is still on its way; the head has not been touched. */
  ghost predicate PublishingReceipt(k: Codec, d: Directory, log: seq<Receipt>, r: Receipt) {
    && InSlot(d, ReceiptStaged(|log| + 1), ReceiptFile(|log| + 1), k.receiptBytes(r))
    && HeadIs(k, d, log)
    && Unpublished(d, HeadNextStaged, HeadNext)
  }

  /** The new receipt is in place; the next head is on its way. */
  ghost predicate PublishingHead(k: Codec, d: Directory, log: seq<Receipt>, r: Receipt) {
    && Published(d, ReceiptStaged(|log| + 1), ReceiptFile(|log| + 1), k.receiptBytes(r))
    && HeadIs(k, d, log)
    && InSlot(d, HeadNextStaged, HeadNext, NextHeadBytes(k, log, r))
  }

  /** Receipt and head are in place; only the transaction remains to be cleared. */
  ghost predicate HeadInstalled(k: Codec, d: Directory, log: seq<Receipt>, r: Receipt) {
    && Published(d, ReceiptStaged(|log| + 1), ReceiptFile(|log| + 1), k.receiptBytes(r))
    && HeadIs(k, d, log + [r])
    && Unpublished(d, HeadNextStaged, HeadNext)
  }

  /** Inside an append of r: the linked transaction, and how far its consequences have got. */
  ghost predicate Appending(k: Codec, d: Directory, log: seq<Receipt>, r: Receipt) {
    && Committed(k, d, log, r)
    && (PublishingReceipt(k, d, log, r) || PublishingHead(k, d, log, r) || HeadInstalled(k, d, log, r))
  }

  /** What the directory stands for: a log at rest, or a log with one committed append under way. */
  ghost predicate Records(k: Codec, d: Directory, log: seq<Receipt>, pending: Option<Receipt>) {
    && LinksDisciplined(d)
    && k.Chain(log)
    && (if pending.None? then Quiet(k, d, log) else Appending(k, d, log, pending.value))
  }

  lemma ReceiptStep(k: Codec, d: Directory, e: Directory, log: seq<Receipt>, r: Receipt)
    requires Committed(k, d, log, r) && PublishingReceipt(k, d, log, r)
    requires SameExcept(d, e, ReceiptStaged(|log| + 1), ReceiptFile(|log| + 1))
    requires InSlot(e, ReceiptStaged(|log| + 1), ReceiptFile(|log| + 1), k.receiptBytes(r))
    ensures Committed(k, e, log, r) && PublishingReceipt(k, e, log, r)
    ensures Published(e, ReceiptStaged(|log| + 1), ReceiptFile(|log| + 1), k.receiptBytes(r)) ==>
              PublishingHead(k, e, log, r)
  {
    hide Codec.Follows, Codec.Chain, Codec.TransactionFor, Codec.HeadOf;
  }

  /** While only its staged name exists, the transaction does not count; */
  lemma PublishStaged(k: Codec, d: Directory, e: Directory, log: seq<Receipt>)
    requires Records(k, d, log, None) && LinksDisciplined(e)
    requires SameExcept(d, e, TransactionStaged, TransactionFile) && TransactionFile !in e
    ensures Records(k, e, log, None)
  {
    hide Codec.Follows, Codec.Chain, LinksDisciplined;
  }

  /** once it is linked, the append is under way. */
  lemma PublishLinked(k: Codec, d: Directory, e: Directory, log: seq<Receipt>, r: Receipt)
    requires Records(k, d, log, None) && LinksDisciplined(e) && k.Follows(log, r) && TransactionFile in e
    requires SameExcept(d, e, TransactionStaged, TransactionFile)
    requires InSlot(e, TransactionStaged, TransactionFile, k.transactionBytes(k.TransactionFor(log, r)))
    ensures Committed(k, e, log, r) && PublishingReceipt(k, e, log, r) && Records(k, e, log, Some(r))
  {
    hide Codec.Follows, Codec.Chain, LinksDisciplined, Codec.TransactionFor, Codec.HeadOf;
  }

  lemma PublishStep(k: Codec, d: Directory, e: Directory, log: seq<Receipt>, r: Receipt)
    requires Records(k, d, log, None) && LinksDisciplined(e) && k.Follows(log, r)
    requires SameExcept(d, e, TransactionStaged, TransactionFile)
    requires InSlot(e, TransactionStaged, TransactionFile, k.transactionBytes(k.TransactionFor(log, r)))
    ensures Records(k, e, log, if TransactionFile in e then Some(r) else None)
    ensures TransactionFile in e ==> Committed(k, e, log, r) && PublishingReceipt(k, e, log, r)
  {
    hide *;
    if TransactionFile in e { PublishLinked(k, d, e, log, r); } else { PublishStaged(k, d, e, log); }
  }

  lemma RecordsQuiet(k: Codec, d: Directory, log: seq<Receipt>)
    requires Records(k, d, log, None)
    ensures TransactionFile !in d && HeadNext !in d && HeadNextStaged !in d
    ensures ReceiptsOnDisk(k, d, log) && ReceiptsWithin(d, |log|) && HeadIs(k, d, log) && k.Chain(log)
  {
  }

  lemma RecordsUnfold(k: Codec, d: Directory, log: seq<Receipt>, r: Receipt)
    requires Records(k, d, log, Some(r))
    ensures k.Chain(log) && Committed(k, d, log, r)
    ensures PublishingReceipt(k, d, log, r) || PublishingHead(k, d, log, r) || HeadInstalled(k, d, log, r)
  {
  }

  lemma RecordsFold(k: Codec, d: Directory, log: seq<Receipt>, r: Receipt)
    requires LinksDisciplined(d) && k.Chain(log) && Committed(k, d, log, r)
    requires PublishingReceipt(k, d, log, r) || PublishingHead(k, d, log, r) || HeadInstalled(k, d, log, r)
    ensures Records(k, d, log, Some(r))
  {
  }

  /** Two logs that one head file anchors have one head. */
  lemma HeadAnchorsOne(k: Codec, d: Directory, a: seq<Receipt>, b: seq<Receipt>)
    requires k.Canonical() && HeadIs(k, d, a) && HeadIs(k, d, b)
    ensures k.HeadOf(a) == k.HeadOf(b)
  {
    HeadReadsBack(k, d, a);
    HeadReadsBack(k, d, b);
  }

  lemma QuietReadable(k: Codec, d: Directory, log: seq<Receipt>)
    requires LinksDisciplined(d) && Records(k, d, log, None)
    ensures NumberedTo(d, |log|) && SinglyLinkedTo(d, |log|) && Readable(k, d, log)
  {
    RecordsQuiet(k, d, log);
    LogReadable(k, d, log);
  }

  lemma NotYetInstalled(k: Codec, d: Directory, log: seq<Receipt>, r: Receipt)
    requires k.Canonical() && Records(k, d, log, Some(r)) && PublishingReceipt(k, d, log, r)
    ensures !HeadInstalled(k, d, log, r)
  {
    hide Codec.Follows, Codec.Chain;
    HeadTellsStage(k, d, log, r);
  }

  lemma HeadUntouched(k: Codec, d: Directory, e: Directory, log: seq<Receipt>)
    requires HeadFile in d <==> HeadFile in e
    requires HeadFile in d ==> d[HeadFile] == e[HeadFile]
    ensures HeadIs(k, d, log) <==> HeadIs(k, e, log)
  {
  }

  lemma CommittedFacts(k: Codec, d: Directory, log: seq<Receipt>, r: Receipt)
    requires Committed(k, d, log, r)
    ensures k.Follows(log, r) && r.sequence == |log| + 1 && r.previous == k.TailDigest(log)
    ensures k.Sealed(log, r.checkpoint) == r
    ensures ReceiptsWithin(d, |log| + 1)
    ensures forall i: nat :: ReceiptStaged(i) in d ==> i == |log| + 1
    ensures TransactionFile in d
    ensures d[TransactionFile].content == k.transactionBytes(k.TransactionFor(log, r))
  {
    assert forall i :: 1 <= i <= |log| ==> ReceiptFile(i) in d;
  }

  lemma LogReadableWhileAppending(k: Codec, d: Directory, log: seq<Receipt>, r: Receipt)
    requires LinksDisciplined(d) && Committed(k, d, log, r)
    ensures Readable(k, d, log)
  {
    LogReadable(k, d, log);
  }

  /** Whatever stage the append is in, its receipt publication can be resumed. */
  lemma ReceiptResumable(k: Codec, d: Directory, log: seq<Receipt>, r: Receipt)
    requires Records(k, d, log, Some(r))
    ensures InSlot(d, ReceiptStaged(|log| + 1), ReceiptFile(|log| + 1), k.receiptBytes(r))
    ensures !PublishingReceipt(k, d, log, r) ==>
              Published(d, ReceiptStaged(|log| + 1), ReceiptFile(|log| + 1), k.receiptBytes(r))
  {
    hide Codec.Follows, Codec.Chain;
  }

  /** Dropping the staged name of the linked new receipt keeps what the directory records. */
  lemma ReceiptCompletionStep(k: Codec, d: Directory, log: seq<Receipt>, r: Receipt)
    requires Records(k, d, log, Some(r))
    requires ReceiptStaged(|log| + 1) in d && ReceiptFile(|log| + 1) in d
    ensures d[ReceiptStaged(|log| + 1)] == d[ReceiptFile(|log| + 1)]
    ensures PublishingReceipt(k, d, log, r)
    ensures Records(k, d - {ReceiptStaged(|log| + 1)}, log, Some(r))
  {
    hide Codec.Follows, Codec.Chain;
    ReceiptStep(k, d, d - {ReceiptStaged(|log| + 1)}, log, r);
  }

  /** With the receipt in place and the old head still there, the head is what remains to be published. */
  lemma ReceiptStageEnds(k: Codec, d: Directory, e: Directory, log: seq<Receipt>, r: Receipt)
    requires k.Canonical() && Records(k, d, log, Some(r)) && Records(k, e, log, Some(r)) && !HeadInstalled(k, d, log, r)
    requires SameExcept(d, e, ReceiptStaged(|log| + 1), ReceiptFile(|log| + 1))
    requires Published(e, ReceiptStaged(|log| + 1), ReceiptFile(|log| + 1), k.receiptBytes(r))
    ensures PublishingHead(k, e, log, r) && (TransactionStaged in e <==> TransactionStaged in d)
  {
    hide Codec.Follows, Codec.Chain;
    HeadTellsStage(k, d, log, r);
    HeadTellsStage(k, e, log, r);
  }

  lemma AdvancedStage(k: Codec, d: Directory, e: Directory, log: seq<Receipt>, r: Receipt)
    requires k.Canonical() && Records(k, d, log, Some(r)) && Records(k, e, log, Some(r)) && HeadInstalled(k, d, log, r)
    requires SameExcept(d, e, ReceiptStaged(|log| + 1), ReceiptFile(|log| + 1))
    ensures HeadInstalled(k, e, log, r) && (TransactionStaged in e <==> TransactionStaged in d)
    ensures HeadNext !in e && HeadNextStaged !in e
  {
    hide Codec.Follows, Codec.Chain;
    HeadTellsStage(k, d, log, r);
    HeadTellsStage(k, e, log, r);
  }

  /** The head tells the stages before and after its installation apart. */
  lemma HeadTellsStage(k: Codec, d: Directory, log: seq<Receipt>, r: Receipt)
    requires k.Canonical() && Records(k, d, log, Some(r))
    ensures HeadIs(k, d, log) || HeadIs(k, d, log + [r])
    ensures HeadIs(k, d, log) <==> !HeadInstalled(k, d, log, r)
    ensures k.HeadOf(log) != k.HeadOf(log + [r])
    ensures k.HeadOf(log + [r]) == Some(Head(|log| + 1, k.ReceiptDigest(r)))
  {
    hide Codec.Follows, Codec.Chain;
    if HeadIs(k, d, log) { HeadReadsBack(k, d, log); }
    if HeadIs(k, d, log + [r]) { HeadReadsBack(k, d, log + [r]); }
  }

  lemma HeadReadsBack(k: Codec, d: Directory, log: seq<Receipt>)
    requires k.Canonical() && HeadIs(k, d, log)
    ensures if log == [] then HeadFile !in d
            else HeadFile in d && k.readHead(d[HeadFile].content) == k.HeadOf(log)
    ensures log == [] <==> k.HeadOf(log) == None
  {
  }

  lemma HeadStep(k: Codec, d: Directory, e: Directory, log: seq<Receipt>, r: Receipt)
    requires Committed(k, d, log, r) && PublishingHead(k, d, log, r)
    requires SameExcept(d, e, HeadNextStaged, HeadNext)
    requires InSlot(e, HeadNextStaged, HeadNext, NextHeadBytes(k, log, r))
    ensures Committed(k, e, log, r) && PublishingHead(k, e, log, r)
    ensures TransactionStaged in e <==> TransactionStaged in d
  {
    hide Codec.Follows, Codec.Chain;
  }

  lemma InstallStep(k: Codec, d: Directory, log: seq<Receipt>, r: Receipt)
    requires Committed(k, d, log, r) && PublishingHead(k, d, log, r)
    requires Published(d, HeadNextStaged, HeadNext, NextHeadBytes(k, log, r))
    ensures var e := d[HeadFile := d[HeadNext]] - {HeadNext}; Committed(k, e, log, r) && HeadInstalled(k, e, log, r)
  {
    hide Codec.Follows, Codec.Chain;
  }

  lemma StagedTransactionStep(k: Codec, d: Directory, log: seq<Receipt>, pending: Option<Receipt>)
    requires Records(k, d, log, pending)
    ensures Records(k, d - {TransactionStaged}, log, pending)
    ensures TransactionStaged in d && TransactionFile in d ==> d[TransactionStaged] == d[TransactionFile]
  {
    hide Codec.Follows, Codec.Chain;
  }

  lemma ClearStep(k: Codec, d: Directory, log: seq<Receipt>, r: Receipt)
    requires Committed(k, d, log, r) && HeadInstalled(k, d, log, r) && TransactionStaged !in d
    requires k.Chain(log)
    ensures k.Chain(log + [r]) && Quiet(k, d - {TransactionFile}, log + [r])
  {
    ChainExtend(k, log, r);
    hide Codec.Follows, Codec.Chain, Codec.TransactionFor, Codec.HeadOf, InSlot;
    var e, all := d - {TransactionFile}, log + [r];
    forall i | 1 <= i <= |all|
      ensures ReceiptFile(i) in e && ReceiptStaged(i) !in e && e[ReceiptFile(i)].content == k.receiptBytes(all[i - 1])
    {
      if i <= |log| { assert all[i - 1] == log[i - 1] && ReceiptFile(i) in d; }
    }
    assert ReceiptsOnDisk(k, e, all);
    assert ReceiptsWithin(e, |all|);
  }

  /** The receipt indices a gapless directory of n receipts has. */
  function Interval(n: nat): (indices: set<nat>)
    ensures |indices| == n && forall i: nat :: i in indices <==> 1 <= i <= n
  {
    if n == 0 then {} else Interval(n - 1) + {n}
  }

  ghost predicate NumberedTo(d: Directory, n: nat) {
    forall i: nat :: ReceiptFile(i) in d <==> 1 <= i <= n
  }

  ghost predicate SinglyLinkedTo(d: Directory, n: nat) {
    forall i: nat :: 1 <= i <= n && ReceiptFile(i) in d ==> LinkCount(d, ReceiptFile(i)) == 1
  }

  /** A chain stored on disk is the only chain that can be read from there. */
  lemma ChainReadBack(k: Codec, d: Directory, stored: seq<Receipt>, read: seq<Receipt>)
    requires k.Canonical() && k.Chain(stored) && Decodable(stored) && |read| < |stored|
    requires forall j :: 1 <= j <= |stored| ==>
               ReceiptFile(j) in d && d[ReceiptFile(j)].content == k.receiptBytes(stored[j - 1])
    requires k.Chain(read)
    requires forall j :: 1 <= j <= |read| ==>
               ReceiptFile(j) in d && d[ReceiptFile(j)].content == k.receiptBytes(read[j - 1])
    ensures var next := d[ReceiptFile(|read| + 1)].content;
            k.readReceipt(next).Some? && k.Follows(read, k.readReceipt(next).value)
  {
    forall j | 0 <= j < |read| ensures read[j] == stored[j] {
      ChainLinkedAt(k, read, j);
      ChainLinkedAt(k, stored, j);
      assert ReceiptFile(j + 1) in d;
      ReceiptBytesInjective(k, read[j], stored[j]);
    }
    assert read == stored[..|read|];
    assert k.Follows(stored[..|read|], stored[|read|]);
    assert WellFormedReceipt(stored[|read|]);
    assert ReceiptFile(|read| + 1) in d;
  }

  /** Every receipt of the log is on disk and has one link. */
  ghost predicate Readable(k: Codec, d: Directory, log: seq<Receipt>) {
    forall i :: 1 <= i <= |log| ==>
      ReceiptFile(i) in d && LinkCount(d, ReceiptFile(i)) == 1
        && d[ReceiptFile(i)].content == k.receiptBytes(log[i - 1])
  }

  /** The first receipt files hold these receipts. */
  ghost predicate StoredAs(k: Codec, d: Directory, log: seq<Receipt>) {
    forall j :: 1 <= j <= |log| ==> ReceiptFile(j) in d && d[ReceiptFile(j)].content == k.receiptBytes(log[j - 1])
  }

  /** A log of this length that the reader can take from the directory. */
  ghost predicate Loadable(k: Codec, d: Directory, log: seq<Receipt>, count: nat) {
    k.Chain(log) && Decodable(log) && |log| == count && Readable(k, d, log)
  }

  /** The next receipt file is there, has one link, and holds a receipt that follows. */
  ghost predicate LoadsNext(k: Codec, d: Directory, read: seq<Receipt>) {
    var next := ReceiptFile(|read| + 1);
    && next in d
    && LinkCount(d, next) == 1
    && k.readReceipt(d[next].content).Some?
    && k.Follows(read, k.readReceipt(d[next].content).value)
  }

  lemma NothingStored(k: Codec, d: Directory)
    ensures k.Chain([]) && Decodable([]) && StoredAs(k, d, [])
  {
  }

  lemma LoadableNext(k: Codec, d: Directory, log: seq<Receipt>, count: nat, read: seq<Receipt>)
    requires k.Canonical() && Loadable(k, d, log, count) && |read| < count && k.Chain(read) && StoredAs(k, d, read)
    ensures LoadsNext(k, d, read)
  {
    hide Codec.Chain, Codec.Canonical, Codec.Follows, Decodable;
    ChainReadBack(k, d, log, read);
    assert LinkCount(d, ReceiptFile(|read| + 1)) == 1;
  }

  lemma LoadableIs(k: Codec, d: Directory, log: seq<Receipt>, read: seq<Receipt>)
    requires k.Canonical() && Loadable(k, d, log, |read|) && k.Chain(read) && StoredAs(k, d, read)
    ensures log == read
  {
    hide Codec.Chain, Codec.Canonical, Codec.Follows, Decodable;
    StoredChainUnique(k, d, log, read);
  }

  lemma ReadBackExtends(k: Codec, d: Directory, read: seq<Receipt>, next: Receipt)
    requires k.Canonical() && k.Chain(read) && Decodable(read) && StoredAs(k, d, read) && k.Follows(read, next)
    requires ReceiptFile(|read| + 1) in d && k.readReceipt(d[ReceiptFile(|read| + 1)].content) == Some(next)
    ensures k.Chain(read + [next]) && Decodable(read + [next]) && StoredAs(k, d, read + [next])
  {
    assert WellFormedReceipt(next) && k.receiptBytes(next) == d[ReceiptFile(|read| + 1)].content;
    hide Codec.Chain, Codec.Canonical, Codec.Follows, Decodable, WellFormedReceipt;
    ChainExtend(k, read, next);
    DecodableExtend(read, next);
  }

  lemma LogReadable(k: Codec, d: Directory, log: seq<Receipt>)
    requires LinksDisciplined(d) && ReceiptsOnDisk(k, d, log)
    ensures Readable(k, d, log)
  {
    forall i | 1 <= i <= |log| ensures ReceiptFile(i) in d && LinkCount(d, ReceiptFile(i)) == 1 {
      LoneTarget(d, ReceiptStaged(i), ReceiptFile(i));
    }
  }

  lemma StoredChainUnique(k: Codec, d: Directory, a: seq<Receipt>, b: seq<Receipt>)
    requires k.Canonical() && k.Chain(a) && k.Chain(b) && |a| == |b|
    requires forall i :: 1 <= i <= |a| ==> ReceiptFile(i) in d && d[ReceiptFile(i)].content == k.receiptBytes(a[i - 1])
    requires forall i :: 1 <= i <= |b| ==> ReceiptFile(i) in d && d[ReceiptFile(i)].content == k.receiptBytes(b[i - 1])
    ensures a == b
  {
    forall j | 0 <= j < |a| ensures a[j] == b[j] {
      ChainLinkedAt(k, a, j);
      ChainLinkedAt(k, b, j);
      assert ReceiptFile(j + 1) in d;
      ReceiptBytesInjective(k, a[j], b[j]);
    }
  }

  /** Under way, the receipt files are gapless: the log, and the new receipt once it is linked. */
  lemma PathsWhileAppending(k: Codec, d: Directory, log: seq<Receipt>, r: Receipt)
    requires LinksDisciplined(d) && Committed(k, d, log, r)
    requires ReceiptStaged(|log| + 1) !in d || ReceiptFile(|log| + 1) !in d
    ensures var n := if ReceiptFile(|log| + 1) in d then |log| + 1 else |log|;
            NumberedTo(d, n) && SinglyLinkedTo(d, n)
  {
    forall i: nat | 1 <= i <= |log| + 1 && ReceiptFile(i) in d ensures LinkCount(d, ReceiptFile(i)) == 1 {
      LoneTarget(d, ReceiptStaged(i), ReceiptFile(i));
    }
  }

  lemma TransactionReadsBack(k: Codec, log: seq<Receipt>, r: Receipt)
    requires k.Canonical() && k.Follows(log, r)
    ensures k.readTransaction(k.transactionBytes(k.TransactionFor(log, r)))
            == if WellFormedReceipt(r) then Some(k.TransactionFor(log, r)) else None
  {
    assert k.Sealed(log, r.checkpoint) == r;
    ReadExactlyWellFormed(k, log, r.checkpoint);
  }

  // ---------------------------------------------------------------- outcomes

  datatype Reason =
    | HeadStateInvalid | HeadMissing | HeadMismatch | HeadInvalid | HeadAliased | HeadChanged
    | TransactionMissing | TransactionInvalid | TransactionMismatch | TransactionExists
    | ReceiptAliased | ReceiptInvalid | ReceiptSequenceInvalid | ChainInvalid
    | WriterCollision | CheckpointRejected

  type JournalOutcome<+T> = Outcome<T, Reason>

  // ---------------------------------------------------------------- whole histories

  /** One process: it appends or only loads, with power for so many directory changes. */
  datatype Session =
    | AppendSession(checkpoint: Checkpoint, power: nat, torn: Option<nat>)
    | LoadSession(power: nat, torn: Option<nat>)

  /** All that one session may do to the durable receipts. */
  ghost predicate SessionEffect(k: Codec, before: seq<Receipt>, session: Session, o: JournalOutcome<()>,
    after: seq<Receipt>) {
    match session
    case LoadSession(_, _) => after == before && (if Decodable(before) then !o.Blocked? else !o.Done?)
    case AppendSession(c, _, _) =>
      var accepted := Decodable(before) && Accepts(CheckpointsOf(before), c);
      match o
      case Done(_) => accepted && after == before + [k.Sealed(before, c)]
      case Blocked(_) => !accepted && after == before
      case Crashed => after == before || (accepted && after == before + [k.Sealed(before, c)])
  }

  /** states[i] is what is durable before session i. */
  ghost predicate History(k: Codec, sessions: seq<Session>, outcomes: seq<JournalOutcome<()>>,
    states: seq<seq<Receipt>>) {
    && |outcomes| == |sessions|
    && |states| == |sessions| + 1
    && forall i :: 0 <= i < |sessions| ==> SessionEffect(k, states[i], sessions[i], outcomes[i], states[i + 1])
  }

  /** No history ever loses or rewrites a durable receipt. */
  lemma {:induction false} HistoryOnlyGrows(
    k: Codec, sessions: seq<Session>, outcomes: seq<JournalOutcome<()>>, states: seq<seq<Receipt>>, i: nat, j: nat)
    requires History(k, sessions, outcomes, states) && i <= j <= |sessions|
    ensures states[i] <= states[j]
    decreases j
  {
    if i < j {
      HistoryOnlyGrows(k, sessions, outcomes, states, i, j - 1);
      assert SessionEffect(k, states[j - 1], sessions[j - 1], outcomes[j - 1], states[j]);
    }
  }

  /** Every history of well-formed checkpoints stays readable: */
  lemma {:induction false} WellFormedHistoryReads(
    k: Codec, sessions: seq<Session>, outcomes: seq<JournalOutcome<()>>, states: seq<seq<Receipt>>, i: nat)
    requires History(k, sessions, outcomes, states) && i <= |sessions| && Decodable(states[0])
    requires forall s :: s in sessions && s.AppendSession? ==> WellFormed(s.checkpoint)
    ensures Decodable(states[i])
    decreases i
  {
    if i > 0 {
      WellFormedHistoryReads(k, sessions, outcomes, states, i - 1);
      assert SessionEffect(k, states[i - 1], sessions[i - 1], outcomes[i - 1], states[i]);
      assert sessions[i - 1] in sessions;
    }
  }

  /** after an ill-formed one, no session reads or appends anything again. */
  lemma {:induction false} SpoiledForGood(
    k: Codec, sessions: seq<Session>, outcomes: seq<JournalOutcome<()>>, states: seq<seq<Receipt>>, i: nat, j: nat)
    requires History(k, sessions, outcomes, states) && i <= j <= |sessions| && !Decodable(states[i])
    ensures states[j] == states[i] && forall n :: i <= n < j ==> !outcomes[n].Done?
    decreases j
  {
    if i < j {
      SpoiledForGood(k, sessions, outcomes, states, i, j - 1);
      assert SessionEffect(k, states[j - 1], sessions[j - 1], outcomes[j - 1], states[j]);
    }
  }

  class FileReceiptJournal {
    const codec: Codec
    var dir: Directory
    var nextInode: nat

    /** Namespace changes left before the power fails; the change that finds none does not happen. */
    var power: nat
    /** What an interrupted staged write leaves behind: nothing, or this many of its bytes. */
    var torn: Option<nat>

    ghost var log: seq<Receipt>
    ghost var pending: Option<Receipt>

    ghost predicate Sound()
      reads this
    {
      && (forall n :: n in dir ==> dir[n].inode < nextInode)
      && LinksDisciplined(dir)
    }

    ghost predicate Valid()
      reads this
    {
      && codec.Canonical()
      && Sound()
      && Records(codec, dir, log, pending)
      && (pending.Some? ==> Decodable(log))
    }

    /** Everything durable can be read back. */
    ghost predicate Intact()
      reads this
    {
      Decodable(Contents())
    }

    /** The receipts this directory durably stands for. */
    ghost function Contents(): seq<Receipt>
      reads this
    {
      if pending.Some? then log + [pending.value] else log
    }

    constructor (codec: Codec, power: nat, torn: Option<nat>)
      requires codec.Canonical()
      ensures this.codec == codec && this.power == power && Valid() && Contents() == []
    {
      this.codec := codec;
      this.dir := map[];
      this.nextInode := 0;
      this.power, this.torn := power, torn;
      this.log, this.pending := [], None;
    }

    // ------------------------------------------------------------ single changes

    method WriteStaged(name: Name, payload: Bytes, collision: Reason) returns (o: JournalOutcome<()>)
      requires Sound()
      modifies this`dir, this`nextInode, this`power
      ensures Sound() && SameExcept(old(dir), dir, name, name)
      ensures o.Blocked? <==> name in old(dir)
      ensures o.Blocked? ==> dir == old(dir) && power == old(power)
      ensures o.Done? ==> name in dir && dir[name].content == payload && old(power) == power + 1
      ensures o.Done? ==> forall m :: m in dir && dir[m].inode == dir[name].inode ==> m == name
      ensures o.Crashed? ==> old(power) == 0 && (name in dir ==> dir[name].content <= payload)
    {
      if name in dir { return Blocked(collision); }
      if power == 0 {
        if torn.Some? && torn.value <= |payload| {
          dir := dir[name := Entry(nextInode, payload[..torn.value])];
          nextInode := nextInode + 1;
        }
        return Crashed;
      }
      dir := dir[name := Entry(nextInode, payload)];
      nextInode, power := nextInode + 1, power - 1;
      o := Done(());
    }

    method Unlink(name: Name) returns (o: JournalOutcome<()>)
      requires Sound() && name in dir
      modifies this`dir, this`power
      ensures Sound() && !o.Blocked?
      ensures o.Done? ==> dir == old(dir) - {name} && old(power) == power + 1
      ensures o.Crashed? ==> dir == old(dir) && old(power) == power == 0
    {
      if power == 0 { return Crashed; }
      dir, power := dir - {name}, power - 1;
      o := Done(());
    }

    method Link(staged: Name, target: Name, collision: Reason) returns (o: JournalOutcome<()>)
      requires Sound() && staged in dir && StagingPair(staged, target)
      requires forall m :: m in dir && dir[m].inode == dir[staged].inode ==> m == staged
      modifies this`dir, this`power
      ensures Sound()
      ensures o.Blocked? <==> target in old(dir)
      ensures o.Blocked? ==> dir == old(dir)
      ensures o.Done? ==> dir == old(dir)[target := old(dir)[staged]] && old(power) == power + 1
      ensures o.Crashed? ==> dir == old(dir) && old(power) == power == 0
    {
      if target in dir { return Blocked(collision); }
      if power == 0 { return Crashed; }
      dir, power := dir[target := dir[staged]], power - 1;
      o := Done(());
    }

    method Replace(source: Name, target: Name) returns (o: JournalOutcome<()>)
      requires Sound() && source in dir && source != target
      requires forall m :: m in dir && dir[m].inode == dir[source].inode ==> m == source
      modifies this`dir, this`power
      ensures Sound() && !o.Blocked?
      ensures o.Done? ==> dir == old(dir)[target := old(dir)[source]] - {source} && old(power) == power + 1
      ensures o.Crashed? ==> dir == old(dir) && old(power) == power == 0
    {
      if power == 0 { return Crashed; }
      dir, power := dir[target := dir[source]] - {source}, power - 1;
      o := Done(());
    }

    /** Read a file that must have exactly one link. */
    method ReadOptional(name: Name, alias: Reason) returns (o: JournalOutcome<Option<Bytes>>)
      ensures o.Blocked? <==> name in dir && LinkCount(dir, name) != 1
      ensures o.Done? ==> o.value == (if name in dir then Some(dir[name].content) else None)
      ensures !o.Crashed?
    {
      if name !in dir { return Done(None); }
      if LinkCount(dir, name) != 1 { return Blocked(alias); }
      o := Done(Some(dir[name].content));
    }

    // ------------------------------------------------------------ publication of one file

    /** Drop the staged name of a target that is already linked. */
    method CompleteLinkPublication(staged: Name, target: Name) returns (o: JournalOutcome<()>)
      requires Sound() && StagingPair(staged, target)
      modifies this`dir, this`power
      ensures Sound()
      ensures o.Done? ==> dir == (if staged in old(dir) && target in old(dir) then old(dir) - {staged} else old(dir))
      ensures !o.Done? ==> dir == old(dir)
      ensures o.Blocked? ==>
                staged in old(dir) && target in old(dir) && old(dir)[staged].inode != old(dir)[target].inode
      ensures !(staged in old(dir) && target in old(dir)) ==> o.Done? && power == old(power)
      ensures o.Crashed? ==> old(power) == 0
      ensures power + 1 >= old(power) >= power
      ensures staged in old(dir) && target in old(dir) && old(dir)[staged].inode != old(dir)[target].inode ==>
                o.Blocked?
    {
      if staged !in dir { return Done(()); }
      if target !in dir { return Done(()); }
      if dir[staged].inode == dir[target].inode {
        DoubleLink(dir, staged, target);
      }
      if LinkCount(dir, staged) != 2 || LinkCount(dir, target) != 2 || dir[staged].inode != dir[target].inode {
        return Blocked(TransactionMismatch);
      }
      o := Unlink(staged);
    }

    method PublishStagedNoReplace(staged: Name, target: Name, collision: Reason) returns (o: JournalOutcome<()>)
      requires Sound() && staged in dir && StagingPair(staged, target)
      requires forall m :: m in dir && dir[m].inode == dir[staged].inode ==> m == staged
      modifies this`dir, this`power
      ensures Sound()
      ensures o.Blocked? <==> target in old(dir)
      ensures o.Blocked? ==> dir == old(dir)
      ensures o.Done? ==> dir == old(dir)[target := old(dir)[staged]] - {staged}
      ensures o.Crashed? ==> dir == old(dir) || dir == old(dir)[target := old(dir)[staged]]
      ensures o.Crashed? ==> old(power) < 2
      ensures o.Done? ==> old(power) == power + 2
    {
      var _ :- Link(staged, target, collision);
      o := Unlink(staged);
    }

    /** Remove what a crash left half-written; true when the target already holds the payload. */
    method DropPartialFile(staged: Name, target: Name, expected: Bytes) returns (o: JournalOutcome<bool>)
      requires Sound() && StagingPair(staged, target)
      requires staged !in dir || target !in dir
      modifies this`dir, this`power
      ensures Sound() && SameExcept(old(dir), dir, staged, target)
      ensures !o.Done? ==> dir == old(dir)
      ensures old(InSlot(dir, staged, target, expected)) ==> !o.Blocked? && InSlot(dir, staged, target, expected)
      ensures o.Done? && o.value ==> Published(dir, staged, target, expected) && dir == old(dir)
      ensures o.Done? && !o.value ==> target !in dir && (staged in dir ==> dir[staged].content == expected)
      ensures old(Published(dir, staged, target, expected)) ==> o == Done(true)
      ensures o.Crashed? ==> old(power) == 0
      ensures old(power) <= power + 1
      ensures target in old(dir) && !(old(dir)[target].content <= expected) ==> o.Blocked?
      ensures target !in old(dir) && staged in old(dir) && !(old(dir)[staged].content <= expected) ==> o.Blocked?
    {
      var stagedRead := ReadOptional(staged, HeadChanged);
      var targetRead := ReadOptional(target, HeadChanged);
      if stagedRead.Blocked? || targetRead.Blocked? {
        if staged in dir { LoneStaged(dir, staged, target); }
        if target in dir { LoneTarget(dir, staged, target); }
        return Blocked(HeadChanged);
      }
      if target in dir {
        if dir[target].content == expected { return Done(true); }
        if !(dir[target].content < expected) { return Blocked(TransactionMismatch); }
        var _ :- Unlink(target);
      }
      if staged in dir && dir[staged].content != expected {
        if !(dir[staged].content < expected) { return Blocked(TransactionMismatch); }
        var _ :- Unlink(staged);
      }
      o := Done(false);
    }

    /** Write the payload if it is not staged yet, then link it and drop the staged name. */
    method WriteAndPublish(staged: Name, target: Name, expected: Bytes, collision: Reason)
      returns (o: JournalOutcome<()>)
      requires Sound() && StagingPair(staged, target)
      requires target !in dir && (staged in dir ==> dir[staged].content == expected)
      modifies this`dir, this`nextInode, this`power
      ensures Sound() && SameExcept(old(dir), dir, staged, target)
      ensures !o.Blocked? && InSlot(dir, staged, target, expected)
      ensures o.Done? ==> Published(dir, staged, target, expected)
      ensures o.Crashed? ==> old(power) < 3
      ensures old(power) <= power + 3
    {
      if staged !in dir {
        var written := WriteStaged(staged, expected, collision);
        if written.Crashed? { return Crashed; }
      }
      LoneStaged(dir, staged, target);
      UniqueLink(dir, staged);
      o := PublishStagedNoReplace(staged, target, collision);
    }

    /** Bring one payload from wherever its publication stopped to its target name. */
    method EnsureTransactionBoundFile(staged: Name, target: Name, expected: Bytes, collision: Reason)
      returns (o: JournalOutcome<()>)
      requires Sound() && StagingPair(staged, target)
      modifies this`dir, this`nextInode, this`power
      ensures Sound() && SameExcept(old(dir), dir, staged, target)
      ensures o.Done? ==> Published(dir, staged, target, expected)
      ensures old(InSlot(dir, staged, target, expected)) ==> !o.Blocked? && InSlot(dir, staged, target, expected)
      ensures old(Published(dir, staged, target, expected)) ==> o.Done? && dir == old(dir)
      ensures o.Crashed? ==> old(power) < 5
      ensures old(power) <= power + 5
      ensures staged !in old(dir) && target in old(dir) && !(old(dir)[target].content <= expected) ==>
                o.Blocked? && dir == old(dir)
      ensures target !in old(dir) && staged in old(dir) && !(old(dir)[staged].content <= expected) ==>
                o.Blocked? && dir == old(dir)
    {
      var _ :- CompleteLinkPublication(staged, target);
      var published :- DropPartialFile(staged, target, expected);
      if published { return Done(()); }
      o := WriteAndPublish(staged, target, expected, collision);
      if o.Crashed? { return; }
      LoneTarget(dir, staged, target);
      var settled := ReadOptional(target, HeadChanged);
      if settled != Done(Some(expected)) { return Blocked(TransactionMismatch); }
    }

    // ------------------------------------------------------------ reading the directory

    method ReadHead() returns (o: JournalOutcome<Option<Head>>)
      requires codec.Canonical()
      ensures !o.Crashed?
      ensures HeadFile !in dir ==> o == Done(None)
      ensures HeadFile in dir && o.Done? ==> o.value.Some? && codec.headBytes(o.value.value) == dir[HeadFile].content
      ensures HeadFile in dir && LinksDisciplined(dir) ==>
                var head := codec.readHead(dir[HeadFile].content);
                o == if head.None? then Blocked(HeadInvalid) else Done(head)
    {
      if HeadFile in dir && LinksDisciplined(dir) { SingleLink(dir, HeadFile); }
      var payload := ReadOptional(HeadFile, HeadAliased);
      if !payload.Done? { return Blocked(HeadAliased); }
      if payload.value.None? { return Done(None); }
      var head := codec.readHead(payload.value.value);
      if head.None? { return Blocked(HeadInvalid); }
      o := Done(head);
    }

    /** The number of receipt files, when they are exactly 1..n and none is hard-linked elsewhere. */
    method ReceiptPaths() returns (o: JournalOutcome<nat>)
      ensures !o.Crashed?
      ensures o.Done? ==> NumberedTo(dir, o.value) && SinglyLinkedTo(dir, o.value)
      ensures forall n: nat :: NumberedTo(dir, n) && SinglyLinkedTo(dir, n) ==> o == Done(n)
    {
      var indices := set m | m in dir && m.ReceiptFile? :: m.index;
      assert forall i: nat :: i in indices <==> ReceiptFile(i) in dir by {
        forall i: nat | ReceiptFile(i) in dir ensures i in indices { assert ReceiptFile(i).index == i; }
      }
      forall n: nat | NumberedTo(dir, n) ensures |indices| == n && indices == Interval(n) {
        assert indices == Interval(n);
      }
      if indices != Interval(|indices|) { return Blocked(ReceiptSequenceInvalid); }
      assert NumberedTo(dir, |indices|);
      var i := 1;
      while i <= |indices|
        invariant 1 <= i <= |indices| + 1 && SinglyLinkedTo(dir, i - 1)
      {
        if LinkCount(dir, ReceiptFile(i)) != 1 { return Blocked(ReceiptAliased); }
        i := i + 1;
      }
      o := Done(|indices|);
    }

    /** Read and check receipts 1..count, each against the ones before it. */
    method LoadRecordChain(count: nat) returns (o: JournalOutcome<seq<Receipt>>)
      requires codec.Canonical()
      ensures !o.Crashed?
      ensures o.Done? ==> |o.value| == count && codec.Chain(o.value) && Decodable(o.value)
      ensures o.Done? ==> StoredAs(codec, dir, o.value)
      ensures forall log :: Loadable(codec, dir, log, count) ==> o == Done(log)
    {
      hide Codec.Chain, Codec.Canonical, Codec.Follows, Decodable, Loadable, WellFormedReceipt;
      NothingStored(codec, dir);
      var records: seq<Receipt> := [];
      var i := 0;
      while i < count
        invariant i <= count && |records| == i && codec.Chain(records) && Decodable(records)
        invariant StoredAs(codec, dir, records)
      {
        forall log | Loadable(codec, dir, log, count) ensures LoadsNext(codec, dir, records) {
          LoadableNext(codec, dir, log, count, records);
        }
        var payload := ReadOptional(ReceiptFile(i + 1), ReceiptAliased);
        if !payload.Done? { return Blocked(ReceiptAliased); }
        if payload.value.None? { return Blocked(ReceiptInvalid); }
        var receipt := codec.readReceipt(payload.value.value);
        if receipt.None? || !codec.Follows(records, receipt.value) { return Blocked(ChainInvalid); }
        ReadBackExtends(codec, dir, records, receipt.value);
        records := records + [receipt.value];
        i := i + 1;
      }
      forall log | Loadable(codec, dir, log, count) ensures log == records {
        LoadableIs(codec, dir, log, records);
      }
      o := Done(records);
    }

    // ------------------------------------------------------------ transactions

    method RecoverTransactionStaging() returns (o: JournalOutcome<()>)
      requires Valid()
      modifies this`dir, this`power
      ensures Valid() && !o.Blocked?
      ensures o.Done? ==> TransactionStaged !in dir
      ensures TransactionStaged !in old(dir) ==> o.Done? && dir == old(dir)
      ensures o.Crashed? ==> old(power) == 0
      ensures old(power) <= power + 1
    {
      hide Records;
      StagedTransactionStep(codec, dir, log, pending);
      var _ :- CompleteLinkPublication(TransactionStaged, TransactionFile);
      if TransactionStaged !in dir { return Done(()); }
      LoneStaged(dir, TransactionStaged, TransactionFile);
      var staged := ReadOptional(TransactionStaged, HeadAliased);
      if !staged.Done? { return Blocked(HeadAliased); }
      if TransactionFile in dir { return Blocked(TransactionMismatch); }
      o := Unlink(TransactionStaged);
    }

    method PublishTransaction(t: Transaction) returns (o: JournalOutcome<()>)
      requires Valid() && pending.None? && TransactionStaged !in dir
      requires t == codec.TransactionFor(log, t.receipt) && codec.Follows(log, t.receipt) && Decodable(log)
      modifies this`dir, this`nextInode, this`power, this`pending
      ensures Valid() && !o.Blocked?
      ensures o.Done? ==> pending == Some(t.receipt) && TransactionStaged !in dir
      ensures o.Done? ==> PublishingReceipt(codec, dir, log, t.receipt)
      ensures o.Crashed? ==> old(power) < 3 && (pending.None? || pending == Some(t.receipt))
      ensures old(power) <= power + 3
    {
      hide Records, PublishingReceipt, Codec.Follows;
      var payload := codec.transactionBytes(t);
      RecordsQuiet(codec, dir, log);
      if TransactionStaged in dir || TransactionFile in dir { return Blocked(TransactionExists); }
      o := WriteAndPublish(TransactionStaged, TransactionFile, payload, TransactionExists);
      PublishStep(codec, old(dir), dir, log, t.receipt);
      if TransactionFile in dir { pending := Some(t.receipt); }
    }

    method InstallHead(next: Head, current: Option<Head>) returns (o: JournalOutcome<()>)
      requires Valid() && pending.Some? && PublishingHead(codec, dir, log, pending.value)
      requires current == codec.HeadOf(log) && next == Head(|log| + 1, codec.ReceiptDigest(pending.value))
      modifies this`dir, this`nextInode, this`power
      ensures Valid() && !o.Blocked?
      ensures o.Done? ==> HeadInstalled(codec, dir, log, pending.value)
      ensures TransactionStaged !in old(dir) ==> TransactionStaged !in dir
      ensures o.Crashed? ==> old(power) < 6
      ensures old(power) <= power + 6
    {
      hide Records, Committed, Codec.Chain, HeadInstalled, PublishingReceipt, Codec.HeadOf, Codec.ReceiptDigest,
        Codec.Canonical, SameExcept, InSlot, HeadIs, LinksDisciplined;
      var r := pending.value;
      RecordsUnfold(codec, dir, log, r);
      HeadReadsBack(codec, dir, log);
      var before := ReadHead();
      if before != Done(current) { return Blocked(HeadChanged); }
      o := EnsureTransactionBoundFile(HeadNextStaged, HeadNext, codec.headBytes(next), WriterCollision);
      HeadStep(codec, old(dir), dir, log, r);
      RecordsFold(codec, dir, log, r);
      HeadReadsBack(codec, dir, log);
      if o.Crashed? { return; }
      var again := ReadHead();
      if again != Done(current) { return Blocked(HeadChanged); }
      LoneTarget(dir, HeadNextStaged, HeadNext);
      UniqueLink(dir, HeadNext);
      InstallStep(codec, dir, log, r);
      o := Replace(HeadNext, HeadFile);
      if o.Done? { RecordsFold(codec, dir, log, r); }
    }

    method ClearTransaction(t: Transaction) returns (o: JournalOutcome<()>)
      requires Valid() && pending.Some? && HeadInstalled(codec, dir, log, pending.value) && TransactionStaged !in dir
      requires t == codec.TransactionFor(log, pending.value)
      modifies this`dir, this`power, this`log, this`pending
      ensures Valid() && !o.Blocked? && Contents() == old(Contents())
      ensures o.Done? ==> pending.None? && TransactionStaged !in dir
      ensures o.Crashed? ==> old(power) == 0
      ensures old(power) <= power + 1
    {
      LoneTarget(dir, TransactionStaged, TransactionFile);
      var current := ReadOptional(TransactionFile, HeadAliased);
      if current != Done(Some(codec.transactionBytes(t))) { return Blocked(TransactionMismatch); }
      ClearStep(codec, dir, log, pending.value);
      o := Unlink(TransactionFile);
      if o.Done? { log, pending := log + [pending.value], None; }
    }

    /** From a linked transaction: publish its receipt, install its head, clear it. */
    method FinishTransaction(t: Transaction, advanced: bool) returns (o: JournalOutcome<()>)
      requires Valid() && pending.Some? && t == codec.TransactionFor(log, pending.value) && TransactionStaged !in dir
      requires advanced <==> HeadInstalled(codec, dir, log, pending.value)
      modifies this`dir, this`nextInode, this`power, this`log, this`pending
      ensures Valid() && !o.Blocked? && Contents() == old(Contents())
      ensures o.Done? ==> pending.None? && TransactionStaged !in dir
      ensures o.Crashed? ==> old(power) < 12
      ensures old(power) <= power + 12
    {
      hide Records, Committed, Codec.Chain, HeadInstalled, PublishingReceipt, PublishingHead, Codec.Canonical,
        SameExcept, InSlot, Codec.HeadOf, Codec.ReceiptDigest;
      var r := pending.value;
      var n := t.next.sequence;
      RecordsUnfold(codec, dir, log, r);
      ReceiptResumable(codec, dir, log, r);
      o := EnsureTransactionBoundFile(ReceiptStaged(n), ReceiptFile(n), codec.receiptBytes(t.receipt), WriterCollision);
      if old(PublishingReceipt(codec, dir, log, pending.value)) {
        ReceiptStep(codec, old(dir), dir, log, r);
        RecordsFold(codec, dir, log, r);
      }
      if o.Crashed? { return; }
      if !advanced {
        ReceiptStageEnds(codec, old(dir), dir, log, r);
        var _ :- InstallHead(t.next, t.previous);
      } else {
        AdvancedStage(codec, old(dir), dir, log, r);
        if HeadNext in dir || HeadNextStaged in dir { return Blocked(TransactionMismatch); }
      }
      o := ClearTransaction(t);
    }

    /** The head on disk is this one, in its canonical bytes, or there is none. */
    predicate HeadOnDisk(head: Option<Head>)
      reads this`dir
    {
      if head.None? then HeadFile !in dir
      else HeadFile in dir && dir[HeadFile].content == codec.headBytes(head.value)
    }

    /** The transaction is about the receipt that comes right after its previous head. */
    predicate FitsTogether(t: Transaction) {
      && t.receipt.sequence == t.next.sequence && codec.ReceiptDigest(t.receipt) == t.next.receipt
      && t.next.sequence == (if t.previous.None? then 1 else t.previous.value.sequence + 1)
      && t.receipt.previous == (if t.previous.None? then None else Some(t.previous.value.receipt))
    }

    /** This is the transaction that is under way. */
    ghost predicate UnderWay(t: Transaction)
      reads this
    {
      Valid() && pending.Some? && t == codec.TransactionFor(log, pending.value)
    }

    lemma HeadsUnderWay(t: Transaction)
      requires UnderWay(t)
      ensures FitsTogether(t)
      ensures forall m :: m in dir && m.ReceiptStaged? ==> m.index == t.next.sequence
      ensures LinksDisciplined(dir)
      ensures HeadFile in dir ==>
                var head := codec.readHead(dir[HeadFile].content); head == t.previous || head == Some(t.next)
      ensures if HeadFile in dir then codec.readHead(dir[HeadFile].content).Some? else t.previous.None?
      ensures HeadInstalled(codec, dir, log, pending.value)
              <==> HeadFile in dir && codec.readHead(dir[HeadFile].content) == Some(t.next)
    {
      hide Records, Committed, Codec.Chain, HeadInstalled, PublishingReceipt, PublishingHead, Codec.Canonical,
        SameExcept, InSlot, Codec.Follows, HeadIs;
      var r := pending.value;
      RecordsUnfold(codec, dir, log, r);
      CommittedFacts(codec, dir, log, r);
      HeadTellsStage(codec, dir, log, r);
      if HeadIs(codec, dir, log) { HeadReadsBack(codec, dir, log); } else { HeadReadsBack(codec, dir, log + [r]); }
    }

    /**
     Check a linked transaction against itself and the current head; true when its head is installed. Nothing is
     assumed of the directory: what passes fits together, and the head on disk is one of its two.
     */
    method CheckTransactionHeads(t: Transaction) returns (o: JournalOutcome<bool>)
      requires codec.Canonical()
      ensures !o.Crashed?
      ensures o.Done? ==>
                && FitsTogether(t)
                && HeadOnDisk(if o.value then Some(t.next) else t.previous)
                && forall m :: m in dir && m.ReceiptStaged? ==> m.index == t.next.sequence
      ensures UnderWay(t) ==> o == Done(HeadInstalled(codec, dir, log, pending.value))
    {
      hide UnderWay, HeadInstalled, LinksDisciplined, Codec.Canonical;
      if UnderWay(t) { HeadsUnderWay(t); }
      var previousSequence := if t.previous.None? then 0 else t.previous.value.sequence;
      var previousDigest := if t.previous.None? then None else Some(t.previous.value.receipt);
      if t.receipt.sequence != t.next.sequence || codec.ReceiptDigest(t.receipt) != t.next.receipt
        || t.next.sequence != previousSequence + 1 || t.receipt.previous != previousDigest
      {
        return Blocked(TransactionInvalid);
      }
      var current := ReadHead();
      if !current.Done? { return Blocked(HeadInvalid); }
      if current.value != t.previous && current.value != Some(t.next) { return Blocked(TransactionMismatch); }
      if t.previous.Some? && current.value.None? { return Blocked(TransactionMismatch); }
      if exists m :: m in dir && m.ReceiptStaged? && m.index != t.next.sequence { return Blocked(TransactionMismatch); }
      o := Done(current.value == Some(t.next));
    }

    /**
     These receipts are stored, chained and anchored by the previous head, and accept the transaction's checkpoint.
     */
    ghost predicate PriorLog(prior: seq<Receipt>, t: Transaction)
      reads this`dir
    {
      && |prior| == (if t.previous.None? then 0 else t.previous.value.sequence)
      && codec.Chain(prior) && StoredAs(codec, dir, prior) && codec.HeadOf(prior) == t.previous
      && Accepts(CheckpointsOf(prior), t.receipt.checkpoint)
    }

    lemma PriorUnderWay(t: Transaction)
      requires UnderWay(t) && (ReceiptStaged(|log| + 1) !in dir || ReceiptFile(|log| + 1) !in dir)
      ensures |log| == (if t.previous.None? then 0 else t.previous.value.sequence) && t.next.sequence == |log| + 1
      ensures Loadable(codec, dir, log, |log|) && codec.HeadOf(log) == t.previous
      ensures Accepts(CheckpointsOf(log), t.receipt.checkpoint)
      ensures (NumberedTo(dir, |log|) && SinglyLinkedTo(dir, |log|))
              || (NumberedTo(dir, |log| + 1) && SinglyLinkedTo(dir, |log| + 1))
    {
      hide Records, Committed, Codec.Chain, HeadInstalled, PublishingReceipt, PublishingHead, Codec.Canonical,
        SameExcept, InSlot, Codec.Follows, HeadIs;
      var r := pending.value;
      RecordsUnfold(codec, dir, log, r);
      CommittedFacts(codec, dir, log, r);
      PathsWhileAppending(codec, dir, log, r);
      LogReadableWhileAppending(codec, dir, log, r);
      SealedFollows(codec, log, r.checkpoint);
    }

    /**
     Check that the receipts before the transaction are the chain its previous head anchors. Again nothing is assumed
     of the directory: what passes is a stored chain that accepts the transaction's checkpoint.
     */
    method CheckPriorLog(t: Transaction) returns (o: JournalOutcome<()>)
      requires codec.Canonical()
      ensures !o.Crashed?
      ensures o.Done? ==> exists prior :: PriorLog(prior, t)
      ensures o.Done? ==> NumberedTo(dir, t.next.sequence)
                          || NumberedTo(dir, if t.previous.None? then 0 else t.previous.value.sequence)
      ensures UnderWay(t) && (ReceiptStaged(|log| + 1) !in dir || ReceiptFile(|log| + 1) !in dir) ==> o == Done(())
    {
      hide UnderWay, NumberedTo, SinglyLinkedTo, Codec.Chain, Codec.Canonical, Loadable, StoredAs;
      if UnderWay(t) && (ReceiptStaged(|log| + 1) !in dir || ReceiptFile(|log| + 1) !in dir) { PriorUnderWay(t); }
      var paths := ReceiptPaths();
      var previousSequence := if t.previous.None? then 0 else t.previous.value.sequence;
      if !paths.Done? || (paths.value != previousSequence && paths.value != t.next.sequence) {
        return Blocked(TransactionMismatch);
      }
      var prior := LoadRecordChain(previousSequence);
      if !prior.Done? { return Blocked(ChainInvalid); }
      if codec.HeadOf(prior.value) != t.previous { return Blocked(HeadMismatch); }
      if !Accepts(CheckpointsOf(prior.value), t.receipt.checkpoint) { return Blocked(CheckpointRejected); }
      assert PriorLog(prior.value, t);
      o := Done(());
    }

    /** Everything recovery checks before it publishes; true when the transaction's head is installed. */
    method VerifyTransaction(t: Transaction) returns (o: JournalOutcome<bool>)
      requires Valid() && pending.Some? && t == codec.TransactionFor(log, pending.value) && TransactionStaged !in dir
      modifies this`dir, this`power
      ensures Valid() && !o.Blocked? && TransactionStaged !in dir
      ensures o.Done? ==> (o.value <==> HeadInstalled(codec, dir, log, pending.value))
      ensures o.Crashed? ==> old(power) == 0
      ensures old(power) <= power + 1
    {
      hide Records, HeadInstalled, HeadIs, Codec.Canonical;
      ghost var r := pending.value;
      var staged, target := ReceiptStaged(t.next.sequence), ReceiptFile(t.next.sequence);
      var advanced := CheckTransactionHeads(t);
      if !advanced.Done? { return Blocked(TransactionInvalid); }
      HeadTellsStage(codec, dir, log, r);
      if staged in dir && target in dir { ReceiptCompletionStep(codec, dir, log, r); }
      var _ :- CompleteLinkPublication(staged, target);
      HeadTellsStage(codec, dir, log, r);
      assert HeadIs(codec, dir, log) == old(HeadIs(codec, dir, log)) by { HeadUntouched(codec, old(dir), dir, log); }
      var prior := CheckPriorLog(t);
      if !prior.Done? { return Blocked(ChainInvalid); }
      o := advanced;
    }

    /** Finish a linked transaction, or remove an unlinked one. */
    method RecoverTransaction() returns (o: JournalOutcome<()>)
      requires Valid()
      modifies this`dir, this`nextInode, this`power, this`log, this`pending
      ensures Valid() && Contents() == old(Contents())
      ensures o.Done? ==> pending.None? && TransactionStaged !in dir
      ensures o.Blocked? ==> !Intact() && pending.Some? && TransactionStaged !in dir
      ensures old(pending.Some? && !Intact()) ==> !o.Done?
      ensures o.Crashed? ==> old(power) < 14
      ensures old(power) <= power + 14
      ensures old(pending.None? && TransactionStaged !in dir) ==> o.Done? && dir == old(dir)
    {
      hide Records, Decodable, Committed, Codec.Chain, HeadInstalled, PublishingReceipt, PublishingHead, SameExcept,
        InSlot, Codec.Follows, HeadIs;
      var _ :- RecoverTransactionStaging();
      if pending.None? {
        RecordsQuiet(codec, dir, log);
      } else {
        RecordsUnfold(codec, dir, log, pending.value);
        CommittedFacts(codec, dir, log, pending.value);
        TransactionReadsBack(codec, log, pending.value);
        LoneTarget(dir, TransactionStaged, TransactionFile);
      }
      var payload := ReadOptional(TransactionFile, HeadAliased);
      if !payload.Done? { return Blocked(HeadAliased); }
      if payload.value.None? {
        if HeadNext in dir || HeadNextStaged in dir || exists m :: m in dir && m.ReceiptStaged? {
          return Blocked(TransactionMissing);
        }
        return Done(());
      }
      var t := codec.readTransaction(payload.value.value);
      ContentsDecodable();
      if t.None? { return Blocked(TransactionInvalid); }
      var advanced :- VerifyTransaction(t.value);
      o := FinishTransaction(t.value, advanced);
    }

    /**
     Read the log and hold it against the head. Nothing is assumed of the directory: whatever was
     done to the receipt files, a log that loads is the one log its head anchors.
     */
    method LoadAnchored() returns (o: JournalOutcome<seq<Receipt>>)
      requires codec.Canonical()
      ensures !o.Crashed?
      ensures o.Done? ==>
                codec.Chain(o.value) && Decodable(o.value) && HeadIs(codec, dir, o.value) && NumberedTo(dir, |o.value|)
      ensures forall written :: codec.Chain(written) && HeadIs(codec, dir, written) && o.Done? ==> o.value == written
      ensures forall log :: LinksDisciplined(dir) && Records(codec, dir, log, None) ==>
                if Decodable(log) then o == Done(log) else o.Blocked?
    {
      hide Records, Decodable, Codec.Chain, Codec.Follows, Codec.Canonical, LinksDisciplined, Readable;
      forall log | LinksDisciplined(dir) && Records(codec, dir, log, None)
        ensures NumberedTo(dir, |log|) && SinglyLinkedTo(dir, |log|) && Readable(codec, dir, log) && codec.Chain(log)
        ensures HeadIs(codec, dir, log)
        ensures if log == [] then HeadFile !in dir
                else HeadFile in dir && codec.readHead(dir[HeadFile].content) == codec.HeadOf(log)
      {
        QuietReadable(codec, dir, log);
        RecordsQuiet(codec, dir, log);
        HeadReadsBack(codec, dir, log);
      }
      var paths := ReceiptPaths();
      if !paths.Done? { return Blocked(paths.reason); }
      var records := LoadRecordChain(paths.value);
      if !records.Done? { return Blocked(records.reason); }
      var head := ReadHead();
      if !head.Done? { return Blocked(head.reason); }
      if head.value != codec.HeadOf(records.value) {
        if records.value == [] { return Blocked(HeadStateInvalid); }
        return Blocked(if head.value.None? then HeadMissing else HeadMismatch);
      }
      forall written | codec.Chain(written) && HeadIs(codec, dir, written) ensures records.value == written {
        HeadAnchorsOne(codec, dir, records.value, written);
        HeadPinsChain(codec, records.value, written);
      }
      o := records;
    }

    lemma ContentsDecodable()
      requires Valid()
      ensures Intact() <==> Decodable(log) && (pending.Some? ==> WellFormedReceipt(pending.value))
    {
      hide Records, Decodable, WellFormedReceipt, Codec.Canonical;
      if pending.Some? { DecodableExtend(log, pending.value); }
    }

    /**
     Recover, then load. From every state a crash can leave this returns exactly the receipts the
     directory stands for, provided that all of them satisfy the reader's schema; otherwise no load
     ever succeeds again. It changes nothing when there is nothing to recover.
     */
    method LoadAll() returns (o: JournalOutcome<seq<Receipt>>)
      requires Valid()
      modifies this`dir, this`nextInode, this`power, this`log, this`pending
      ensures Valid() && Contents() == old(Contents())
      ensures o.Done? ==> o.value == Contents() && pending.None? && TransactionStaged !in dir
      ensures if old(Intact()) then !o.Blocked? else !o.Done?
      ensures o.Crashed? ==> old(power) < 14
      ensures old(power) <= power + 14
      ensures old(pending.None? && TransactionStaged !in dir) ==> !o.Crashed? && dir == old(dir)
    {
      hide Records, Decodable, LinksDisciplined;
      var _ :- RecoverTransaction();
      ContentsDecodable();
      o := LoadAnchored();
    }

    /** Append one checkpoint to the journal, crash-atomically. The reader's schema is not consulted. */
    method Append(c: Checkpoint) returns (o: JournalOutcome<()>)
      requires Valid()
      modifies this`dir, this`nextInode, this`power, this`log, this`pending
      ensures Valid()
      ensures o.Blocked? ==> !old(Intact() && Accepts(CheckpointsOf(Contents()), c))
      ensures o.Done? ==> old(Intact() && Accepts(CheckpointsOf(Contents()), c))
      ensures o.Done? ==> Contents() == old(Contents()) + [codec.Sealed(old(Contents()), c)]
      ensures o.Done? ==> pending.None? && TransactionStaged !in dir
      ensures o.Blocked? ==> Contents() == old(Contents())
      ensures o.Crashed? ==>
                || Contents() == old(Contents())
                || (old(Intact() && Accepts(CheckpointsOf(Contents()), c))
                    && Contents() == old(Contents()) + [codec.Sealed(old(Contents()), c)])
      ensures o.Crashed? ==> old(power) < 29
      ensures old(power) <= power + 29
    {
      hide Records, Decodable, Accepts, Codec.Chain, Codec.Follows, LinksDisciplined, PublishingReceipt,
        HeadInstalled, CheckpointsOf, WellFormed;
      var records :- LoadAll();
      if !Accepts(CheckpointsOf(records), c) { return Blocked(CheckpointRejected); }
      RecordsQuiet(codec, dir, log);
      SealedFollows(codec, records, c);
      ContentsDecodable();
      var t := codec.TransactionFor(records, codec.Sealed(records, c));
      var _ :- PublishTransaction(t);
      RecordsUnfold(codec, dir, log, t.receipt);
      assert !HeadInstalled(codec, dir, log, t.receipt) by { NotYetInstalled(codec, dir, log, t.receipt); }
      o := FinishTransaction(t, false);
    }

    /** After an accepted append of any checkpoint, the next load succeeds if and only if it is well formed. */
    method AppendThenLoad(c: Checkpoint) returns (o: JournalOutcome<()>, loaded: JournalOutcome<seq<Receipt>>)
      requires Valid()
      modifies this`dir, this`nextInode, this`power, this`log, this`pending
      ensures Valid()
      ensures o.Done? ==> (loaded.Done? <==> WellFormed(c)) && !loaded.Crashed?
      ensures o.Done? && loaded.Done? ==> loaded.value == old(Contents()) + [codec.Sealed(old(Contents()), c)]
      ensures old(power) >= 29 && old(Intact() && Accepts(CheckpointsOf(Contents()), c)) ==> o.Done?
    {
      hide Records, LinksDisciplined, WellFormed;
      ghost var before := Contents();
      o := Append(c);
      if !o.Done? { return o, Blocked(CheckpointRejected); }
      assert Intact() <==> WellFormed(c) by {
        var r := codec.Sealed(before, c);
        assert Contents() == before + [r] && Contents()[|before|] == r;
        assert WellFormedReceipt(r) <==> WellFormed(c);
      }
      loaded := LoadAll();
    }

    method RunSession(session: Session) returns (o: JournalOutcome<()>)
      requires Valid()
      modifies this
      ensures Valid()
      ensures SessionEffect(codec, old(Contents()), session, o, Contents())
    {
      hide Records, Decodable, Accepts, Codec.Chain, LinksDisciplined, CheckpointsOf, WellFormed;
      power, torn := session.power, session.torn;
      match session {
        case AppendSession(c, _, _) =>
          o := Append(c);
        case LoadSession(_, _) =>
          var loaded := LoadAll();
          o := match loaded case Done(_) => Done(()) case Blocked(reason) => Blocked(reason) case Crashed => Crashed;
      }
    }

    /** Any sequence of processes over one directory, each cut off wherever its power runs out. */
    method RunSessions(sessions: seq<Session>)
      returns (outcomes: seq<JournalOutcome<()>>, ghost states: seq<seq<Receipt>>)
      requires Valid()
      modifies this
      ensures Valid()
      ensures History(codec, sessions, outcomes, states)
      ensures states[0] == old(Contents()) && states[|sessions|] == Contents()
      ensures Intact() ==> AcceptedRun(CheckpointsOf(Contents()))
    {
      hide SessionEffect, WellFormed, Decodable, CheckpointsOf, AcceptedRun, Sound, Records;
      outcomes, states := [], [Contents()];
      var i := 0;
      while i < |sessions|
        invariant i <= |sessions| && Valid()
        invariant |outcomes| == i && |states| == i + 1
        invariant states[0] == old(Contents()) && states[i] == Contents()
        invariant forall j :: 0 <= j < i ==> SessionEffect(codec, states[j], sessions[j], outcomes[j], states[j + 1])
      {
        var o := RunSession(sessions[i]);
        outcomes, states := outcomes + [o], states + [Contents()];
        i := i + 1;
      }
      ChainOfContents();
      if Intact() { ChainIsAcceptedRun(codec, Contents()); }
    }

    lemma ChainOfContents()
      requires Valid()
      ensures codec.Chain(Contents())
    {
      if pending.Some? { ChainExtend(codec, log, pending.value); }
    }
  }

  /** A journal that accepts two receipts and can then never be loaded again. */
  method SpoiledJournal(codec: Codec, first: Checkpoint)
    returns (appended: (JournalOutcome<()>, JournalOutcome<()>), loaded: JournalOutcome<seq<Receipt>>)
    requires codec.Canonical() && Initial(first)
    ensures appended.0.Done? && appended.1.Done? && loaded.Blocked?
  {
    hide Records, Accepts, WellFormed, FileReceiptJournal.Valid, Codec.Canonical;
    var j := new FileReceiptJournal(codec, 58, None);
    IllFormedIsAccepted(first);
    assert CheckpointsOf(j.Contents()) == [];
    var one := j.Append(first);
    assert CheckpointsOf(j.Contents()) == [first];
    var two, load := j.AppendThenLoad(WithEarlyWinner(first));
    appended, loaded := (one, two), load;
  }
}
