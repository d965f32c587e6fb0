/** Grouping a stream of records into batches (s2-sdk/src/batching.rs). */
module Batching {
  import opened Wrappers
  import opened Records

  const RECORD_BATCH_MIN_COUNT: nat := 1
  const RECORD_BATCH_MIN_BYTES: nat := 8

  datatype BatchingConfig = BatchingConfig(lingerMillis: nat, maxBatchBytes: nat, maxBatchRecords: nat) {
    predicate Valid() {
      && RECORD_BATCH_MIN_BYTES <= maxBatchBytes <= RECORD_BATCH_MAX_BYTES
      && RECORD_BATCH_MIN_COUNT <= maxBatchRecords <= RECORD_BATCH_MAX_COUNT
    }

    function WithMaxBatchBytes(limit: nat): (r: Result<BatchingConfig, ValidationError>)
      requires Valid()
      ensures r.Ok? <==> RECORD_BATCH_MIN_BYTES <= limit <= RECORD_BATCH_MAX_BYTES
      ensures r.Ok? ==> r.value.Valid() && r.value == this.(maxBatchBytes := limit)
    {
      if limit < RECORD_BATCH_MIN_BYTES then Err(LimitOutOfRange(limit))
      else if limit > RECORD_BATCH_MAX_BYTES then Err(LimitOutOfRange(limit))
      else Ok(this.(maxBatchBytes := limit))
    }

    function WithMaxBatchRecords(limit: nat): (r: Result<BatchingConfig, ValidationError>)
      requires Valid()
      ensures r.Ok? <==> RECORD_BATCH_MIN_COUNT <= limit <= RECORD_BATCH_MAX_COUNT
      ensures r.Ok? ==> r.value.Valid() && r.value == this.(maxBatchRecords := limit)
    {
      if limit < RECORD_BATCH_MIN_COUNT then Err(LimitOutOfRange(limit))
      else if limit > RECORD_BATCH_MAX_COUNT then Err(LimitOutOfRange(limit))
      else Ok(this.(maxBatchRecords := limit))
    }

    predicate IsBatchFull(count: nat, bytes: nat) {
      count >= maxBatchRecords || bytes >= maxBatchBytes
    }

    predicate WouldOverflowBatch(count: nat, bytes: nat, record: AppendRecord) {
      count + 1 > maxBatchRecords || bytes + record.MeteredBytes() > maxBatchBytes
    }

    predicate IsOversized(record: AppendRecord) {
      record.MeteredBytes() > maxBatchBytes
    }

    /** The limits a batch has to respect. */
    predicate Fits(records: seq<AppendRecord>) {
      |records| <= maxBatchRecords && TotalBytes(records) <= maxBatchBytes
    }
  }

  /** What the batching stream holds between two polls: the open batch, and the record that did not fit in it. */
  datatype Batcher = Batcher(batch: AppendRecordBatch, overflowed: Option<AppendRecord>) {
    /** The records held, in the order in which they came from the stream. */
    function Held(): seq<AppendRecord> {
      batch.records + if overflowed.Some? then [overflowed.value] else []
    }

    /** The inner loop goes on: the batch is open, not full, and nothing overflowed. */
    predicate Filling(config: BatchingConfig) {
      batch.records != [] && !config.IsBatchFull(|batch.records|, batch.meteredBytes) && overflowed.None?
    }

    function Offer(config: BatchingConfig, record: AppendRecord): Batcher {
      if config.WouldOverflowBatch(|batch.records|, batch.meteredBytes, record)
      then this.(overflowed := Some(record))
      else this.(batch := batch.Push(record))
    }

    /** The batch respects the limits, and an overflowed record follows a batch it does not fit in. */
    ghost predicate Valid(config: BatchingConfig) {
      && batch.Valid() && config.Fits(batch.records)
      && (overflowed.Some? && batch.records != [] ==> !config.Fits(batch.records + [overflowed.value]))
    }

    lemma OfferKeepsOrder(config: BatchingConfig, record: AppendRecord)
      requires Valid(config) && Filling(config)
      ensures Offer(config, record).Held() == Held() + [record]
      ensures Offer(config, record).Valid(config)
    {
      PushedFits(config, batch, record);
    }
  }

  const EMPTY_BATCHER := Batcher(EMPTY_BATCH, None)

  /** The running count and byte total decide exactly whether one more record fits. */
  lemma PushedFits(config: BatchingConfig, batch: AppendRecordBatch, record: AppendRecord)
    requires batch.Valid()
    ensures config.Fits(batch.records + [record])
       <==> !config.WouldOverflowBatch(|batch.records|, batch.meteredBytes, record)
  {
    TotalBytesPush(batch.records, record);
  }

  /** The records of the batches, in order. */
  function Flatten(batches: seq<AppendRecordBatch>): seq<AppendRecord> {
    if batches == [] then [] else Flatten(batches[..|batches| - 1]) + batches[|batches| - 1].records
  }

  /** The batches cut `records` into non-empty contiguous pieces, each within the limits. */
  ghost predicate Partition(config: BatchingConfig, batches: seq<AppendRecordBatch>, records: seq<AppendRecord>) {
    && Flatten(batches) == records
    && forall i | 0 <= i < |batches| ::
         batches[i].Valid() && batches[i].records != [] && config.Fits(batches[i].records)
  }

  /** No batch could have taken the record that opens the next batch. */
  ghost predicate Greedy(config: BatchingConfig, batches: seq<AppendRecordBatch>)
    requires forall i | 0 <= i < |batches| :: batches[i].records != []
  {
    forall i, j | 0 <= i && j == i + 1 < |batches| ::
      !config.Fits(batches[i].records + [batches[j].records[0]])
  }

  /**
    The batching stream run to its end. `fires(k)` says whether the linger
    deadline wins the k-th `select!`; the contract holds for every such schedule.
    `served` counts the records before the first oversized one.
   */
  method AppendRecordBatches(records: seq<AppendRecord>, config: BatchingConfig, fires: nat -> bool)
    returns (batches: seq<AppendRecordBatch>, err: Option<ValidationError>, ghost served: nat)
    requires config.Valid()
    ensures served <= |records| && NoneOversized(config, records[..served])
    ensures err.None? <==> served == |records|
    ensures err.Some? ==> config.IsOversized(records[served])
    ensures err.Some? ==> err.value == ExceedsMaxBatchBytes(records[served].MeteredBytes())
    ensures Partition(config, batches, records[..served])
    ensures (forall k: nat :: !fires(k)) ==> Greedy(config, batches)
  {
    batches, err, served := [], None, 0;
    ghost var neverLingers := forall k: nat :: !fires(k);
    var overflowed, next, selects := None, 0, 0;
    while true
      invariant Resumes(overflowed, records, served, next)
      invariant Emitted(config, batches, records, served, neverLingers)
      decreases |records| - served
    {
      var first;
      first, next := TakeFirst(records, overflowed, next, served);
      if first.None? {
        break;
      }
      if config.IsOversized(first.value) {
        err := Some(ExceedsMaxBatchBytes(first.value.MeteredBytes()));
        break;
      }
      var batch, ended;
      batch, overflowed, next, selects, ended :=
        RunBatch(records, config, fires, first.value, served, next, selects, batches, neverLingers);
      batches, served := batches + [batch], served + |batch.records|;
      if ended {
        break;
      }
    }
  }

  /** One batch, from its first record to its yield. */
  method RunBatch(records: seq<AppendRecord>, config: BatchingConfig, fires: nat -> bool, first: AppendRecord,
                  ghost start: nat, from: nat, selected: nat,
                  ghost batches: seq<AppendRecordBatch>, ghost neverLingers: bool)
    returns (batch: AppendRecordBatch, overflowed: Option<AppendRecord>, next: nat, selects: nat, ended: bool)
    requires config.Valid() && start + 1 == from <= |records| && records[start] == first && !config.IsOversized(first)
    requires neverLingers ==> forall k: nat :: !fires(k)
    requires Emitted(config, batches, records, start, neverLingers)
    ensures start < start + |batch.records| <= |records|
    ensures Resumes(overflowed, records, start + |batch.records|, next)
    ensures Emitted(config, batches + [batch], records, start + |batch.records|, neverLingers)
    ensures ended ==> start + |batch.records| == |records|
  {
    PushedFits(config, EMPTY_BATCH, first);
    var batcher, lingered := Batcher(EMPTY_BATCH.Push(first), None), false;
    batcher, next, selects, lingered, ended := FillBatch(records, config, fires, batcher, start, from, selected);
    EmitBatch(config, batches, batcher, records, start, next, neverLingers);
    batch, overflowed := batcher.batch, batcher.overflowed;
  }

  /** The first record of a batch: the one that overflowed the last batch, else the next of the stream. */
  method TakeFirst(records: seq<AppendRecord>, overflowed: Option<AppendRecord>, next: nat, ghost served: nat)
    returns (first: Option<AppendRecord>, next': nat)
    requires Resumes(overflowed, records, served, next)
    ensures first == if served < |records| then Some(records[served]) else None
    ensures first.Some? ==> next' == served + 1
  {
    if overflowed.Some? {
      return overflowed, next;
    }
    if next < |records| {
      return Some(records[next]), next + 1;
    }
    return None, next;
  }

  /**
    The inner loop: records join the open batch until it is full, one overflows, the deadline fires, or the stream
    ends.
   */
  method FillBatch(records: seq<AppendRecord>, config: BatchingConfig, fires: nat -> bool,
                   initial: Batcher, ghost start: nat, from: nat, selected: nat)
    returns (batcher: Batcher, next: nat, selects: nat, lingered: bool, ended: bool)
    requires start < from <= |records| && initial.batch.records == records[start..from]
    requires initial.Valid(config) && initial.overflowed.None?
    ensures batcher.Valid(config) && from <= next <= |records|
    ensures HoldsSlice(batcher, records, start, next)
    ensures ended ==> next == |records| && batcher.overflowed.None?
    ensures ended || lingered || !batcher.Filling(config)
    ensures lingered ==> exists k: nat :: fires(k)
  {
    batcher, next, selects, lingered, ended := initial, from, selected, false, false;
    while !config.IsBatchFull(|batcher.batch.records|, batcher.batch.meteredBytes) && batcher.overflowed.None?
      invariant from <= next <= |records| && batcher.Valid(config)
      invariant HoldsSlice(batcher, records, start, next)
      decreases |records| - next
    {
      if fires(selects) {
        lingered, selects := true, selects + 1;
        return;
      }
      selects := selects + 1;
      if next == |records| {
        ended := true;
        return;
      }
      batcher.OfferKeepsOrder(config, records[next]);
      batcher := batcher.Offer(config, records[next]);
      next := next + 1;
    }
  }

  /** The batch holds the records from `start`, and the record read after them, if any, overflowed. */
  ghost predicate HoldsSlice(batcher: Batcher, records: seq<AppendRecord>, start: nat, next: nat)
    requires next <= |records|
  {
    var end := start + |batcher.batch.records|;
    && start < end <= next <= end + 1
    && batcher.batch.records == records[start..end]
    && batcher.overflowed == if next == end then None else Some(records[end])
  }

  /** Between two batches only the record that overflowed the last one is held back. */
  ghost predicate Resumes(overflowed: Option<AppendRecord>, records: seq<AppendRecord>, served: nat, next: nat) {
    && served <= next <= |records| && next <= served + 1
    && overflowed == if next == served then None else Some(records[served])
  }

  ghost predicate NoneOversized(config: BatchingConfig, records: seq<AppendRecord>) {
    forall i | 0 <= i < |records| :: !config.IsOversized(records[i])
  }

  /** The batches so far, for the records before `served`; greedy as long as the linger deadline never fires. */
  ghost predicate Emitted(config: BatchingConfig, batches: seq<AppendRecordBatch>, records: seq<AppendRecord>,
                          served: nat, neverLingers: bool)
    requires served <= |records|
  {
    && Partition(config, batches, records[..served]) && NoneOversized(config, records[..served])
    && (neverLingers ==> Greedy(config, batches))
    && (neverLingers && batches != [] && served < |records| ==>
          !config.Fits(batches[|batches| - 1].records + [records[served]]))
  }

  /** Yielding the batch that the inner loop filled. */
  lemma EmitBatch(config: BatchingConfig, batches: seq<AppendRecordBatch>, batcher: Batcher,
                  records: seq<AppendRecord>, start: nat, next: nat, neverLingers: bool)
    requires start <= next <= |records| && HoldsSlice(batcher, records, start, next) && batcher.Valid(config)
    requires Emitted(config, batches, records, start, neverLingers)
    requires neverLingers && next < |records| ==> !batcher.Filling(config)
    ensures Emitted(config, batches + [batcher.batch], records, start + |batcher.batch.records|, neverLingers)
  {
    EmitPartition(config, batches, batcher.batch, records, start, start + |batcher.batch.records|);
    if neverLingers {
      EmitGreedy(config, batches, batcher.batch, records, start);
      EmitFull(config, batcher, records, start, next);
    }
  }

  /** What opens the new batch did not fit the one before it. */
  lemma EmitGreedy(config: BatchingConfig, batches: seq<AppendRecordBatch>, batch: AppendRecordBatch,
                   records: seq<AppendRecord>, start: nat)
    requires start < |records| && batch.records != [] && batch.records[0] == records[start]
    requires forall i | 0 <= i < |batches| :: batches[i].records != []
    requires Greedy(config, batches)
    requires batches != [] ==> !config.Fits(batches[|batches| - 1].records + [records[start]])
    ensures Greedy(config, batches + [batch])
  {}

  /** The record after the new batch does not fit it, since nothing but a full batch or an overflow ended it. */
  lemma EmitFull(config: BatchingConfig, batcher: Batcher, records: seq<AppendRecord>, start: nat, next: nat)
    requires next <= |records| && HoldsSlice(batcher, records, start, next) && batcher.Valid(config)
    requires next < |records| ==> !batcher.Filling(config)
    ensures var end := start + |batcher.batch.records|;
            end < |records| ==> !config.Fits(batcher.batch.records + [records[end]])
  {
    var end := start + |batcher.batch.records|;
    if end < |records| {
      PushedFits(config, batcher.batch, records[end]);
    }
  }

  lemma EmitPartition(config: BatchingConfig, batches: seq<AppendRecordBatch>, batch: AppendRecordBatch,
                      records: seq<AppendRecord>, start: nat, end: nat)
    requires start < end <= |records| && batch.records == records[start..end]
    requires batch.Valid() && config.Fits(batch.records)
    requires Partition(config, batches, records[..start]) && NoneOversized(config, records[..start])
    ensures Partition(config, batches + [batch], records[..end]) && NoneOversized(config, records[..end])
  {
    assert (batches + [batch])[..|batches|] == batches;
    assert records[..start] + batch.records == records[..end];
    forall i | start <= i < end ensures !config.IsOversized(records[i]) {
      RecordWithinTotal(batch.records, i - start);
    }
  }

  // ---------- Optimality ----------

  /** The number of records in the first `k` batches. */
  function Offset(batches: seq<AppendRecordBatch>, k: nat): nat
    requires k <= |batches|
  {
    if k == 0 then 0 else Offset(batches, k - 1) + |batches[k - 1].records|
  }

  lemma {:induction false} OffsetOfPrefix(batches: seq<AppendRecordBatch>, n: nat, k: nat)
    requires k <= n <= |batches|
    ensures Offset(batches[..n], k) == Offset(batches, k)
  {
    if k > 0 {
      OffsetOfPrefix(batches, n, k - 1);
    }
  }

  lemma {:induction false} OffsetIsLength(batches: seq<AppendRecordBatch>)
    ensures Offset(batches, |batches|) == |Flatten(batches)|
  {
    if batches != [] {
      var last := |batches| - 1;
      OffsetIsLength(batches[..last]);
      OffsetOfPrefix(batches, last, last);
    }
  }

  /** Batch `k` is the piece of the records between its two offsets. */
  lemma {:induction false} BatchIsSlice(batches: seq<AppendRecordBatch>, k: nat)
    requires k < |batches|
    ensures Offset(batches, k + 1) <= |Flatten(batches)|
    ensures batches[k].records == Flatten(batches)[Offset(batches, k)..Offset(batches, k + 1)]
    decreases |batches|
  {
    var last := |batches| - 1;
    OffsetIsLength(batches);
    OffsetIsLength(batches[..last]);
    OffsetOfPrefix(batches, last, last);
    if k < last {
      BatchIsSlice(batches[..last], k);
      OffsetOfPrefix(batches, last, k);
      OffsetOfPrefix(batches, last, k + 1);
    }
  }

  /** The limits, for the records between two positions. */
  predicate RangeFits(config: BatchingConfig, records: seq<AppendRecord>, lo: nat, hi: nat)
    requires lo <= hi <= |records|
  {
    hi - lo <= config.maxBatchRecords && BytesBefore(records, hi) - BytesBefore(records, lo) <= config.maxBatchBytes
  }

  lemma RangesNest(config: BatchingConfig, records: seq<AppendRecord>, outerLo: nat, lo: nat, hi: nat, outerHi: nat)
    requires outerLo <= lo <= hi <= outerHi <= |records| && RangeFits(config, records, outerLo, outerHi)
    ensures RangeFits(config, records, lo, hi)
  {
    BytesBeforeMonotonic(records, outerLo, lo);
    BytesBeforeMonotonic(records, hi, outerHi);
  }

  lemma PieceFits(config: BatchingConfig, batches: seq<AppendRecordBatch>, records: seq<AppendRecord>, k: nat)
    requires Partition(config, batches, records) && 0 < k <= |batches|
    ensures Offset(batches, k - 1) < Offset(batches, k) <= |records|
    ensures RangeFits(config, records, Offset(batches, k - 1), Offset(batches, k))
  {
    BatchIsSlice(batches, k - 1);
    RangeBytes(records, Offset(batches, k - 1), Offset(batches, k));
  }

  lemma GreedyPieceIsMaximal(config: BatchingConfig, greedy: seq<AppendRecordBatch>, records: seq<AppendRecord>, k: nat)
    requires Partition(config, greedy, records) && Greedy(config, greedy) && 0 < k < |greedy|
    ensures Offset(greedy, k - 1) < Offset(greedy, k) < |records|
    ensures !RangeFits(config, records, Offset(greedy, k - 1), Offset(greedy, k) + 1)
  {
    BatchIsSlice(greedy, k - 1);
    BatchIsSlice(greedy, k);
    var lo, mid := Offset(greedy, k - 1), Offset(greedy, k);
    var piece, next := greedy[k - 1].records, greedy[k].records[0];
    assert piece == records[lo..mid] && next == records[mid];
    RangeBytes(records, lo, mid);
    TotalBytesPush(piece, next);
  }

  lemma AllTaken(config: BatchingConfig, batches: seq<AppendRecordBatch>, records: seq<AppendRecord>)
    requires Partition(config, batches, records)
    ensures Offset(batches, |batches|) == |records|
  {
    OffsetIsLength(batches);
  }

  /** A batch of the greedy partition that does not start behind another partition's does not end behind it either. */
  lemma GreedyStaysAhead(config: BatchingConfig, greedy: seq<AppendRecordBatch>,
                         other: seq<AppendRecordBatch>, records: seq<AppendRecord>, k: nat)
    requires Partition(config, greedy, records) && Partition(config, other, records) && Greedy(config, greedy)
    requires 0 < k < |greedy| && k <= |other| && Offset(greedy, k - 1) >= Offset(other, k - 1)
    ensures Offset(greedy, k) >= Offset(other, k)
  {
    PieceFits(config, other, records, k);
    GreedyPieceIsMaximal(config, greedy, records, k);
    if Offset(greedy, k) < Offset(other, k) {
      RangesNest(config, records, Offset(other, k - 1), Offset(greedy, k - 1), Offset(greedy, k) + 1, Offset(other, k));
    }
  }

  /** After the same number of batches, the greedy partition has taken at least as many records. */
  lemma {:induction false} GreedyLeads(config: BatchingConfig, greedy: seq<AppendRecordBatch>,
                                       other: seq<AppendRecordBatch>, records: seq<AppendRecord>, k: nat)
    requires Partition(config, greedy, records) && Partition(config, other, records) && Greedy(config, greedy)
    requires k <= |greedy| && k <= |other|
    ensures Offset(greedy, k) >= Offset(other, k)
  {
    if k > 0 {
      GreedyLeads(config, greedy, other, records, k - 1);
      if k == |greedy| {
        AllTaken(config, greedy, records);
        PieceFits(config, other, records, k);
      } else {
        GreedyStaysAhead(config, greedy, other, records, k);
      }
    }
  }

  /** No partition of the records within the limits has fewer batches than the greedy one. */
  lemma GreedyIsOptimal(config: BatchingConfig, greedy: seq<AppendRecordBatch>,
                        other: seq<AppendRecordBatch>, records: seq<AppendRecord>)
    requires Partition(config, greedy, records) && Greedy(config, greedy)
    requires Partition(config, other, records)
    ensures |greedy| <= |other|
  {
    if |other| < |greedy| {
      GreedyLeads(config, greedy, other, records, |other|);
      AllTaken(config, other, records);
      PieceFits(config, greedy, records, |other| + 1);
      assert false;
    }
  }

  /** Two greedy partitions of the same records are the same: the greedy partition is a function of the input. */
  lemma GreedyIsUnique(config: BatchingConfig, a: seq<AppendRecordBatch>, b: seq<AppendRecordBatch>,
                       records: seq<AppendRecord>)
    requires Partition(config, a, records) && Greedy(config, a)
    requires Partition(config, b, records) && Greedy(config, b)
    ensures a == b
  {
    GreedyIsOptimal(config, a, b, records);
    GreedyIsOptimal(config, b, a, records);
    forall k | 0 <= k < |a| ensures a[k] == b[k] {
      SameBatch(config, a, b, records, k);
    }
  }

  lemma SameBatch(config: BatchingConfig, a: seq<AppendRecordBatch>, b: seq<AppendRecordBatch>,
                  records: seq<AppendRecord>, k: nat)
    requires Partition(config, a, records) && Greedy(config, a)
    requires Partition(config, b, records) && Greedy(config, b)
    requires k < |a| == |b|
    ensures a[k] == b[k]
  {
    SameOffset(config, a, b, records, k);
    SameOffset(config, a, b, records, k + 1);
    BatchIsSlice(a, k);
    BatchIsSlice(b, k);
  }

  lemma SameOffset(config: BatchingConfig, a: seq<AppendRecordBatch>, b: seq<AppendRecordBatch>,
                   records: seq<AppendRecord>, k: nat)
    requires Partition(config, a, records) && Greedy(config, a)
    requires Partition(config, b, records) && Greedy(config, b)
    requires k <= |a| == |b|
    ensures Offset(a, k) == Offset(b, k)
  {
    GreedyLeads(config, a, b, records, k);
    GreedyLeads(config, b, a, records, k);
  }

  // ---------- Matching sequence numbers ----------

  const U64_MODULUS: nat := 0x1_0000_0000_0000_0000

  datatype AppendInput = AppendInput(records: AppendRecordBatch, matchSeqNum: Option<nat>, fencingToken: Option<string>)

  /** The stream of append inputs: batches stamped with the sequence number they expect to land at. */
  class AppendInputs {
    const fencingToken: Option<string>
    var matchSeqNum: Option<nat>

    constructor (fencingToken: Option<string>, matchSeqNum: Option<nat>)
      ensures this.fencingToken == fencingToken && this.matchSeqNum == matchSeqNum
    {
      this.fencingToken, this.matchSeqNum := fencingToken, matchSeqNum;
    }

    method PollNext(next: Option<Result<AppendRecordBatch, ValidationError>>)
      returns (item: Option<Result<AppendInput, ValidationError>>)
      modifies this`matchSeqNum
      ensures next.Some? && next.value.Ok? ==>
                && item == Some(Ok(AppendInput(next.value.value, old(matchSeqNum), fencingToken)))
                && matchSeqNum == NextMatch(old(matchSeqNum), next.value.value)
      ensures next.Some? && next.value.Err? ==> item == Some(Err(next.value.error)) && matchSeqNum == old(matchSeqNum)
      ensures next.None? ==> item == None && matchSeqNum == old(matchSeqNum)
    {
      match next
      case Some(Ok(batch)) =>
        var matching := matchSeqNum;
        if matchSeqNum.Some? {
          matchSeqNum := Some((matchSeqNum.value + |batch.records|) % U64_MODULUS);
        }
        item := Some(Ok(AppendInput(batch, matching, fencingToken)));
      case Some(Err(error)) =>
        item := Some(Err(error));
      case None =>
        item := None;
    }

    /** Draws an input for every batch, as the caller of the stream does. */
    method Collect(batches: seq<AppendRecordBatch>) returns (inputs: seq<AppendInput>)
      modifies this`matchSeqNum
      ensures inputs == Stamp(batches, old(matchSeqNum), fencingToken)
    {
      inputs := [];
      for k := 0 to |batches|
        invariant inputs + Stamp(batches[k..], matchSeqNum, fencingToken)
          == Stamp(batches, old(matchSeqNum), fencingToken)
      {
        assert batches[k..][0] == batches[k] && batches[k..][1..] == batches[k + 1..];
        var item := PollNext(Some(Ok(batches[k])));
        inputs := inputs + [item.value.value];
      }
    }
  }

  function NextMatch(matchSeqNum: Option<nat>, batch: AppendRecordBatch): Option<nat> {
    match matchSeqNum
    case Some(n) => Some((n + |batch.records|) % U64_MODULUS)
    case None => None
  }

  function Stamp(
    batches: seq<AppendRecordBatch>, matchSeqNum: Option<nat>, token: Option<string>): (inputs: seq<AppendInput>)
    ensures |inputs| == |batches|
  {
    if batches == [] then []
    else [AppendInput(batches[0], matchSeqNum, token)] + Stamp(batches[1..], NextMatch(matchSeqNum, batches[0]), token)
  }

  /** The k-th input expects the initial number plus the lengths of all earlier batches. */
  lemma {:induction false} StampedAtOffset(batches: seq<AppendRecordBatch>, start: nat, token: Option<string>, k: nat)
    requires k < |batches| && start + Offset(batches, k) < U64_MODULUS
    ensures Stamp(batches, Some(start), token)[k] == AppendInput(batches[k], Some(start + Offset(batches, k)), token)
  {
    if k > 0 {
      OffsetOfTail(batches, k);
      StampedAtOffset(batches[1..], start + |batches[0].records|, token, k - 1);
    }
  }

  lemma {:induction false} OffsetOfTail(batches: seq<AppendRecordBatch>, k: nat)
    requires 0 < k <= |batches|
    ensures Offset(batches, k) == |batches[0].records| + Offset(batches[1..], k - 1)
  {
    if k > 1 {
      OffsetOfTail(batches, k - 1);
    }
  }

  lemma FlattenHead(batches: seq<AppendRecordBatch>)
    requires batches != []
    ensures |Flatten(batches)| == |batches[0].records| + |Flatten(batches[1..])|
  {
    OffsetIsLength(batches);
    OffsetIsLength(batches[1..]);
    OffsetOfTail(batches, |batches|);
  }

  /** The tail after the service takes an input: it refuses an input whose expected number is not the tail. */
  function TailAfter(tail: nat, input: AppendInput): Option<nat> {
    if input.matchSeqNum.Some? && input.matchSeqNum.value != tail then None
    else Some(tail + |input.records.records|)
  }

  /** Whether the service takes every input in turn, starting from `tail`. */
  predicate AllAccepted(tail: nat, inputs: seq<AppendInput>)
    decreases |inputs|
  {
    inputs == [] || match TailAfter(tail, inputs[0])
                    case Some(next) => AllAccepted(next, inputs[1..])
                    case None => false
  }

  /** A sole writer that starts at the tail never mismatches; one that starts elsewhere is refused at once. */
  lemma {:induction false} SoleWriterNeverMismatches(
    batches: seq<AppendRecordBatch>, start: nat, tail: nat, token: Option<string>)
    requires tail + |Flatten(batches)| < U64_MODULUS && batches != []
    ensures AllAccepted(tail, Stamp(batches, Some(start), token)) <==> start == tail
  {
    var rest := batches[1..];
    FlattenHead(batches);
    if start == tail && rest != [] {
      var next := tail + |batches[0].records|;
      SoleWriterNeverMismatches(rest, next, next, token);
    }
  }
}
