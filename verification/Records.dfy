/** Append records and batches of them (s2-sdk/src/types.rs). */
module Records {
  import opened Wrappers

  type Byte = b: int | 0 <= b < 256
  type Bytes = seq<Byte>

  const ONE_MIB: nat := 1024 * 1024
  const RECORD_BATCH_MAX_COUNT: nat := 1000
  const RECORD_BATCH_MAX_BYTES: nat := ONE_MIB

  datatype ValidationError =
    | RecordTooLarge(meteredBytes: nat)
    | BatchTooLarge(meteredBytes: nat)
    | TooManyRecords
    | EmptyBatch
    | LimitOutOfRange(limit: nat)
    | ExceedsMaxBatchBytes(meteredBytes: nat)

  datatype Header = Header(name: Bytes, value: Bytes)

  function HeaderBytes(headers: seq<Header>): nat {
    if headers == [] then 0
    else |headers[0].name| + |headers[0].value| + HeaderBytes(headers[1..])
  }

  // `id` tells apart two records with equal contents: the Rust code moves each
  // record through the pipeline, so equal contents are still different values.
  datatype AppendRecord = AppendRecord(id: nat, headers: seq<Header>, body: Bytes, timestamp: Option<nat>) {
    function MeteredBytes(): (bytes: nat)
      ensures bytes >= 8
    {
      8 + 2 * |headers| + HeaderBytes(headers) + |body|
    }

    function Validate(): (r: Result<AppendRecord, ValidationError>)
      ensures r.Ok? <==> TotalBytes([this]) <= RECORD_BATCH_MAX_BYTES
      ensures r.Ok? ==> r.value == this
    {
      TotalBytesPush([], this);
      assert [] + [this] == [this];
      if MeteredBytes() > RECORD_BATCH_MAX_BYTES then Err(RecordTooLarge(MeteredBytes())) else Ok(this)
    }
  }

  /** Metered bytes of the first `k` records. */
  function BytesBefore(records: seq<AppendRecord>, k: nat): nat
    requires k <= |records|
  {
    if k == 0 then 0 else BytesBefore(records, k - 1) + records[k - 1].MeteredBytes()
  }

  /** Sum of the metered bytes of the records, the meaning of a batch's cached size. */
  function TotalBytes(records: seq<AppendRecord>): nat {
    BytesBefore(records, |records|)
  }

  /** The bytes before a position depend on the records before it only. */
  lemma {:induction false} BytesOfPrefix(a: seq<AppendRecord>, b: seq<AppendRecord>, k: nat)
    requires k <= |a| && k <= |b| && forall i | 0 <= i < k :: a[i] == b[i]
    ensures BytesBefore(a, k) == BytesBefore(b, k)
  {
    if k > 0 {
      BytesOfPrefix(a, b, k - 1);
    }
  }

  lemma TotalBytesPush(records: seq<AppendRecord>, record: AppendRecord)
    ensures TotalBytes(records + [record]) == TotalBytes(records) + record.MeteredBytes()
  {
    BytesOfPrefix(records + [record], records, |records|);
  }

  /** A piece of the records weighs the difference of the bytes before its ends. */
  lemma {:induction false} RangeBytes(records: seq<AppendRecord>, lo: nat, hi: nat)
    requires lo <= hi <= |records|
    ensures BytesBefore(records, hi) == BytesBefore(records, lo) + TotalBytes(records[lo..hi])
  {
    if lo < hi {
      RangeBytes(records, lo, hi - 1);
      assert records[lo..hi] == records[lo..hi - 1] + [records[hi - 1]];
      TotalBytesPush(records[lo..hi - 1], records[hi - 1]);
    }
  }

  lemma {:induction false} BytesBeforeMonotonic(records: seq<AppendRecord>, i: nat, j: nat)
    requires i <= j <= |records|
    ensures BytesBefore(records, i) <= BytesBefore(records, j)
  {
    if i < j {
      BytesBeforeMonotonic(records, i, j - 1);
    }
  }

  lemma RecordWithinTotal(records: seq<AppendRecord>, i: nat)
    requires i < |records|
    ensures records[i].MeteredBytes() <= TotalBytes(records)
  {
    BytesBeforeMonotonic(records, i + 1, |records|);
  }

  /** The sequences of records that the service takes as one batch. */
  predicate IsBatchable(records: seq<AppendRecord>) {
    records != [] && |records| <= RECORD_BATCH_MAX_COUNT && TotalBytes(records) <= RECORD_BATCH_MAX_BYTES
  }

  /** A record is accepted if it makes a batch of its own, and refused only if no batch at all can hold it. */
  lemma ValidIffBatchable(record: AppendRecord)
    ensures record.Validate().Ok? ==> IsBatchable([record])
    ensures record.Validate().Err? ==> forall records | record in records :: !IsBatchable(records)
  {
    if record.Validate().Err? {
      forall records | record in records ensures !IsBatchable(records) {
        var i :| 0 <= i < |records| && records[i] == record;
        RecordWithinTotal(records, i);
      }
    }
  }

  datatype AppendRecordBatch = AppendRecordBatch(records: seq<AppendRecord>, meteredBytes: nat) {
    /** The cached size is the sum over the records. */
    ghost predicate Valid() {
      meteredBytes == TotalBytes(records)
    }

    function Push(record: AppendRecord): (batch: AppendRecordBatch)
      ensures Valid() ==> batch.Valid()
    {
      TotalBytesPush(records, record);
      AppendRecordBatch(records + [record], meteredBytes + record.MeteredBytes())
    }
  }

  const EMPTY_BATCH := AppendRecordBatch([], 0)

  /** Builds a batch from records, refusing exactly the sequences outside the service's limits. */
  method TryFromIter(input: seq<AppendRecord>) returns (r: Result<AppendRecordBatch, ValidationError>)
    ensures r.Ok? <==> IsBatchable(input)
    ensures r.Ok? ==> r.value.records == input && r.value.Valid()
    ensures r.Err? && r.error.EmptyBatch? <==> input == []
  {
    var batch := EMPTY_BATCH;
    for i := 0 to |input|
      invariant batch.records == input[..i] && batch.Valid()
      invariant i <= RECORD_BATCH_MAX_COUNT && TotalBytes(input[..i]) <= RECORD_BATCH_MAX_BYTES
    {
      batch := batch.Push(input[i]);
      assert batch.records == input[..i + 1];
      BytesOfPrefix(input, input[..i + 1], i + 1);
      BytesBeforeMonotonic(input, i + 1, |input|);
      if batch.meteredBytes > RECORD_BATCH_MAX_BYTES {
        return Err(BatchTooLarge(batch.meteredBytes));
      }
      if |batch.records| > RECORD_BATCH_MAX_COUNT {
        return Err(TooManyRecords);
      }
    }
    assert input[..|input|] == input;
    if batch.records == [] {
      return Err(EmptyBatch);
    }
    return Ok(batch);
  }
}
