/** The append-only log of one session: batched lines, flushed by a timer, at once for what is critical, and at the
    end. */
module EventLog {
  import opened Options
  import opened Framing
  import opened EventLogScan

  class EventLog {
    const encode: Encoder
    var buffer: seq<string>
    /** The batch timer runs. */
    var flushTimer: bool
    var nextSeq: int
    var destroyed: bool
    /** The file as written, the records appended in all, and whether every write reached the disk. */
    ghost var file: string
    ghost var records: seq<Record>
    ghost var flushed: nat
    ghost var intact: bool

    /** Between calls the timer runs exactly while something is buffered; what is buffered are the records not yet
        flushed, and while every write reached the disk the file holds all the others, each as its own line. */
    ghost predicate Valid() reads this {
      && flushed <= |records|
      && (flushTimer <==> buffer != [])
      && (destroyed ==> buffer == [])
      && buffer == Encoded(encode, records[flushed..])
      && (intact ==> file == Written(encode, records[..flushed]))
    }

    constructor (encode: Encoder)
      ensures Valid() && this.encode == encode
      ensures buffer == [] && nextSeq == 0 && !destroyed && file == "" && records == [] && intact
    {
      this.encode := encode;
      buffer, flushTimer, nextSeq, destroyed := [], false, 0, false;
      file, records, flushed, intact := "", [], 0, true;
    }

    /** Append an event; a destroyed log takes none and answers -1. A critical one leaves nothing buffered. */
    method Append(activity: Option<string>, critical: bool, writes: bool) returns (seqNo: int)
      requires Valid()
      modifies this
      ensures Valid()
      ensures old(destroyed) ==> seqNo == -1 && records == old(records) && file == old(file) && nextSeq == old(nextSeq)
      ensures !old(destroyed) ==>
                && seqNo == old(nextSeq) && nextSeq == seqNo + 1
                && records == old(records) + [Record(seqNo, activity)]
                && flushed == (if critical then |records| else old(flushed))
                && intact == (old(intact) && (critical ==> writes))
      ensures destroyed == old(destroyed)
    {
      if destroyed { return -1; }
      seqNo := nextSeq;
      nextSeq := nextSeq + 1;
      var line := encode(Record(seqNo, activity));
      records := records + [Record(seqNo, activity)];
      buffer := buffer + [line];
      assert buffer == Encoded(encode, records[flushed..]);
      assert records[..flushed] == old(records)[..flushed];
      if critical {
        FlushSync(writes);
      } else if !flushTimer {
        flushTimer := true;
      }
    }

    /** Recovery hands the log the number after the last one read. */
    method SetNextSeq(seqNo: int)
      requires Valid()
      modifies this`nextSeq
      ensures Valid() && nextSeq == seqNo
    {
      nextSeq := seqNo;
    }

    /** The batch timer's callback. */
    method FireTimer(writes: bool)
      requires Valid() && flushTimer
      modifies this
      ensures Valid() && flushed == |records| && records == old(records) && nextSeq == old(nextSeq)
      ensures destroyed == old(destroyed) && intact == (old(intact) && writes)
    {
      flushTimer := false;
      FlushSync(writes);
    }

    /** Write out everything buffered; a write that fails is reported and its records are gone. */
    method FlushSync(writes: bool)
      requires flushed <= |records| && buffer == Encoded(encode, records[flushed..])
      requires intact ==> file == Written(encode, records[..flushed])
      requires flushTimer ==> buffer != []
      modifies this
      ensures Valid()
      ensures buffer == [] && !flushTimer && flushed == |records|
      ensures records == old(records) && nextSeq == old(nextSeq) && destroyed == old(destroyed)
      ensures intact == (old(intact) && (old(buffer) == [] || writes))
      ensures intact ==> file == Written(encode, records)
      ensures old(buffer) == [] || !writes ==> file == old(file)
    {
      assert records[..|records|] == records;
      if |buffer| == 0 {
        assert flushed == |records|;
        return;
      }
      var chunk := Joined(buffer);
      buffer := [];
      if flushTimer { flushTimer := false; }
      if writes {
        WrittenInTwo(encode, records, flushed);
        file := file + chunk;
      } else {
        intact := false;
      }
      flushed := |records|;
      assert records[flushed..] == [] && records[..flushed] == records;
    }

    /** Flush what is left and take no more. */
    method Destroy(writes: bool)
      requires Valid()
      modifies this
      ensures Valid() && destroyed && records == old(records) && nextSeq == old(nextSeq)
      ensures !old(destroyed) ==> flushed == |records|
    {
      if destroyed { return; }
      destroyed := true;
      FlushSync(writes);
    }
  }

  lemma WrittenInTwo(encode: Encoder, records: seq<Record>, k: nat)
    requires k <= |records|
    ensures Written(encode, records[..k]) + Joined(Encoded(encode, records[k..])) == Written(encode, records)
  {
    var a, b := Encoded(encode, records[..k]), Encoded(encode, records[k..]);
    assert a + b == Encoded(encode, records);
    JoinedOfTwo(a, b);
  }
}
