/**
 The hash-chained experiment ledger of src/experiment_ledger.py.  The canonical
 encoding and SHA-256 are one function parameter; only the tamper-evidence
 results assume that it is injective.
 */
module ExperimentLedger {
  import opened Common

  type Hash = nat

  const GENESIS: Hash := 0

  /** What is hashed: sequence, previous hash and everything else in the record. */
  datatype Unsigned = Unsigned(sequence: int, previous: Hash, rest: nat)

  datatype Record = Record(unsigned: Unsigned, hash: Hash)

  /** A payload, and whether it uses one of the reserved keys. */
  datatype Payload = Payload(usesReservedKey: bool, rest: nat)

  datatype Seal = Seal(finalHash: Hash, count: nat)

  type Digest = Unsigned -> Hash

  datatype Error = Finalized | ReservedKeys | InvalidChain | SealMismatch

  function FinalHash(records: seq<Record>): Hash {
    if records == [] then GENESIS else records[|records| - 1].hash
  }

  /** One link of the chain. */
  predicate Linked(h: Digest, r: Record, position: nat, previous: Hash) {
    r.unsigned.sequence == position && r.unsigned.previous == previous && h(r.unsigned) == r.hash
  }

  /** Every record links to the one before it. */
  predicate Verifies(h: Digest, records: seq<Record>) {
    forall i :: 0 <= i < |records| ==> Linked(h, records[i], i, FinalHash(records[..i]))
  }

  function NextRecord(h: Digest, records: seq<Record>, rest: nat): Record {
    var u := Unsigned(|records|, FinalHash(records), rest);
    Record(u, h(u))
  }

  /** Appending keeps the chain; so does cutting it. */
  lemma AppendVerifies(h: Digest, records: seq<Record>, rest: nat)
    requires Verifies(h, records)
    ensures Verifies(h, records + [NextRecord(h, records, rest)])
  {
    var longer := records + [NextRecord(h, records, rest)];
    forall i | 0 <= i < |longer|
      ensures Linked(h, longer[i], i, FinalHash(longer[..i]))
    {
      assert longer[..i] == records[..i];
      if i == |records| {
        assert records[..i] == records;
      }
    }
  }

  lemma PrefixVerifies(h: Digest, records: seq<Record>, n: nat)
    requires Verifies(h, records) && n <= |records|
    ensures Verifies(h, records[..n])
  {
    forall i | 0 <= i < n
      ensures Linked(h, records[..n][i], i, FinalHash(records[..n][..i]))
    {
      assert records[..n][..i] == records[..i];
    }
  }

  ghost predicate CollisionFree(h: Digest) {
    forall u: Unsigned, v: Unsigned :: h(u) == h(v) ==> u == v
  }

  /** The final hash alone pins down a nonempty verifying ledger: its length and every record in it. */
  lemma {:induction false} FinalHashIdentifies(h: Digest, a: seq<Record>, b: seq<Record>)
    requires CollisionFree(h) && Verifies(h, a) && Verifies(h, b)
    requires a != [] && b != [] && FinalHash(a) == FinalHash(b)
    ensures a == b
    decreases |a|
  {
    var n := |a| - 1;
    assert Linked(h, a[n], n, FinalHash(a[..n])) && Linked(h, b[|b| - 1], |b| - 1, FinalHash(b[..|b| - 1]));
    assert a[n] == b[|b| - 1] && |a| == |b|;
    if n > 0 {
      PrefixVerifies(h, a, n);
      PrefixVerifies(h, b, n);
      FinalHashIdentifies(h, a[..n], b[..n]);
    }
    assert a == a[..n] + [a[n]] && b == b[..n] + [b[n]];
  }

  /** Tamper evidence: same final hash and record count, same ledger. */
  lemma SameSealSameLedger(h: Digest, a: seq<Record>, b: seq<Record>)
    requires CollisionFree(h) && Verifies(h, a) && Verifies(h, b)
    requires FinalHash(a) == FinalHash(b) && |a| == |b|
    ensures a == b
  {
    if a != [] {
      FinalHashIdentifies(h, a, b);
    }
  }

  // --------------------------------------------------------------- the files

  /** The ledger file and the seal file beside it. */
  datatype Files = Files(records: seq<Record>, seal: Option<Seal>)

  datatype Opened = Opened(lastHash: Hash, sequence: nat, finalized: bool)

  function SealOf(records: seq<Record>): Seal {
    Seal(FinalHash(records), |records|)
  }

  /** The constructor: verify, restore the last hash and sequence, check the seal. */
  function Open(h: Digest, f: Files): Result<Opened, Error> {
    if !Verifies(h, f.records) then Err(InvalidChain)
    else if f.seal.Some? && f.seal.value != SealOf(f.records) then Err(SealMismatch)
    else Ok(Opened(FinalHash(f.records), |f.records|, f.seal.Some?))
  }

  /** Once sealed, a ledger that opens is the sealed one: any edit, reordering, removal or addition is refused. */
  lemma SealedFileIsExact(h: Digest, sealed: seq<Record>, found: seq<Record>)
    requires CollisionFree(h) && Verifies(h, sealed)
    ensures Open(h, Files(found, Some(SealOf(sealed)))).Ok? <==> found == sealed
  {
    if Open(h, Files(found, Some(SealOf(sealed)))).Ok? {
      SameSealSameLedger(h, sealed, found);
    }
  }

  class Ledger {
    const h: Digest
    var records: seq<Record>
    var seal: Option<Seal>
    var lastHash: Hash
    var sequence: nat
    var finalized: bool

    ghost predicate Valid()
      reads this
    {
      && Verifies(h, records) && lastHash == FinalHash(records) && sequence == |records|
      && (finalized <==> seal.Some?) && (seal.Some? ==> seal.value == SealOf(records))
    }

    ghost function Disk(): Files
      reads this
    {
      Files(records, seal)
    }

    /** Open existing files that the checks accept. */
    constructor (h: Digest, f: Files)
      requires Open(h, f).Ok?
      ensures this.h == h && Valid() && Disk() == f
      ensures Opened(lastHash, sequence, finalized) == Open(h, f).value
    {
      this.h := h;
      records, seal := f.records, f.seal;
      lastHash := FinalHash(f.records);
      sequence := |f.records|;
      finalized := f.seal.Some?;
    }

    /** `append`. */
    method Append(p: Payload) returns (r: Result<Record, Error>)
      requires Valid()
      modifies this
      ensures Valid() && seal == old(seal) && finalized == old(finalized)
      ensures r.Ok? <==> !old(finalized) && !p.usesReservedKey
      ensures records == if r.Ok? then old(records) + [NextRecord(h, old(records), p.rest)] else old(records)
      ensures r.Ok? ==> r.value == records[|records| - 1]
    {
      if finalized {
        return Err(Finalized);
      }
      if p.usesReservedKey {
        return Err(ReservedKeys);
      }
      AppendVerifies(h, records, p.rest);
      var unsigned := Unsigned(sequence, lastHash, p.rest);
      var stored := Record(unsigned, h(unsigned));
      records := records + [stored];
      lastHash := stored.hash;
      sequence := sequence + 1;
      r := Ok(stored);
    }

    /** `verify`: one pass over the file. */
    method Verify() returns (ok: bool)
      ensures ok <==> Verifies(h, records)
    {
      var previous, expected := GENESIS, 0;
      while expected < |records|
        invariant 0 <= expected <= |records|
        invariant previous == FinalHash(records[..expected])
        invariant forall i :: 0 <= i < expected ==> Linked(h, records[i], i, FinalHash(records[..i]))
      {
        var stored := records[expected];
        if stored.unsigned.sequence != expected || stored.unsigned.previous != previous || h(stored.unsigned) != stored.hash {
          assert !Linked(h, records[expected], expected, FinalHash(records[..expected]));
          return false;
        }
        assert records[..expected + 1][|records[..expected + 1]| - 1] == stored;
        previous := stored.hash;
        expected := expected + 1;
      }
      ok := true;
    }

    /** `finalize`: exclusive creation of the seal; nothing can be appended afterwards, here or after a reopening. */
    method Finalize() returns (r: Result<(), Error>)
      requires Valid()
      modifies this`seal, this`finalized
      ensures Valid() && r.Ok? && finalized && Open(h, Disk()).Ok? && Open(h, Disk()).value.finalized
    {
      var ok := Verify();
      if !ok {
        return Err(InvalidChain);
      }
      var wanted := Seal(lastHash, sequence);
      if seal.None? {
        seal := Some(wanted);
      } else if seal.value != wanted {
        return Err(SealMismatch);
      }
      finalized := true;
      r := Ok(());
    }
  }

  // --------------------------------------------------------------- histories

  /** A lifetime of the files: appends, finalizations, and reopenings by a new process. */
  datatype Step = Appends(payload: Payload) | Finalizes | Reopens

  datatype Life = Life(files: Files, memory: Opened)

  function StepLife(h: Digest, l: Life, s: Step): Life {
    match s
    case Appends(p) =>
      if l.memory.finalized || p.usesReservedKey then l
      else
        var u := Unsigned(l.memory.sequence, l.memory.lastHash, p.rest);
        Life(l.files.(records := l.files.records + [Record(u, h(u))]), Opened(h(u), l.memory.sequence + 1, false))
    case Finalizes =>
      var wanted := Seal(l.memory.lastHash, l.memory.sequence);
      if !Verifies(h, l.files.records) || (l.files.seal.Some? && l.files.seal.value != wanted) then l
      else Life(l.files.(seal := Some(wanted)), l.memory.(finalized := true))
    case Reopens =>
      match Open(h, l.files)
      case Ok(memory) => l.(memory := memory)
      case Err(_) => l
  }

  function Lives(h: Digest, steps: seq<Step>): Life {
    if steps == [] then Life(Files([], None), Opened(GENESIS, 0, false))
    else StepLife(h, Lives(h, steps[..|steps| - 1]), steps[|steps| - 1])
  }

  /** Over every lifetime the chain verifies, and a reopening finds exactly the last hash, sequence and finality in memory. */
  lemma {:induction false} AlwaysReopens(h: Digest, steps: seq<Step>)
    ensures var l := Lives(h, steps);
            Verifies(h, l.files.records) && Open(h, l.files) == Ok(l.memory)
  {
    if steps != [] {
      AlwaysReopens(h, steps[..|steps| - 1]);
      var l := Lives(h, steps[..|steps| - 1]);
      if steps[|steps| - 1].Appends? {
        AppendVerifies(h, l.files.records, steps[|steps| - 1].payload.rest);
      }
    }
  }

  /** Finalizing seals whatever was appended, at any point of any lifetime. */
  lemma FinalizeSeals(h: Digest, steps: seq<Step>)
    ensures var l := Lives(h, steps + [Finalizes]);
            && l.memory == Lives(h, steps).memory.(finalized := true) && l.files.records == Lives(h, steps).files.records
            && l.files.seal == Some(Seal(l.memory.lastHash, l.memory.sequence))
  {
    AlwaysReopens(h, steps);
    assert (steps + [Finalizes])[..|steps|] == steps;
  }

  /** Once finalized, a ledger never changes again. */
  lemma {:induction false} FinalizedForever(h: Digest, steps: seq<Step>, more: seq<Step>)
    requires Lives(h, steps).memory.finalized
    ensures Lives(h, steps + more) == Lives(h, steps)
    decreases |more|
  {
    if more == [] {
      assert steps + more == steps;
    } else {
      var n := |more| - 1;
      FinalizedForever(h, steps, more[..n]);
      assert (steps + more)[..|steps + more| - 1] == steps + more[..n];
      AlwaysReopens(h, steps);
    }
  }
}
