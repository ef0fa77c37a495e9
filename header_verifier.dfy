/**
 * The block-header verifiers of a CKB node: VersionVerifier, NumberVerifier,
 * EpochVerifier, TimestampVerifier and PowVerifier. Each one is a pure check
 * of one header property against its context; on failure it returns an error
 * that carries the values it compared.
 */
module HeaderVerifier {
  import opened Ints

  /** Tolerance for a header timestamp ahead of the local clock, in milliseconds (15 seconds). */
  const ALLOWED_FUTURE_BLOCKTIME: u64 := 15_000

  /** An epoch field: the epoch number, the block's index inside the epoch, and the epoch's length. */
  datatype EpochNumberWithFraction = EpochNumberWithFraction(number: u64, index: u64, length: u64)

  /** The header fields the verifiers read. */
  datatype Header = Header(version: u32, number: u64, timestamp: u64, epoch: EpochNumberWithFraction)

  /** What a header builder produces when no field is set: every field zero. */
  const DefaultHeader: Header := Header(0, 0, 0, EpochNumberWithFraction(0, 0, 0))

  /** The result of one verifier: success, or the error it reports. */
  datatype Outcome<+E> = Pass | Fail(error: E)

  datatype BlockVersionError = BlockVersionError(expected: u32, actual: u32)

  datatype NumberError = NumberError(expected: u64, actual: u64)

  datatype EpochError =
    | Malformed(value: EpochNumberWithFraction)
    | NonContinuous(current: EpochNumberWithFraction, parent: EpochNumberWithFraction)

  datatype TimestampError =
    | BlockTimeTooOld(min: u64, actual: u64)
    | BlockTimeTooNew(max: u64, actual: u64)

  datatype PowError = InvalidNonce

  // ---------------------------------------------------------------------------
  // VersionVerifier

  function VerifyVersion(header: Header, expected: u32): (r: Outcome<BlockVersionError>)
    ensures r.Pass? <==> header.version == expected
    ensures r.Fail? ==> r.error == BlockVersionError(expected, header.version)
  {
    if header.version != expected then Fail(BlockVersionError(expected, header.version)) else Pass
  }

  /** test_version: a header one version ahead of the expected one. */
  lemma VersionVector(expected: u32)
    requires expected < U32_MAX
    ensures VerifyVersion(DefaultHeader.(version := expected + 1), expected)
            == Fail(BlockVersionError(expected, expected + 1))
  {
  }

  // ---------------------------------------------------------------------------
  // NumberVerifier

  /** The header's number must be its parent's plus one; `parent.number + 1` must fit in a u64. */
  function VerifyNumber(parent: Header, header: Header): (r: Outcome<NumberError>)
    requires parent.number < U64_MAX
    ensures r.Pass? <==> header.number == parent.number + 1
    ensures r.Fail? ==> r.error == NumberError(parent.number + 1, header.number)
  {
    if header.number != parent.number + 1 then Fail(NumberError(parent.number + 1, header.number)) else Pass
  }

  /** test_number: parent and header both numbered 10. */
  lemma NumberVector()
    ensures VerifyNumber(DefaultHeader.(number := 10), DefaultHeader.(number := 10)) == Fail(NumberError(11, 10))
  {
  }

  ghost predicate NumberLinked(parent: Header, header: Header) {
    parent.number < U64_MAX && VerifyNumber(parent, header).Pass?
  }

  /** Along a chain of headers each accepted after the previous one, numbers are consecutive. */
  lemma {:induction false} NumberChainConsecutive(hs: seq<Header>)
    requires forall k :: 0 < k < |hs| ==> NumberLinked(hs[k - 1], hs[k])
    ensures forall k :: 0 <= k < |hs| ==> hs[k].number == hs[0].number + k
  {
    if |hs| > 1 {
      var init := hs[..|hs| - 1];
      assert forall k :: 0 < k < |init| ==> NumberLinked(init[k - 1], init[k]) by {
        forall k | 0 < k < |init| ensures NumberLinked(init[k - 1], init[k]) {
          assert init[k - 1] == hs[k - 1] && init[k] == hs[k];
        }
      }
      NumberChainConsecutive(init);
      assert NumberLinked(hs[|hs| - 2], hs[|hs| - 1]);
      forall k | 0 <= k < |hs| ensures hs[k].number == hs[0].number + k {
        if k < |hs| - 1 {
          assert hs[k] == init[k];
        } else {
          assert hs[k - 1] == init[k - 1];
        }
      }
    }
  }

  // ---------------------------------------------------------------------------
  // EpochVerifier

  /** A well-formed epoch field has a positive length and an index inside it. */
  predicate IsWellFormed(e: EpochNumberWithFraction) {
    e.length > 0 && e.index < e.length
  }

  /**
   * The continuity rule: after the last block of an epoch the next block opens
   * the next epoch at index 0 (with any length); otherwise it is the next index
   * of the same epoch, with the same length.
   */
  predicate IsSuccessorOf(current: EpochNumberWithFraction, parent: EpochNumberWithFraction) {
    if parent.index + 1 == parent.length then
      current.number == parent.number + 1 && current.index == 0
    else
      current.number == parent.number && current.index == parent.index + 1 && current.length == parent.length
  }

  function VerifyEpoch(parent: Header, current: Header): (r: Outcome<EpochError>)
    ensures r.Pass? <==> IsWellFormed(current.epoch) && IsSuccessorOf(current.epoch, parent.epoch)
    ensures r == Fail(Malformed(current.epoch)) <==> !IsWellFormed(current.epoch)
    ensures r == Fail(NonContinuous(current.epoch, parent.epoch))
            <==> IsWellFormed(current.epoch) && !IsSuccessorOf(current.epoch, parent.epoch)
  {
    if !IsWellFormed(current.epoch) then
      Fail(Malformed(current.epoch))
    else if !IsSuccessorOf(current.epoch, parent.epoch) then
      Fail(NonContinuous(current.epoch, parent.epoch))
    else
      Pass
  }

  /**
   * Reference definition of the epoch of the next block: the next index of the
   * same epoch while there is one, else index 0 of the next epoch, whose length
   * is chosen outside the verifier.
   */
  function NextEpoch(parent: EpochNumberWithFraction, nextLength: u64): (e: EpochNumberWithFraction)
    requires IsWellFormed(parent) && parent.number < U64_MAX
    ensures Before(parent, e)
  {
    if parent.index + 1 < parent.length then
      EpochNumberWithFraction(parent.number, parent.index + 1, parent.length)
    else
      EpochNumberWithFraction(parent.number + 1, 0, nextLength)
  }

  /** After a well-formed parent, EpochVerifier accepts exactly the reference next epoch (for a positive next length). */
  lemma EpochAcceptsExactlyNext(parent: Header, current: Header)
    requires IsWellFormed(parent.epoch) && parent.epoch.number < U64_MAX
    ensures VerifyEpoch(parent, current).Pass?
            <==> current.epoch.length > 0 && current.epoch == NextEpoch(parent.epoch, current.epoch.length)
  {
  }

  /** Nothing is accepted after a parent whose own epoch field is malformed. */
  lemma EpochRejectsAfterMalformedParent(parent: Header, current: Header)
    requires !IsWellFormed(parent.epoch)
    ensures VerifyEpoch(parent, current).Fail?
  {
  }

  /** The verdict depends on the two epoch fields only, not on block numbers or any other field. */
  lemma EpochIgnoresOtherFields(parent: Header, current: Header, parent': Header, current': Header)
    requires parent.epoch == parent'.epoch && current.epoch == current'.epoch
    ensures VerifyEpoch(parent, current) == VerifyEpoch(parent', current')
  {
  }

  /** Position order: (epoch number, index) lexicographically. */
  predicate Before(a: EpochNumberWithFraction, b: EpochNumberWithFraction) {
    a.number < b.number || (a.number == b.number && a.index < b.index)
  }

  ghost predicate EpochLinked(parent: Header, current: Header) {
    VerifyEpoch(parent, current).Pass?
  }

  /**
   * Along a chain of headers each accepted after the previous one, the epoch
   * position strictly increases and the epoch number rises by at most one per block.
   */
  lemma {:induction false} EpochChainAdvances(hs: seq<Header>)
    requires forall k :: 0 < k < |hs| ==> EpochLinked(hs[k - 1], hs[k])
    ensures forall k :: 0 <= k < |hs| ==> hs[0].epoch.number <= hs[k].epoch.number <= hs[0].epoch.number + k
    ensures forall j, k :: 0 <= j < k < |hs| ==> Before(hs[j].epoch, hs[k].epoch)
  {
    if |hs| > 1 {
      var n := |hs| - 1;
      var init := hs[..n];
      assert forall k :: 0 < k < |init| ==> EpochLinked(init[k - 1], init[k]) by {
        forall k | 0 < k < |init| ensures EpochLinked(init[k - 1], init[k]) {
          assert init[k - 1] == hs[k - 1] && init[k] == hs[k];
        }
      }
      EpochChainAdvances(init);
      assert EpochLinked(hs[n - 1], hs[n]);
      assert Before(hs[n - 1].epoch, hs[n].epoch);
      forall k | 0 <= k < |hs|
        ensures hs[0].epoch.number <= hs[k].epoch.number <= hs[0].epoch.number + k
      {
        if k < n {
          assert hs[k] == init[k];
        } else {
          assert hs[n - 1] == init[n - 1];
        }
      }
      forall j, k | 0 <= j < k < |hs| ensures Before(hs[j].epoch, hs[k].epoch) {
        assert hs[j] == init[j];
        if k < n {
          assert hs[k] == init[k];
        } else if j < n - 1 {
          assert hs[n - 1] == init[n - 1];
          assert Before(init[j].epoch, init[n - 1].epoch);
        }
      }
    }
  }

  function Epoch(number: u64, index: u64, length: u64): EpochNumberWithFraction {
    EpochNumberWithFraction(number, index, length)
  }

  /** test_epoch, first block: malformed fields are rejected whatever the parent. */
  lemma EpochMalformedVectors(parent: Header)
    ensures VerifyEpoch(parent, DefaultHeader.(epoch := Epoch(1, 0, 0))) == Fail(Malformed(Epoch(1, 0, 0)))
    ensures VerifyEpoch(parent, DefaultHeader.(epoch := Epoch(1, 10, 0))) == Fail(Malformed(Epoch(1, 10, 0)))
    ensures VerifyEpoch(parent, DefaultHeader.(epoch := Epoch(1, 10, 5))) == Fail(Malformed(Epoch(1, 10, 5)))
    ensures VerifyEpoch(parent, DefaultHeader.(epoch := Epoch(1, 10, 10))) == Fail(Malformed(Epoch(1, 10, 10)))
  {
  }

  function EpochParent(e: EpochNumberWithFraction): Header {
    DefaultHeader.(number := 1, epoch := e)
  }

  function EpochCurrent(e: EpochNumberWithFraction): Header {
    DefaultHeader.(epoch := e)
  }

  function EpochResult(p: EpochNumberWithFraction, c: EpochNumberWithFraction): Outcome<EpochError> {
    VerifyEpoch(EpochParent(p), EpochCurrent(c))
  }

  /** test_epoch, second block: seven discontinuous pairs (parent, current). */
  lemma EpochNonContinuousVectors()
    ensures EpochResult(Epoch(1, 5, 10), Epoch(1, 5, 10)) == Fail(NonContinuous(Epoch(1, 5, 10), Epoch(1, 5, 10)))
    ensures EpochResult(Epoch(1, 5, 10), Epoch(1, 5, 11)) == Fail(NonContinuous(Epoch(1, 5, 11), Epoch(1, 5, 10)))
    ensures EpochResult(Epoch(1, 5, 10), Epoch(2, 5, 10)) == Fail(NonContinuous(Epoch(2, 5, 10), Epoch(1, 5, 10)))
    ensures EpochResult(Epoch(1, 5, 10), Epoch(1, 6, 11)) == Fail(NonContinuous(Epoch(1, 6, 11), Epoch(1, 5, 10)))
    ensures EpochResult(Epoch(1, 5, 10), Epoch(2, 6, 10)) == Fail(NonContinuous(Epoch(2, 6, 10), Epoch(1, 5, 10)))
    ensures EpochResult(Epoch(1, 9, 10), Epoch(2, 1, 10)) == Fail(NonContinuous(Epoch(2, 1, 10), Epoch(1, 9, 10)))
    ensures EpochResult(Epoch(1, 9, 10), Epoch(3, 0, 10)) == Fail(NonContinuous(Epoch(3, 0, 10), Epoch(1, 9, 10)))
  {
  }

  /** test_epoch, third block: a same-epoch step and two rollovers are accepted. */
  lemma EpochContinuousVectors()
    ensures EpochResult(Epoch(1, 5, 10), Epoch(1, 6, 10)) == Pass
    ensures EpochResult(Epoch(1, 9, 10), Epoch(2, 0, 10)) == Pass
    ensures EpochResult(Epoch(1, 9, 10), Epoch(2, 0, 11)) == Pass
  {
  }

  // ---------------------------------------------------------------------------
  // TimestampVerifier

  /**
   * `medianTime` is the median timestamp of the ancestor window before the
   * header and `now` the local clock, both in milliseconds; `now` plus the
   * tolerance must fit in a u64.
   */
  function VerifyTimestamp(header: Header, medianTime: u64, now: u64): (r: Outcome<TimestampError>)
    requires now <= U64_MAX - ALLOWED_FUTURE_BLOCKTIME
    ensures r.Pass? <==> medianTime <= header.timestamp <= now + ALLOWED_FUTURE_BLOCKTIME
    ensures header.timestamp < medianTime ==> r == Fail(BlockTimeTooOld(medianTime, header.timestamp))
    ensures medianTime <= header.timestamp && header.timestamp > now + ALLOWED_FUTURE_BLOCKTIME
            ==> r == Fail(BlockTimeTooNew(now + ALLOWED_FUTURE_BLOCKTIME, header.timestamp))
  {
    var min := medianTime;
    var max := now + ALLOWED_FUTURE_BLOCKTIME;
    if header.timestamp < min then
      Fail(BlockTimeTooOld(min, header.timestamp))
    else if header.timestamp > max then
      Fail(BlockTimeTooNew(max, header.timestamp))
    else
      Pass
  }

  function CountBelow(ts: seq<u64>, m: u64): (c: nat)
    ensures c <= |ts|
  {
    if ts == [] then 0 else (if ts[0] < m then 1 else 0) + CountBelow(ts[1..], m)
  }

  function CountAbove(ts: seq<u64>, m: u64): (c: nat)
    ensures c <= |ts|
  {
    if ts == [] then 0 else (if ts[0] > m then 1 else 0) + CountAbove(ts[1..], m)
  }

  /** `m` is a median of `ts`: one of its values, with at most half of them below it and at most half above. */
  ghost predicate IsMedianOf(m: u64, ts: seq<u64>) {
    m in ts && 2 * CountBelow(ts, m) <= |ts| && 2 * CountAbove(ts, m) <= |ts|
  }

  lemma {:induction false} ConstantCounts(ts: seq<u64>, c: u64)
    requires forall i :: 0 <= i < |ts| ==> ts[i] == c
    ensures CountBelow(ts, c) == 0 && CountAbove(ts, c) == 0
  {
    if ts != [] {
      ConstantCounts(ts[1..], c);
    }
  }

  /** The mock chain context of the tests: a window of equal timestamps has that timestamp as its only median. */
  lemma {:induction false} ConstantWindowMedian(ts: seq<u64>, c: u64, m: u64)
    requires |ts| > 0
    requires forall i :: 0 <= i < |ts| ==> ts[i] == c
    ensures IsMedianOf(m, ts) <==> m == c
  {
    ConstantCounts(ts, c);
    assert ts[0] == c;
  }

  /** test_timestamp: one millisecond after the median, with the median equal to the clock. */
  lemma TimestampVector(now: u64)
    requires now <= U64_MAX - ALLOWED_FUTURE_BLOCKTIME
    ensures VerifyTimestamp(DefaultHeader.(number := 100, timestamp := now + 1), now, now) == Pass
  {
  }

  /** test_timestamp_too_old: one millisecond before the median. */
  lemma TimestampTooOldVector(now: u64)
    requires 1 <= now <= U64_MAX - ALLOWED_FUTURE_BLOCKTIME
    ensures VerifyTimestamp(DefaultHeader.(number := 100, timestamp := now - 1), now, now)
            == Fail(BlockTimeTooOld(now, now - 1))
  {
  }

  /** test_timestamp_too_new: one millisecond past the future bound. */
  lemma TimestampTooNewVector(now: u64)
    requires now < U64_MAX - ALLOWED_FUTURE_BLOCKTIME
    ensures VerifyTimestamp(DefaultHeader.(number := 100, timestamp := now + ALLOWED_FUTURE_BLOCKTIME + 1), now, now)
            == Fail(BlockTimeTooNew(now + ALLOWED_FUTURE_BLOCKTIME, now + ALLOWED_FUTURE_BLOCKTIME + 1))
  {
  }

  // ---------------------------------------------------------------------------
  // PowVerifier

  /** `engine` stands for the proof-of-work engine's verify operation. */
  function VerifyPow(header: Header, engine: Header -> bool): (r: Outcome<PowError>)
    ensures r.Pass? <==> engine(header)
    ensures r.Fail? ==> r.error == InvalidNonce
  {
    if !engine(header) then Fail(InvalidNonce) else Pass
  }

  /** test_pow_verifier: an engine that rejects everything makes every header fail with InvalidNonce. */
  lemma PowVector(header: Header)
    ensures VerifyPow(header, _ => false) == Fail(InvalidNonce)
  {
  }
}
