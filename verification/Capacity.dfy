/** Capacity normalisation: the size a volume is created with, from the size asked for.
    Sizes are 64-bit signed integers; additions and products wrap and division
    truncates, as they do in the source. */
module Capacity {
  import opened Common

  const GIB: int := 0x4000_0000
  const TWO_63: int := 0x8000_0000_0000_0000
  const MINIMUM_VOLUME_SIZE: int := 10 * GIB
  const MINIMUM_SDP_VOLUME_SIZE: int := GIB
  const SDP_PROFILE := "sdp"

  /** The largest request that rounds up without leaving 64 bits. */
  const LARGEST_EXACT: int := TWO_63 - GIB

  type int64 = x: int | -TWO_63 <= x < TWO_63

  function Wrap64(x: int): int64 {
    (x + TWO_63) % (2 * TWO_63) - TWO_63
  }

  function TruncatedDiv(a: int, b: int): int
    requires b > 0
  {
    if a >= 0 then a / b else -((-a) / b)
  }

  function RoundUpBytes(bytes: int64): int64 {
    Wrap64(TruncatedDiv(Wrap64(bytes + GIB - 1), GIB) * GIB)
  }

  function BytesToGiB(bytes: int64): int64 {
    Wrap64(TruncatedDiv(bytes, GIB))
  }

  function GiBToBytes(gib: int64): int64 {
    Wrap64(gib * GIB)
  }

  datatype CapacityRange = CapacityRange(required: int64, limit: int64)

  datatype CapacityError = LimitBelowRequired | LimitBelowMinimum

  /** The normalised capacity in bytes. A field that is zero or negative counts as unset. */
  function RequestedCapacity(range: Option<CapacityRange>, profile: string): Result<int64, CapacityError> {
    match range
    case None =>
      Ok(if profile == SDP_PROFILE then MINIMUM_SDP_VOLUME_SIZE else MINIMUM_VOLUME_SIZE)
    case Some(CapacityRange(required, limit)) =>
      if limit > 0 && required > 0 && limit < required then
        Err(LimitBelowRequired)
      else if 0 < limit < MINIMUM_VOLUME_SIZE then
        Err(LimitBelowMinimum)
      else
        var rounded := RoundUpBytes(if required > 0 then required else 0);
        Ok(if rounded < MINIMUM_VOLUME_SIZE && profile != SDP_PROFILE then MINIMUM_VOLUME_SIZE else rounded)
  }

  // ---- What the number means -------------------------------------------------

  /** The smallest size a profile may be created with. */
  function ProfileMinimum(profile: string): int {
    if profile == SDP_PROFILE then MINIMUM_SDP_VOLUME_SIZE else MINIMUM_VOLUME_SIZE
  }

  function Wanted(range: Option<CapacityRange>): int {
    if range.Some? && range.value.required > 0 then range.value.required else 0
  }

  /** The requests for which rounding is exact and the minimum is enforced: no
      64-bit overflow, and an sdp range that actually asks for something. */
  predicate WellPosed(range: Option<CapacityRange>, profile: string) {
    && Wanted(range) <= LARGEST_EXACT
    && (profile == SDP_PROFILE && range.Some? ==> range.value.required > 0)
  }

  /** A size the driver may hand to the provider for this request. */
  predicate Adequate(bytes: int, range: Option<CapacityRange>, profile: string) {
    && bytes % GIB == 0
    && bytes >= Wanted(range)
    && bytes >= ProfileMinimum(profile)
  }

  lemma WrapKeeps(x: int)
    requires -TWO_63 <= x < TWO_63
    ensures Wrap64(x) == x
  {
  }

  lemma CeilingBounds(bytes: int)
    ensures (bytes + GIB - 1) / GIB * GIB % GIB == 0
    ensures bytes <= (bytes + GIB - 1) / GIB * GIB < bytes + GIB
  {
    var q, r := (bytes + GIB - 1) / GIB, (bytes + GIB - 1) % GIB;
    assert bytes + GIB - 1 == q * GIB + r;
  }

  lemma RoundUpIsCeiling(bytes: int64)
    requires 0 <= bytes <= LARGEST_EXACT
    ensures RoundUpBytes(bytes) == (bytes + GIB - 1) / GIB * GIB
    ensures RoundUpBytes(bytes) % GIB == 0
    ensures bytes <= RoundUpBytes(bytes) < bytes + GIB
  {
    var ceiling := (bytes + GIB - 1) / GIB * GIB;
    CeilingBounds(bytes);
    WrapKeeps(bytes + GIB - 1);
    assert ceiling <= bytes + GIB - 1;
    WrapKeeps(ceiling);
  }

  /** Past the exact range the sum wraps and the rounded size is negative. */
  lemma RoundUpOverflows(bytes: int64)
    requires bytes > LARGEST_EXACT
    ensures RoundUpBytes(bytes) < 0
  {
    assert Wrap64(bytes + GIB - 1) == bytes + GIB - 1 - 2 * TWO_63;
  }

  /** A request is refused exactly for one of the two limit errors: a limit below the
      requested size, or else below the minimum. */
  lemma CapacityAcceptance(range: Option<CapacityRange>, profile: string)
    ensures RequestedCapacity(range, profile).Err? <==>
              (range.Some? && range.value.limit > 0
               && (range.value.limit < range.value.required || range.value.limit < MINIMUM_VOLUME_SIZE))
    ensures RequestedCapacity(range, profile) == Err(LimitBelowRequired) <==>
              range.Some? && 0 < range.value.limit < range.value.required
    ensures RequestedCapacity(range, profile) == Err(LimitBelowMinimum) <==>
              range.Some? && 0 < range.value.limit < 10 * GIB && range.value.required <= range.value.limit
  {
  }

  /** The result is adequate, and no adequate size is smaller. */
  lemma CapacityIsLeastAdequate(range: Option<CapacityRange>, profile: string)
    requires RequestedCapacity(range, profile).Ok?
    requires WellPosed(range, profile)
    ensures Adequate(RequestedCapacity(range, profile).value, range, profile)
    ensures forall other: int {:trigger Adequate(other, range, profile)} ::
              Adequate(other, range, profile) ==> RequestedCapacity(range, profile).value <= other
  {
    RequestedIsAdequate(range, profile);
    if range.Some? {
      RequestedCapacityExact(range.value, profile);
      forall other: int {:trigger Adequate(other, range, profile)} | Adequate(other, range, profile)
        ensures RequestedCapacity(range, profile).value <= other
      {
        CeilingIsLeast(Wanted(range), other);
      }
    }
  }

  lemma RequestedIsAdequate(range: Option<CapacityRange>, profile: string)
    requires RequestedCapacity(range, profile).Ok? && WellPosed(range, profile)
    ensures Adequate(RequestedCapacity(range, profile).value, range, profile)
  {
    if range.Some? {
      RequestedCapacityExact(range.value, profile);
      CeilingBounds(Wanted(range));
    }
  }

  lemma CeilingIsLeast(bytes: int, other: int)
    requires other % GIB == 0 && other >= bytes
    ensures (bytes + GIB - 1) / GIB * GIB <= other
  {
    CeilingBounds(bytes);
    var k, q := other / GIB, (bytes + GIB - 1) / GIB;
    assert other == k * GIB && q <= k;
  }

  /** Being well posed is exactly what makes an accepted request come out adequate:
      an overflowing size shrinks to the minimum (or goes negative for sdp), and an
      sdp range without a required size normalises to zero bytes. */
  lemma AdequateExactlyWhenWellPosed(range: Option<CapacityRange>, profile: string)
    requires RequestedCapacity(range, profile).Ok?
    ensures Adequate(RequestedCapacity(range, profile).value, range, profile) <==> WellPosed(range, profile)
  {
    if WellPosed(range, profile) {
      CapacityIsLeastAdequate(range, profile);
    } else if Wanted(range) > LARGEST_EXACT {
      RoundUpOverflows(range.value.required);
    } else {
      RoundUpIsCeiling(0);
    }
  }

  lemma OverflowingRequestShrinks()
    ensures RequestedCapacity(Some(CapacityRange(TWO_63 - 1, 0)), "custom") == Ok(MINIMUM_VOLUME_SIZE)
  {
    RoundUpOverflows(TWO_63 - 1);
  }

  lemma SdpRangeWithoutRequiredIsEmpty()
    ensures RequestedCapacity(Some(CapacityRange(0, 20 * GIB)), SDP_PROFILE) == Ok(0)
  {
    RoundUpIsCeiling(0);
  }

  /** What normalisation computes on the exact range, without wrap-around. */
  lemma RequestedCapacityExact(range: CapacityRange, profile: string)
    requires range.required <= LARGEST_EXACT
    requires RequestedCapacity(Some(range), profile).Ok?
    ensures var ceiling := (Wanted(Some(range)) + GIB - 1) / GIB * GIB;
            RequestedCapacity(Some(range), profile).value
            == if ceiling < MINIMUM_VOLUME_SIZE && profile != SDP_PROFILE then MINIMUM_VOLUME_SIZE else ceiling
  {
    RoundUpIsCeiling(Wanted(Some(range)));
  }

  lemma CeilingAgainstLimit(wanted: int, limit: int)
    requires wanted <= limit
    ensures (wanted + GIB - 1) / GIB * GIB < limit + GIB
    ensures (wanted + GIB - 1) / GIB * GIB > limit <==> wanted > limit / GIB * GIB
  {
    if wanted > limit / GIB * GIB {
      assert (wanted + GIB - 1) / GIB == limit / GIB + 1;
    }
  }

  /** The limit can be exceeded, but never by a whole GiB; it is exceeded exactly when
      it is not reached by rounding, which an aligned limit rules out. */
  lemma CapacityAgainstLimit(range: CapacityRange, profile: string)
    requires range.limit > 0 && range.required <= LARGEST_EXACT
    requires RequestedCapacity(Some(range), profile).Ok?
    ensures RequestedCapacity(Some(range), profile).value < range.limit + GIB
    ensures RequestedCapacity(Some(range), profile).value > range.limit
            <==> range.required > range.limit / GIB * GIB
    ensures range.limit % GIB == 0 ==> RequestedCapacity(Some(range), profile).value <= range.limit
  {
    RequestedCapacityExact(range, profile);
    CeilingAgainstLimit(Wanted(Some(range)), range.limit);
  }

  /** Concretely: a limit one byte above ten GiB, asked for in full, is exceeded. */
  lemma UnalignedLimitIsExceeded()
    ensures RequestedCapacity(Some(CapacityRange(10 * GIB + 1, 10 * GIB + 1)), "custom") == Ok(11 * GIB)
  {
    RequestedCapacityExact(CapacityRange(10 * GIB + 1, 10 * GIB + 1), "custom");
  }

  lemma CeilingMonotone(a: int, b: int)
    requires a <= b
    ensures (a + GIB - 1) / GIB * GIB <= (b + GIB - 1) / GIB * GIB
  {
  }

  lemma CapacityMonotone(low: CapacityRange, high: CapacityRange, profile: string)
    requires low.required <= high.required <= LARGEST_EXACT
    requires RequestedCapacity(Some(low), profile).Ok? && RequestedCapacity(Some(high), profile).Ok?
    ensures RequestedCapacity(Some(low), profile).value <= RequestedCapacity(Some(high), profile).value
  {
    RequestedCapacityExact(low, profile);
    RequestedCapacityExact(high, profile);
    CeilingMonotone(Wanted(Some(low)), Wanted(Some(high)));
  }

  lemma MultipleSurvivesGiB(bytes: int64)
    requires 0 <= bytes && bytes % GIB == 0
    ensures GiBToBytes(BytesToGiB(bytes)) == bytes
    ensures BytesToGiB(bytes) == bytes / GIB
  {
    assert bytes == bytes / GIB * GIB;
    WrapKeeps(bytes / GIB);
    WrapKeeps(bytes / GIB * GIB);
  }

  /** Asking again for the size that was granted grants it again, and the size
      survives the trip through GiB that the provider call makes. */
  lemma CapacityFixpoint(range: Option<CapacityRange>, profile: string, limit: int64)
    requires RequestedCapacity(range, profile).Ok?
    requires WellPosed(range, profile)
    requires limit > 0 ==> RequestedCapacity(range, profile).value <= limit && limit >= MINIMUM_VOLUME_SIZE
    ensures RequestedCapacity(Some(CapacityRange(RequestedCapacity(range, profile).value, limit)), profile)
            == RequestedCapacity(range, profile)
    ensures GiBToBytes(BytesToGiB(RequestedCapacity(range, profile).value)) == RequestedCapacity(range, profile).value
    ensures BytesToGiB(RequestedCapacity(range, profile).value) >= 1
  {
    var granted := RequestedCapacity(range, profile).value;
    CapacityIsLeastAdequate(range, profile);
    MultipleSurvivesGiB(granted);
    MultipleIsItsCeiling(granted);
    RequestedCapacityExact(CapacityRange(granted, limit), profile);
  }

  lemma MultipleIsItsCeiling(bytes: int64)
    requires bytes >= GIB && bytes % GIB == 0
    ensures (bytes + GIB - 1) / GIB * GIB == bytes
    ensures bytes <= LARGEST_EXACT && bytes / GIB >= 1
  {
    CeilingBounds(bytes);
    CeilingIsLeast(bytes, bytes);
    assert bytes == bytes / GIB * GIB;
  }
}
