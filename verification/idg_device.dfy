/**
 * IDGPowerPerDevice: one GPU's power, frequency and temperature handles, the
 * power-limit feature flag decided at construction, and the per-domain
 * (energy, timestamp) window that average-power sampling overwrites in place.
 */
module IdgDevice {
  import opened CTypes
  import opened LevelZero
  import opened PowerLimits

  /**
   * The index `getpwrh`, `getfreqh` and `gettemph` use. The source compares the
   * `int` id against a `uint32_t` count, so a negative id converts to a value
   * of at least 2^31 and is replaced by 0 like any id past the end.
   */
  function ClampIndex(id: Int32, count: nat): (i: nat)
    requires 0 < count <= TWO_31
    ensures i < count
    ensures i == (if 0 <= id < count then id else 0)
  {
    if IntToU32(id) >= count then 0 else id
  }

  /**
   * The value `sampleenergy` returns, in watts (microjoules per microsecond):
   * both deltas are `uint64_t` subtractions, converted to `double` only after
   * wrapping, and the division happens only for a positive time delta.
   */
  function AverageWatts(prevEnergyUj: Uint64, prevTsUs: Uint64, c: EnergyCounter): (watt: real)
    ensures watt >= 0.0
    ensures c.timestamp == prevTsUs ==> watt == 0.0
  {
    var deltaUs := SubU64(c.timestamp, prevTsUs) as real;
    var deltaUj := SubU64(c.energy, prevEnergyUj) as real;
    if deltaUs > 0.0 then deltaUj / deltaUs else 0.0
  }

  /**
   * A timestamp that went backwards does not give 0: the wrapped delta makes
   * the divisor `now - prev + 2^64`.
   */
  lemma BackwardsTimestampWraps(prevEnergyUj: Uint64, prevTsUs: Uint64, c: EnergyCounter)
    requires c.timestamp < prevTsUs
    ensures AverageWatts(prevEnergyUj, prevTsUs, c)
         == SubU64(c.energy, prevEnergyUj) as real / (c.timestamp - prevTsUs + TWO_64) as real
    ensures c.timestamp - prevTsUs + TWO_64 > 0
  {
  }

  /**
   * The wrapped deltas recover what happened between two readings: `used`
   * microjoules consumed over `elapsed > 0` microseconds, across at most one
   * wrap of the energy counter, average to `used / elapsed` watts.
   */
  lemma AverageOfWrappedCounter(prevEnergyUj: Uint64, prevTsUs: Uint64, used: nat, elapsed: nat, c: EnergyCounter)
    requires used < TWO_64 && 0 < elapsed && prevTsUs + elapsed < TWO_64
    requires c.energy == (prevEnergyUj + used) % TWO_64 && c.timestamp == prevTsUs + elapsed
    ensures AverageWatts(prevEnergyUj, prevTsUs, c) == used as real / elapsed as real
  {
    if prevEnergyUj + used < TWO_64 {
      assert c.energy == prevEnergyUj + used;
    } else {
      assert c.energy == prevEnergyUj + used - TWO_64;
    }
    assert SubU64(c.energy, prevEnergyUj) == used;
  }

  /**
   * Whether the constructor enables power-limit control. Only power domain 0 is
   * looked at: its properties must report `canControl > 0`, the limit query must
   * succeed, and a SUSTAINED level must sit among the first min(pCount, 10)
   * slots of the stack buffer. That query passes a count of 0, so the backend
   * only reports pCount and never fills the buffer: the slots scanned are
   * whatever the stack held. Without power domains the flag is never assigned.
   */
  predicate PowerLimitDetected(d: DeviceDesc, zes: Sysman)
    requires DeviceDescOk(d)
    ensures |d.pwrHandles| == 0 ==> (PowerLimitDetected(d, zes) <==> d.unsetFlag)
    ensures |d.pwrHandles| > 0 && PropsOrZero(zes.powerProps(d.pwrHandles[0])).canControl <= 0 ==> !PowerLimitDetected(d, zes)
    ensures |d.pwrHandles| > 0 && zes.powerLimits(d.pwrHandles[0]).Failed? ==> !PowerLimitDetected(d, zes)
  {
    if |d.pwrHandles| == 0 then d.unsetFlag
    else
      var h := d.pwrHandles[0];
      && PropsOrZero(zes.powerProps(h)).canControl > 0
      && zes.powerLimits(h).Ok?
      && SomeSustained(d.stackDescs, ClampCount(|zes.powerLimits(h).value|))
  }

  class Device {
    const devid: Int32
    const isGpu: bool
    const npwrdoms: nat
    const nfreqdoms: nat
    const ntempsensors: nat
    const pwrhs: seq<PwrHandle>
    const freqhs: seq<FreqHandle>
    const temphs: seq<TempHandle>
    // the window `sampleenergy` reads and overwrites
    var prevEnergyUj: seq<Uint64>
    var prevTsUs: seq<Uint64>
    var enabledPowerlimit: bool

    /** The handle vectors match their counts, which fit an `int`. */
    predicate Shape() {
      && |pwrhs| == npwrdoms < TWO_31
      && |freqhs| == nfreqdoms < TWO_31
      && |temphs| == ntempsensors < TWO_31
    }

    ghost predicate Valid()
      reads this
    {
      Shape() && |prevEnergyUj| == npwrdoms && |prevTsUs| == npwrdoms
    }

    /** This device is the one the constructor builds from `d` at index `id`. */
    ghost predicate Mirrors(d: DeviceDesc, id: int, zes: Sysman)
      reads this
      requires DeviceDescOk(d)
    {
      && devid == id && isGpu == d.isGpu
      && pwrhs == d.pwrHandles && freqhs == d.freqHandles && temphs == d.tempHandles
      && |prevEnergyUj| == |prevTsUs| == |pwrhs|
      && (forall i :: 0 <= i < |pwrhs| ==>
            prevEnergyUj[i] == zes.energyCounter(pwrhs[i]).energy && prevTsUs[i] == zes.energyCounter(pwrhs[i]).timestamp)
      && enabledPowerlimit == PowerLimitDetected(d, zes)
    }

    /** Every field of this device equals that of `other`. */
    ghost predicate SameAs(other: Device)
      reads this, other
    {
      && devid == other.devid && isGpu == other.isGpu
      && npwrdoms == other.npwrdoms && nfreqdoms == other.nfreqdoms && ntempsensors == other.ntempsensors
      && pwrhs == other.pwrhs && freqhs == other.freqhs && temphs == other.temphs
      && prevEnergyUj == other.prevEnergyUj && prevTsUs == other.prevTsUs
      && enabledPowerlimit == other.enabledPowerlimit
    }

    /**
     * IDGPowerPerDevice(dev, devid): takes the enumerated handles, seeds the
     * window of every power domain with one sample, then decides whether
     * power-limit control is available.
     */
    constructor (d: DeviceDesc, id: Int32, zes: Sysman)
      requires DeviceDescOk(d)
      ensures Valid() && Mirrors(d, id, zes)
    {
      devid := id;
      isGpu := d.isGpu;
      pwrhs, npwrdoms := d.pwrHandles, |d.pwrHandles|;
      freqhs, nfreqdoms := d.freqHandles, |d.freqHandles|;
      temphs, ntempsensors := d.tempHandles, |d.tempHandles|;
      // `resize` zero-fills the window
      prevEnergyUj := seq(|d.pwrHandles|, _ => 0);
      prevTsUs := seq(|d.pwrHandles|, _ => 0);
      // the member keeps its indeterminate value unless the block below runs
      enabledPowerlimit := d.unsetFlag;
      new;
      if npwrdoms > 0 {
        var i := 0;
        while i < npwrdoms
          invariant 0 <= i <= npwrdoms && Valid()
          invariant enabledPowerlimit == d.unsetFlag
          invariant forall k :: 0 <= k < i ==>
            prevEnergyUj[k] == zes.energyCounter(pwrhs[k]).energy && prevTsUs[k] == zes.energyCounter(pwrhs[k]).timestamp
        {
          var _, _ := SampleEnergy(i, zes);
          i := i + 1;
        }
        var pwrh := GetPwrh(0);  // only the first domain is checked
        var pprop := PropsOrZero(zes.powerProps(pwrh));
        enabledPowerlimit := false;
        if pprop.canControl > 0 {
          var reply := zes.powerLimits(pwrh);
          // the stack buffer, which the count-only query leaves as it was
          var pSustained := new LimitDesc[MaxPCount](j requires 0 <= j < MaxPCount => d.stackDescs[j]);
          assert pSustained[..] == d.stackDescs;
          if reply.Ok? {
            var pCount := ClampCount(|reply.value|);
            enabledPowerlimit := AnySustained(pSustained, pCount);
          }
          // else: "PowerLimit is unavailable", the feature stays disabled
        }
      }
    }

    /** The by-value copy `getIDGPowerPerDevice` returns. */
    constructor Copy(src: Device)
      requires src.Valid()
      ensures Valid() && SameAs(src)
    {
      devid, isGpu := src.devid, src.isGpu;
      npwrdoms, nfreqdoms, ntempsensors := src.npwrdoms, src.nfreqdoms, src.ntempsensors;
      pwrhs, freqhs, temphs := src.pwrhs, src.freqhs, src.temphs;
      prevEnergyUj, prevTsUs := src.prevEnergyUj, src.prevTsUs;
      enabledPowerlimit := src.enabledPowerlimit;
    }

    /** getpwrh: the handle at `id`, or at 0 when `id` is out of range; needs a power domain. */
    function GetPwrh(id: Int32): (h: PwrHandle)
      requires Shape() && npwrdoms > 0
      ensures h == pwrhs[if 0 <= id < npwrdoms then id else 0]
    {
      pwrhs[ClampIndex(id, npwrdoms)]
    }

    /** getfreqh */
    function GetFreqh(id: Int32): (h: FreqHandle)
      requires Shape() && nfreqdoms > 0
      ensures h == freqhs[if 0 <= id < nfreqdoms then id else 0]
    {
      freqhs[ClampIndex(id, nfreqdoms)]
    }

    /** gettemph */
    function GetTemph(id: Int32): (h: TempHandle)
      requires Shape() && ntempsensors > 0
      ensures h == temphs[if 0 <= id < ntempsensors then id else 0]
    {
      temphs[ClampIndex(id, ntempsensors)]
    }

    /**
     * sampleenergy: reads the counter of domain `pwrid`, returns the average
     * power since the window, and moves the window of that domain, and only
     * that one, to the new reading. The handle index is clamped but the window
     * index is not, hence the range requirement.
     */
    method SampleEnergy(pwrid: Int32, zes: Sysman) returns (watt: real, ecounter: EnergyCounter)
      requires Valid() && 0 <= pwrid < npwrdoms
      modifies this`prevEnergyUj, this`prevTsUs
      ensures Valid()
      ensures ecounter == zes.energyCounter(pwrhs[pwrid])
      ensures watt == AverageWatts(old(prevEnergyUj[pwrid]), old(prevTsUs[pwrid]), zes.energyCounter(pwrhs[pwrid]))
      ensures prevEnergyUj == old(prevEnergyUj)[pwrid := zes.energyCounter(pwrhs[pwrid]).energy]
      ensures prevTsUs == old(prevTsUs)[pwrid := zes.energyCounter(pwrhs[pwrid]).timestamp]
    {
      watt := 0.0;
      var pwrh := GetPwrh(pwrid);
      ecounter := zes.energyCounter(pwrh);
      var deltaUs := SubU64(ecounter.timestamp, prevTsUs[pwrid]) as real;
      var deltaUj := SubU64(ecounter.energy, prevEnergyUj[pwrid]) as real;
      if deltaUs > 0.0 {
        watt := deltaUj / deltaUs;
      }
      prevEnergyUj := prevEnergyUj[pwrid := ecounter.energy];
      prevTsUs := prevTsUs[pwrid := ecounter.timestamp];
    }
  }

  /**
   * The constructor's detection reads the stack buffer, not the backend's
   * descriptors: a backend whose only descriptor is SUSTAINED still leaves the
   * feature disabled when the stale slots hold no SUSTAINED level.
   */
  lemma DetectionIgnoresBackendDescriptors(d: DeviceDesc, zes: Sysman, sustained: LimitDesc)
    requires DeviceDescOk(d) && |d.pwrHandles| > 0 && IsSustained(sustained)
    requires forall j :: 0 <= j < |d.stackDescs| ==> !IsSustained(d.stackDescs[j])
    requires zes.powerLimits(d.pwrHandles[0]) == Ok([sustained])
    ensures !PowerLimitDetected(d, zes)
  {
    assert ClampCount(1) == 1;
  }
}
