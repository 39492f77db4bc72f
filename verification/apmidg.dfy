/**
 * The C facade of libapmidg: a process-wide `IDGPower` singleton created by
 * `apmidg_init` and dropped by `apmidg_finish`, and the `apmidg_*` accessors,
 * each of which first writes its "unavailable" sentinel (-1, -1.0 or
 * UINT64_MAX) to every non-null output, returns there when the library is not
 * initialised, and otherwise works on a copy of the selected device.
 *
 * An output pointer is modelled by a `bool` (non-null) going in and an
 * `Option` coming out: `None` for a null pointer, `Some(v)` for the value
 * written through it.
 */
module Apmidg {
  import opened CTypes
  import opened Wrappers
  import opened LevelZero
  import opened ZeStrings
  import opened PowerLimits
  import opened IdgDevice
  import opened IdgPower

  /** Which output pointers of `apmidg_getpwrprops` are non-null. */
  datatype PwrPropsPtrs = PwrPropsPtrs(onsubdev: bool, subdevid: bool, canctrl: bool,
                                       deflim: bool, minlim: bool, maxlim: bool)

  /** Which output pointers of `apmidg_getfreqprops` are non-null. */
  datatype FreqPropsPtrs = FreqPropsPtrs(onsubdev: bool, subdevid: bool, canctrl: bool, min: bool, max: bool)

  /** Which output pointers of `apmidg_gettempprops` are non-null. */
  datatype TempPropsPtrs = TempPropsPtrs(onsubdev: bool, subdevid: bool, sensorType: bool)

  /** A `zesPowerSetLimitsExt` call: the handle and the descriptors passed. */
  datatype LimitsWrite = LimitsWrite(handle: PwrHandle, descs: seq<LimitDesc>)

  /** A `zesFrequencySetRange` call: the handle and the range passed. */
  datatype RangeWrite = RangeWrite(handle: FreqHandle, range: FreqRange)

  /**
   * The workaround limit in mW: `stoi` of power1_max_default divided by 1000
   * with C truncation, or -1 when the file cannot be opened (`None`).
   */
  function WorkaroundMaxLimit(maxDefaultUw: Option<Int32>): (mw: int)
    ensures maxDefaultUw.None? ==> mw == -1
    ensures maxDefaultUw.Some? && maxDefaultUw.value >= 0 ==> mw * 1000 <= maxDefaultUw.value < mw * 1000 + 1000
    ensures maxDefaultUw.Some? && maxDefaultUw.value < 0 ==> mw * 1000 - 1000 < maxDefaultUw.value <= mw * 1000
  {
    if maxDefaultUw.Some? then CDiv(maxDefaultUw.value, 1000) else -1
  }

  /**
   * The guard of the default-limit workaround. Its first test compares the
   * `canctrl` pointer, not the value read through it, with 0: it holds
   * whenever the caller passed a canctrl pointer, whatever canControl is. It
   * fires exactly for a -1 default, a canctrl pointer and a file value of at
   * least 1000 uW.
   */
  predicate WorkaroundApplies(canctrlPtr: bool, p: PowerProps, maxDefaultUw: Option<Int32>)
    ensures WorkaroundApplies(canctrlPtr, p, maxDefaultUw)
        <==> canctrlPtr && p.defaultLimit == -1 && maxDefaultUw.Some? && maxDefaultUw.value >= 1000
  {
    canctrlPtr && p.defaultLimit == -1 && WorkaroundMaxLimit(maxDefaultUw) > 0
  }

  /** The descriptors a `zesPowerGetLimitsExt` reply copies out; a failed call copies none. */
  function Descriptors(r: Reply<seq<LimitDesc>>): (ds: seq<LimitDesc>)
    ensures r.Failed? ==> ds == []
  {
    if r.Ok? then r.value else []
  }

  /**
   * A power-limit call on `dev` is defined: with the feature enabled, the
   * device has a power domain and the backend's descriptors fit the 10-slot
   * stack buffer they are copied into.
   */
  ghost predicate LimitCallDefined(dev: Device, pwrid: Int32, zes: Sysman)
    reads dev
  {
    && dev.Shape()
    && (dev.enabledPowerlimit ==> dev.npwrdoms > 0 && |Descriptors(zes.powerLimits(dev.GetPwrh(pwrid)))| <= MaxPCount)
  }

  /**
   * What `apmidg_getpwrlim` writes for a device: the limit of the last
   * SUSTAINED descriptor when that is positive, otherwise -1 (also when the
   * feature is disabled).
   */
  function SustainedLimitOf(dev: Device, pwrid: Int32, zes: Sysman): (lim: int)
    reads dev
    requires LimitCallDefined(dev, pwrid, zes)
    ensures lim == -1 || lim > 0
    ensures !dev.enabledPowerlimit ==> lim == -1
  {
    if !dev.enabledPowerlimit then -1
    else
      var q := LastSustained(Descriptors(zes.powerLimits(dev.GetPwrh(pwrid))));
      if q > 0 then q else -1
  }

  /**
   * The write `apmidg_setpwrlim` issues for a device: every SUSTAINED
   * descriptor rewritten to `limMw`, the others passed back unchanged; no
   * write when the feature is disabled or there is no SUSTAINED descriptor.
   */
  function SustainedWriteOf(dev: Device, pwrid: Int32, limMw: Int32, zes: Sysman): (w: Option<LimitsWrite>)
    reads dev
    requires LimitCallDefined(dev, pwrid, zes)
    ensures !dev.enabledPowerlimit ==> w.None?
    ensures w.Some? ==> w.value.handle == dev.GetPwrh(pwrid)
  {
    if !dev.enabledPowerlimit then None
    else
      var h := dev.GetPwrh(pwrid);
      var ds := Descriptors(zes.powerLimits(h));
      if SomeSustained(ds, |ds|) then Some(LimitsWrite(h, WithSustainedLimit(ds, |ds|, limMw))) else None
  }

  /** The backend after it stored `w`: its limit query on the written handle answers the written descriptors. */
  function StoreLimits(zes: Sysman, w: LimitsWrite): Sysman {
    zes.(powerLimits := h => if h == w.handle then Ok(w.descs) else zes.powerLimits(h))
  }

  /** The backend after it stored `w`. */
  function StoreRange(zes: Sysman, w: RangeWrite): Sysman {
    zes.(freqRange := h => if h == w.handle then w.range else zes.freqRange(h))
  }

  /**
   * Setting a sustained limit and reading it back gives the limit when it is
   * positive and -1 otherwise, provided the feature is enabled and a
   * SUSTAINED descriptor exists.
   */
  lemma SetThenGetPowerLimit(dev: Device, pwrid: Int32, limMw: Int32, zes: Sysman)
    requires LimitCallDefined(dev, pwrid, zes) && dev.enabledPowerlimit
    requires var ds := Descriptors(zes.powerLimits(dev.GetPwrh(pwrid))); SomeSustained(ds, |ds|)
    ensures SustainedWriteOf(dev, pwrid, limMw, zes).Some?
    ensures var zes' := StoreLimits(zes, SustainedWriteOf(dev, pwrid, limMw, zes).value);
      && LimitCallDefined(dev, pwrid, zes')
      && SustainedLimitOf(dev, pwrid, zes') == (if limMw > 0 then limMw else -1)
  {
    var h := dev.GetPwrh(pwrid);
    var ds := Descriptors(zes.powerLimits(h));
    var ds' := WithSustainedLimit(ds, |ds|, limMw);
    SetThenGetSustained(ds, |ds|, limMw);
    assert ds[..|ds|] == ds;
    assert ds'[..|ds|] == ds';
  }

  /** The sensor type names without their "ZES_TEMP_SENSORS_" prefix, in code order. */
  const SensorSuffixes: seq<string> := ["GLOBAL", "GPU", "MEMORY", "GLOBAL_MIN", "GPU_MIN", "MEMORY_MIN"]

  /** A proof step of SensorTypeStr: every sensor table name is the prefix followed by its suffix. */
  lemma SensorNamesPrefixed()
    ensures |ZesTempSensorStr| == |SensorSuffixes|
    ensures forall i :: 0 <= i < |SensorSuffixes| ==> ZesTempSensorStr[i].str == "ZES_TEMP_SENSORS_" + SensorSuffixes[i]
  {
  }

  /** A proof step of SensorTypeStr: sensor type `i` looks up entry `i`. */
  lemma SensorNameAt(i: int)
    requires 0 <= i < 6
    ensures NameOf(ZesTempSensorStr, i) == ZesTempSensorStr[i].str
  {
    SensorTableWellFormed();
  }

  /**
   * `apmidg_sensortype_str`: the name of a temperature sensor type with its
   * "ZES_TEMP_SENSORS_" prefix removed, or "UNKNOWN" for a type the table
   * does not hold.
   */
  method SensorTypeStr(sensorType: int) returns (s: string)
    ensures 0 <= sensorType < 6 ==> s == ["GLOBAL", "GPU", "MEMORY", "GLOBAL_MIN", "GPU_MIN", "MEMORY_MIN"][sensorType]
    ensures !(0 <= sensorType < 6) ==> s == "UNKNOWN"
  {
    var pre := "ZES_TEMP_SENSORS_";
    var typestr := StrZesTempSensors(sensorType);
    if 0 <= sensorType < 6 {
      SensorNameAt(sensorType);
      SensorNamesPrefixed();
      var suffix := SensorSuffixes[sensorType];
      assert typestr == pre + suffix;
      assert |suffix| > 0;
      assert typestr[|pre|..] == suffix;
    } else {
      SensorTableWellFormed();
      assert forall j :: 0 <= j < |ZesTempSensorStr| ==> ZesTempSensorStr[j].no != sensorType;
      assert typestr == "UNKNOWN";
      assert !(pre <= typestr);
    }
    if pre <= typestr && |typestr| > |pre| {
      s := typestr[|pre|..];
      return;
    }
    s := "UNKNOWN";
  }

  /** The library's global state: the singleton pointer and the workaround's one-time message flag. */
  class Library {
    var apmidg: IdgPower?
    var msgDisplayed: bool

    ghost predicate Valid()
      reads this, if apmidg != null then apmidg.Devices() else {}
    {
      apmidg != null ==> apmidg.Valid()
    }

    /** Process start: not initialised, no message shown. */
    constructor ()
      ensures Valid() && apmidg == null && !msgDisplayed
    {
      apmidg := null;
      msgDisplayed := false;
    }

    /**
     * apmidg_init: creates the singleton from the enumerated topology and
     * returns 0; a second call warns, returns -1 and keeps the existing one.
     */
    method Init(verbose: int, topo: Topology, zes: Sysman) returns (r: int)
      requires Valid()
      requires apmidg == null ==> TopologyOk(topo)
      modifies this`apmidg
      ensures Valid()
      ensures old(apmidg) != null ==> r == -1 && apmidg == old(apmidg)
      ensures old(apmidg) == null ==> r == 0 && apmidg != null && fresh(apmidg) && apmidg.Mirrors(topo, zes)
    {
      if apmidg != null {
        // "apmidg is already initialized"
        return -1;
      }
      apmidg := new IdgPower(topo, verbose, zes);
      if !apmidg.enabled {
        return -1;
      }
      return 0;
    }

    /** apmidg_finish: drops the singleton; calling it again is harmless. */
    method Finish()
      requires Valid()
      modifies this`apmidg
      ensures Valid() && apmidg == null
    {
      apmidg := null;
    }

    /** apmidg_getndevs: the devices of the selected driver, -1 before init. */
    function GetNDevs(): (n: int)
      reads this
      requires apmidg != null ==> apmidg.Shape()
      ensures n == -1 <==> apmidg == null
      ensures apmidg != null ==> 0 < n < TWO_31
    {
      if apmidg == null then -1 else apmidg.drvs[apmidg.drvselected].GetNDevs()
    }

    /** apmidg_getnpwrdoms: the power domains of the selected device, -1 before init. */
    function GetNPwrDoms(devid: Int32): (n: int)
      reads this
      requires apmidg != null ==> apmidg.Shape() && devid >= 0
      ensures n == -1 <==> apmidg == null
      ensures apmidg != null ==> n == |apmidg.Selected(devid).pwrhs|
    {
      if apmidg == null then -1 else apmidg.Selected(devid).npwrdoms
    }

    /** apmidg_getnfreqdoms */
    function GetNFreqDoms(devid: Int32): (n: int)
      reads this
      requires apmidg != null ==> apmidg.Shape() && devid >= 0
      ensures n == -1 <==> apmidg == null
      ensures apmidg != null ==> n == |apmidg.Selected(devid).freqhs|
    {
      if apmidg == null then -1 else apmidg.Selected(devid).nfreqdoms
    }

    /** apmidg_getntempsensors */
    function GetNTempSensors(devid: Int32): (n: int)
      reads this
      requires apmidg != null ==> apmidg.Shape() && devid >= 0
      ensures n == -1 <==> apmidg == null
      ensures apmidg != null ==> n == |apmidg.Selected(devid).temphs|
    {
      if apmidg == null then -1 else apmidg.Selected(devid).ntempsensors
    }

    /**
     * apmidg_getpwrprops: the properties of power domain `pwrid` (clamped),
     * zeros when the backend query fails, with the default limit replaced by
     * the power1_max_default value (`maxDefaultUw`, `None` when the file is
     * absent) under the workaround's guard, which also sets the message flag.
     */
    method GetPwrProps(devid: Int32, pwrid: Int32, ptrs: PwrPropsPtrs, maxDefaultUw: Option<Int32>, zes: Sysman)
      returns (onsubdev: Option<int>, subdevid: Option<int>, canctrl: Option<int>,
               deflimMw: Option<int>, minlimMw: Option<int>, maxlimMw: Option<int>)
      requires Valid()
      requires apmidg != null ==> devid >= 0 && apmidg.Selected(devid).npwrdoms > 0
      modifies this`msgDisplayed
      ensures Valid()
      ensures apmidg == null ==>
        && onsubdev == Out(ptrs.onsubdev, -1) && subdevid == Out(ptrs.subdevid, -1) && canctrl == Out(ptrs.canctrl, -1)
        && deflimMw == Out(ptrs.deflim, -1) && minlimMw == Out(ptrs.minlim, -1) && maxlimMw == Out(ptrs.maxlim, -1)
        && msgDisplayed == old(msgDisplayed)
      ensures apmidg != null ==>
        var p := PropsOrZero(zes.powerProps(apmidg.Selected(devid).GetPwrh(pwrid)));
        var fix := WorkaroundApplies(ptrs.canctrl, p, maxDefaultUw);
        && onsubdev == Out(ptrs.onsubdev, p.onSubdevice as int)
        && subdevid == Out(ptrs.subdevid, U32ToInt(p.subdeviceId) as int)
        && canctrl == Out(ptrs.canctrl, p.canControl as int)
        && deflimMw == Out(ptrs.deflim, if fix then WorkaroundMaxLimit(maxDefaultUw) else p.defaultLimit as int)
        && minlimMw == Out(ptrs.minlim, p.minLimit as int)
        && maxlimMw == Out(ptrs.maxlim, p.maxLimit as int)
        && msgDisplayed == (old(msgDisplayed) || fix)
    {
      onsubdev, subdevid, canctrl := Out(ptrs.onsubdev, -1), Out(ptrs.subdevid, -1), Out(ptrs.canctrl, -1);
      deflimMw, minlimMw, maxlimMw := Out(ptrs.deflim, -1), Out(ptrs.minlim, -1), Out(ptrs.maxlim, -1);
      if apmidg == null {
        return;
      }
      var perdev := apmidg.GetDevice(devid);
      var pwrh := perdev.GetPwrh(pwrid);
      assert pwrh == apmidg.Selected(devid).GetPwrh(pwrid);
      var pprop := PropsOrZero(zes.powerProps(pwrh));  // a failure is only reported
      onsubdev := Out(ptrs.onsubdev, pprop.onSubdevice as int);
      subdevid := Out(ptrs.subdevid, U32ToInt(pprop.subdeviceId) as int);
      canctrl := Out(ptrs.canctrl, pprop.canControl as int);
      deflimMw := Out(ptrs.deflim, pprop.defaultLimit as int);
      minlimMw := Out(ptrs.minlim, pprop.minLimit as int);
      maxlimMw := Out(ptrs.maxlim, pprop.maxLimit as int);
      var workaroundMaxlimit := WorkaroundMaxLimit(maxDefaultUw);
      if ptrs.canctrl && pprop.defaultLimit == -1 && workaroundMaxlimit > 0 {
        deflimMw := Out(ptrs.deflim, workaroundMaxlimit);
        if !msgDisplayed {
          msgDisplayed := true;
        }
      }
    }

    /**
     * apmidg_getpwrlim: the sustained limit in mW of power domain `pwrid`, or
     * -1 when the library is not initialised, the feature is disabled, or no
     * SUSTAINED descriptor carries a positive limit.
     */
    method GetPwrLim(devid: Int32, pwrid: Int32, limPtr: bool, zes: Sysman) returns (limMw: Option<int>)
      requires Valid()
      requires apmidg != null ==> devid >= 0 && LimitCallDefined(apmidg.Selected(devid), pwrid, zes)
      ensures apmidg == null ==> limMw == Out(limPtr, -1)
      ensures apmidg != null ==> limMw == Out(limPtr, SustainedLimitOf(apmidg.Selected(devid), pwrid, zes))
    {
      limMw := Out(limPtr, -1);
      if apmidg == null {
        return;
      }
      var perdev := apmidg.GetDevice(devid);
      if !perdev.enabledPowerlimit {
        return;
      }
      var pwrh := perdev.GetPwrh(pwrid);
      var pSustained, pCount := FetchLimits(zes.powerLimits(pwrh));
      pCount := ClampCount(pCount);
      var limQueried := QuerySustainedLimit(pSustained, pCount);
      if limPtr && limQueried > 0 {
        limMw := Some(limQueried);
      }
      // else: "apmidg_getpwrlim found no target power level"
    }

    /**
     * apmidg_setpwrlim: the limits write issued, if any: every SUSTAINED
     * descriptor of power domain `pwrid` set to `limMw`.
     */
    method SetPwrLim(devid: Int32, pwrid: Int32, limMw: Int32, zes: Sysman) returns (write: Option<LimitsWrite>)
      requires Valid()
      requires apmidg != null ==> devid >= 0 && LimitCallDefined(apmidg.Selected(devid), pwrid, zes)
      ensures apmidg == null ==> write.None?
      ensures apmidg != null ==> write == SustainedWriteOf(apmidg.Selected(devid), pwrid, limMw, zes)
    {
      write := None;
      if apmidg == null {
        return;
      }
      var perdev := apmidg.GetDevice(devid);
      if !perdev.enabledPowerlimit {
        return;
      }
      var pwrh := perdev.GetPwrh(pwrid);
      var pSustained, pCount := FetchLimits(zes.powerLimits(pwrh));
      ghost var ds := pSustained[..pCount];
      pCount := ClampCount(pCount);
      var foundSustained := SetSustainedLimits(pSustained, pCount, limMw);
      assert pSustained[..pCount] == WithSustainedLimit(ds, pCount, limMw);
      if foundSustained {
        write := Some(LimitsWrite(pwrh, pSustained[..pCount]));
      }
      // else: "apmidg_setpwrlim found no target power level"
    }

    /**
     * The power-cap round trip of the library's test program: set a limit,
     * then read it back from a backend that kept what was written.
     */
    method PowercapTest(devid: Int32, pwrid: Int32, target: Int32, zes: Sysman) returns (curlimMw: Option<int>)
      requires Valid() && apmidg != null && devid >= 0
      requires LimitCallDefined(apmidg.Selected(devid), pwrid, zes) && apmidg.Selected(devid).enabledPowerlimit
      requires var ds := Descriptors(zes.powerLimits(apmidg.Selected(devid).GetPwrh(pwrid))); SomeSustained(ds, |ds|)
      ensures curlimMw == Some(if target > 0 then target else -1)
    {
      var write := SetPwrLim(devid, pwrid, target, zes);
      SetThenGetPowerLimit(apmidg.Selected(devid), pwrid, target, zes);
      curlimMw := GetPwrLim(devid, pwrid, true, StoreLimits(zes, write.value));
    }

    /**
     * apmidg_readenergy: the raw counter of power domain `pwrid`, UINT64_MAX
     * before init. It samples on a copy, so the stored window stays.
     */
    method ReadEnergy(devid: Int32, pwrid: Int32, energyPtr: bool, tsPtr: bool, zes: Sysman)
      returns (energyUj: Option<Uint64>, tsUs: Option<Uint64>)
      requires Valid()
      requires apmidg != null ==> devid >= 0 && 0 <= pwrid < apmidg.Selected(devid).npwrdoms
      ensures apmidg == null ==> energyUj == Out(energyPtr, U64_MAX) && tsUs == Out(tsPtr, U64_MAX)
      ensures apmidg != null ==>
        var c := zes.energyCounter(apmidg.Selected(devid).pwrhs[pwrid]);
        energyUj == Out(energyPtr, c.energy) && tsUs == Out(tsPtr, c.timestamp)
    {
      energyUj, tsUs := Out(energyPtr, U64_MAX), Out(tsPtr, U64_MAX);
      if apmidg == null {
        return;
      }
      var perdev := apmidg.GetDevice(devid);
      var _, ecounter := perdev.SampleEnergy(pwrid, zes);
      energyUj, tsUs := Out(energyPtr, ecounter.energy), Out(tsPtr, ecounter.timestamp);
    }

    /**
     * apmidg_readpoweravg: the average power in W of power domain `pwrid`
     * since the stored window, 0.0 before init. The window is moved on a copy
     * only, so it stays at the sample taken when the library was initialised.
     */
    method ReadPowerAvg(devid: Int32, pwrid: Int32, zes: Sysman) returns (watt: real)
      requires Valid()
      requires apmidg != null ==> devid >= 0 && 0 <= pwrid < apmidg.Selected(devid).npwrdoms
      ensures apmidg == null ==> watt == 0.0
      ensures apmidg != null ==>
        var dev := apmidg.Selected(devid);
        watt == AverageWatts(dev.prevEnergyUj[pwrid], dev.prevTsUs[pwrid], zes.energyCounter(dev.pwrhs[pwrid]))
    {
      watt := 0.0;
      if apmidg == null {
        return;
      }
      var perdev := apmidg.GetDevice(devid);
      var ecounter;
      watt, ecounter := perdev.SampleEnergy(pwrid, zes);
    }

    /**
     * Two polls of the average power: both are measured from the same
     * stored window, so the second does not cover only the time since the first.
     */
    method PollTwice(devid: Int32, pwrid: Int32, first: Sysman, second: Sysman) returns (w1: real, w2: real)
      requires Valid() && apmidg != null && devid >= 0 && 0 <= pwrid < apmidg.Selected(devid).npwrdoms
      ensures var dev := apmidg.Selected(devid);
        && w1 == AverageWatts(dev.prevEnergyUj[pwrid], dev.prevTsUs[pwrid], first.energyCounter(dev.pwrhs[pwrid]))
        && w2 == AverageWatts(dev.prevEnergyUj[pwrid], dev.prevTsUs[pwrid], second.energyCounter(dev.pwrhs[pwrid]))
    {
      w1 := ReadPowerAvg(devid, pwrid, first);
      w2 := ReadPowerAvg(devid, pwrid, second);
    }

    /** apmidg_getfreqprops: the properties of frequency domain `freqid` (clamped). */
    method GetFreqProps(devid: Int32, freqid: Int32, ptrs: FreqPropsPtrs, zes: Sysman)
      returns (onsubdev: Option<int>, subdevid: Option<int>, canctrl: Option<int>, minMHz: Option<real>, maxMHz: Option<real>)
      requires Valid()
      requires apmidg != null ==> devid >= 0 && apmidg.Selected(devid).nfreqdoms > 0
      ensures apmidg == null ==>
        && onsubdev == Out(ptrs.onsubdev, -1) && subdevid == Out(ptrs.subdevid, -1) && canctrl == Out(ptrs.canctrl, -1)
        && minMHz == Out(ptrs.min, -1.0) && maxMHz == Out(ptrs.max, -1.0)
      ensures apmidg != null ==>
        var f := zes.freqProps(apmidg.Selected(devid).GetFreqh(freqid));
        && onsubdev == Out(ptrs.onsubdev, f.onSubdevice as int)
        && subdevid == Out(ptrs.subdevid, U32ToInt(f.subdeviceId) as int)
        && canctrl == Out(ptrs.canctrl, f.canControl as int)
        && minMHz == Out(ptrs.min, f.min) && maxMHz == Out(ptrs.max, f.max)
    {
      onsubdev, subdevid, canctrl := Out(ptrs.onsubdev, -1), Out(ptrs.subdevid, -1), Out(ptrs.canctrl, -1);
      minMHz, maxMHz := Out(ptrs.min, -1.0), Out(ptrs.max, -1.0);
      if apmidg == null {
        return;
      }
      var perdev := apmidg.GetDevice(devid);
      var fprop := zes.freqProps(perdev.GetFreqh(freqid));
      onsubdev := Out(ptrs.onsubdev, fprop.onSubdevice as int);
      subdevid := Out(ptrs.subdevid, U32ToInt(fprop.subdeviceId) as int);
      canctrl := Out(ptrs.canctrl, fprop.canControl as int);
      minMHz, maxMHz := Out(ptrs.min, fprop.min), Out(ptrs.max, fprop.max);
    }

    /** apmidg_getfreqlims: the current frequency range of domain `freqid`, -1.0 before init. */
    method GetFreqLims(devid: Int32, freqid: Int32, minPtr: bool, maxPtr: bool, zes: Sysman)
      returns (minMHz: Option<real>, maxMHz: Option<real>)
      requires Valid()
      requires apmidg != null ==> devid >= 0 && apmidg.Selected(devid).nfreqdoms > 0
      ensures apmidg == null ==> minMHz == Out(minPtr, -1.0) && maxMHz == Out(maxPtr, -1.0)
      ensures apmidg != null ==>
        var r := zes.freqRange(apmidg.Selected(devid).GetFreqh(freqid));
        minMHz == Out(minPtr, r.min) && maxMHz == Out(maxPtr, r.max)
    {
      minMHz, maxMHz := Out(minPtr, -1.0), Out(maxPtr, -1.0);
      if apmidg == null {
        return;
      }
      var perdev := apmidg.GetDevice(devid);
      var frange := zes.freqRange(perdev.GetFreqh(freqid));
      minMHz, maxMHz := Out(minPtr, frange.min), Out(maxPtr, frange.max);
    }

    /** apmidg_setfreqlims: the range write issued to domain `freqid`, none before init. */
    method SetFreqLims(devid: Int32, freqid: Int32, minMHz: real, maxMHz: real) returns (write: Option<RangeWrite>)
      requires Valid()
      requires apmidg != null ==> devid >= 0 && apmidg.Selected(devid).nfreqdoms > 0
      ensures apmidg == null ==> write.None?
      ensures apmidg != null ==>
        write.Some? && write.value.handle == apmidg.Selected(devid).GetFreqh(freqid)
        && write.value.range == FreqRange(minMHz, maxMHz)
    {
      write := None;
      if apmidg == null {
        return;
      }
      var perdev := apmidg.GetDevice(devid);
      var freqh := perdev.GetFreqh(freqid);
      write := Some(RangeWrite(freqh, FreqRange(minMHz, maxMHz)));
    }

    /** Setting a frequency range and reading it back gives that range. */
    method FreqLimsRoundTrip(devid: Int32, freqid: Int32, minMHz: real, maxMHz: real, zes: Sysman)
      returns (gotMin: Option<real>, gotMax: Option<real>)
      requires Valid() && apmidg != null && devid >= 0 && apmidg.Selected(devid).nfreqdoms > 0
      ensures gotMin == Some(minMHz) && gotMax == Some(maxMHz)
    {
      var write := SetFreqLims(devid, freqid, minMHz, maxMHz);
      gotMin, gotMax := GetFreqLims(devid, freqid, true, true, StoreRange(zes, write.value));
    }

    /** apmidg_readfreq: the actual frequency of domain `freqid`, -1.0 before init. */
    method ReadFreq(devid: Int32, freqid: Int32, actualPtr: bool, zes: Sysman) returns (actualMHz: Option<real>)
      requires Valid()
      requires apmidg != null ==> devid >= 0 && apmidg.Selected(devid).nfreqdoms > 0
      ensures apmidg == null ==> actualMHz == Out(actualPtr, -1.0)
      ensures apmidg != null ==> actualMHz == Out(actualPtr, zes.freqActual(apmidg.Selected(devid).GetFreqh(freqid)))
    {
      actualMHz := Out(actualPtr, -1.0);
      if apmidg == null {
        return;
      }
      var perdev := apmidg.GetDevice(devid);
      var freqh := perdev.GetFreqh(freqid);
      actualMHz := Out(actualPtr, zes.freqActual(freqh));
    }

    /** apmidg_gettempprops: the properties of sensor `tempid` (clamped), -1 before init. */
    method GetTempProps(devid: Int32, tempid: Int32, ptrs: TempPropsPtrs, zes: Sysman)
      returns (onsubdev: Option<int>, subdevid: Option<int>, sensorType: Option<int>)
      requires Valid()
      requires apmidg != null ==> devid >= 0 && apmidg.Selected(devid).ntempsensors > 0
      ensures apmidg == null ==>
        onsubdev == Out(ptrs.onsubdev, -1) && subdevid == Out(ptrs.subdevid, -1) && sensorType == Out(ptrs.sensorType, -1)
      ensures apmidg != null ==>
        var t := zes.tempProps(apmidg.Selected(devid).GetTemph(tempid));
        && onsubdev == Out(ptrs.onsubdev, t.onSubdevice as int)
        && subdevid == Out(ptrs.subdevid, U32ToInt(t.subdeviceId) as int)
        && sensorType == Out(ptrs.sensorType, t.sensorType as int)
    {
      onsubdev, subdevid, sensorType := Out(ptrs.onsubdev, -1), Out(ptrs.subdevid, -1), Out(ptrs.sensorType, -1);
      if apmidg == null {
        return;
      }
      var perdev := apmidg.GetDevice(devid);
      var tprop := zes.tempProps(perdev.GetTemph(tempid));
      onsubdev := Out(ptrs.onsubdev, tprop.onSubdevice as int);
      subdevid := Out(ptrs.subdevid, U32ToInt(tprop.subdeviceId) as int);
      sensorType := Out(ptrs.sensorType, tprop.sensorType as int);
    }

    /**
     * apmidg_readtemp: the temperature of sensor `tempid` in degrees C; -1.0
     * before init and when the backend query writes nothing.
     */
    method ReadTemp(devid: Int32, tempid: Int32, tempPtr: bool, zes: Sysman) returns (tempC: Option<real>)
      requires Valid()
      requires apmidg != null ==> devid >= 0 && apmidg.Selected(devid).ntempsensors > 0
      ensures !tempPtr ==> tempC.None?
      ensures tempPtr && apmidg == null ==> tempC == Some(-1.0)
      ensures tempPtr && apmidg != null ==>
        var st := zes.tempState(apmidg.Selected(devid).GetTemph(tempid));
        tempC == Some(if st.Some? then st.value else -1.0)
    {
      tempC := Out(tempPtr, -1.0);
      if apmidg == null {
        return;
      }
      var perdev := apmidg.GetDevice(devid);
      var temph := perdev.GetTemph(tempid);
      if tempPtr {
        var st := zes.tempState(temph);
        if st.Some? {
          tempC := Some(st.value);
        }
      }
    }
  }

  /**
   * The two `zesPowerGetLimitsExt` calls of the limit accessors: the first
   * reports the count, the second copies that many descriptors into the
   * 10-slot stack buffer. Slots past the count are never read.
   */
  method FetchLimits(reply: Reply<seq<LimitDesc>>) returns (buf: array<LimitDesc>, pCount: nat)
    requires |Descriptors(reply)| <= MaxPCount
    ensures fresh(buf) && buf.Length == MaxPCount
    ensures pCount == |Descriptors(reply)| && buf[..pCount] == Descriptors(reply)
  {
    var ds := Descriptors(reply);
    pCount := |ds|;
    buf := new LimitDesc[MaxPCount](j requires 0 <= j < MaxPCount =>
      if j < |ds| then ds[j] else LimitDesc(ZES_POWER_LEVEL_UNKNOWN, 0, 0, false));
  }

  /**
   * Out-of-range device ids reach device 0, and after initialisation every
   * count is the length of the handle array enumerated for that device.
   */
  lemma CountsFollowEnumeration(lib: Library, topo: Topology, zes: Sysman, devid: Int32)
    requires lib.Valid() && lib.apmidg != null && TopologyOk(topo) && lib.apmidg.Mirrors(topo, zes) && devid >= 0
    ensures lib.GetNDevs() == |topo.drivers[0]|
    ensures var d := topo.drivers[0][DeviceSlot(devid, |topo.drivers[0]|)];
      && lib.GetNPwrDoms(devid) == |d.pwrHandles|
      && lib.GetNFreqDoms(devid) == |d.freqHandles|
      && lib.GetNTempSensors(devid) == |d.tempHandles|
    ensures devid >= lib.GetNDevs() ==>
      && lib.GetNPwrDoms(devid) == lib.GetNPwrDoms(0)
      && lib.GetNFreqDoms(devid) == lib.GetNFreqDoms(0)
      && lib.GetNTempSensors(devid) == lib.GetNTempSensors(0)
  {
    assert lib.apmidg.DriverMirrors(0, topo.drivers[0], zes);
  }
}
