/**
 * The energy-accounting part of the COOLR `rapl_reader`: one energy counter
 * per RAPL domain, read together with the clock; deltas that allow for one
 * counter wrap; running totals and last-interval power per domain; and the
 * sample report keyed by short domain names.
 */
module Rapl {
  import opened Wrappers
  import opened RaplNames

  /** What readenergy returns: the clock (s) and the counter of every domain (uJ). */
  datatype Reading = Reading(time: real, energy: map<string, int>)

  /** What diffenergy returns: the elapsed time (s) and the energy consumed per domain (uJ). */
  datatype Delta = Delta(time: real, energy: map<string, int>)

  /** What sample returns: counters, powers (W) with their "total", and power caps (W). */
  datatype Report = Report(energy: map<string, int>, power: map<string, real>, powercap: map<string, real>)

  /**
   * The energy consumed between two counter values: the plain difference,
   * or, when the counter went down, `(maxRange - prev) + now`.
   */
  function WrapDelta(prev: int, now: int, maxRange: int): (d: int)
    ensures now >= prev ==> d == now - prev
    ensures now < prev ==> d == maxRange - prev + now
    ensures 0 <= prev <= maxRange && 0 <= now ==> d >= 0
  {
    if now >= prev then now - prev else (maxRange - prev) + now
  }

  /**
   * For a counter that returns to 0 on reaching `maxRange`, the delta is the
   * energy actually consumed, provided less than one full range was consumed.
   */
  lemma WrapDeltaRecovers(prev: int, used: int, maxRange: int)
    requires 0 <= prev < maxRange && 0 <= used < maxRange
    ensures var now := if prev + used < maxRange then prev + used else prev + used - maxRange;
      WrapDelta(prev, now, maxRange) == used
  {
  }

  /**
   * The report map built by inserting `shortenkey(k): src[k]` for the keys in
   * order, so a later key overwrites an earlier one with the same short form.
   */
  function ShortKeyed<V>(ks: seq<string>, src: map<string, V>): (m: map<string, V>)
    requires forall k :: k in ks ==> k in src
    ensures m.Keys == set k | k in ks :: ShortenKey(k)
  {
    if |ks| == 0 then map[]
    else
      var last := ks[|ks| - 1];
      var m0 := ShortKeyed(ks[..|ks| - 1], src);
      assert forall k :: k in ks <==> k in ks[..|ks| - 1] || k == last;
      m0[ShortenKey(last) := src[last]]
  }

  /** A key's entry holds its own value unless a later key has the same short form. */
  lemma {:induction false} ShortKeyedLookup<V>(ks: seq<string>, src: map<string, V>, i: nat)
    requires forall k :: k in ks ==> k in src
    requires i < |ks|
    requires forall j :: i < j < |ks| ==> ShortenKey(ks[j]) != ShortenKey(ks[i])
    ensures ShortKeyed(ks, src)[ShortenKey(ks[i])] == src[ks[i]]
  {
    if i < |ks| - 1 {
      ShortKeyedLookup(ks[..|ks| - 1], src, i);
    }
  }

  /** The "total" of sample: the sum of the powers of the domains whose name lacks "core". */
  function NonCoreTotal(ks: seq<string>, lp: map<string, real>): (total: real)
    requires forall k :: k in ks ==> k in lp
    ensures (forall k :: k in ks ==> Find(k, "core") != -1) ==> total == 0.0
  {
    if |ks| == 0 then 0.0
    else
      var last := ks[|ks| - 1];
      NonCoreTotal(ks[..|ks| - 1], lp) + (if Find(last, "core") == -1 then lp[last] else 0.0)
  }

  /** The total does not depend on the powers of domains whose name contains "core". */
  lemma {:induction false} NonCoreTotalIgnoresCore(ks: seq<string>, lp: map<string, real>, lp': map<string, real>)
    requires forall k :: k in ks ==> k in lp && k in lp'
    requires forall k :: k in ks && Find(k, "core") == -1 ==> lp[k] == lp'[k]
    ensures NonCoreTotal(ks, lp) == NonCoreTotal(ks, lp')
  {
    if |ks| > 0 {
      NonCoreTotalIgnoresCore(ks[..|ks| - 1], lp, lp');
    }
  }

  /** With non-negative powers the total is non-negative and at most the sum over all domains. */
  lemma {:induction false} NonCoreTotalBounds(ks: seq<string>, lp: map<string, real>)
    requires forall k :: k in ks ==> k in lp && lp[k] >= 0.0
    ensures 0.0 <= NonCoreTotal(ks, lp) <= SumAll(ks, lp)
  {
    if |ks| > 0 {
      NonCoreTotalBounds(ks[..|ks| - 1], lp);
    }
  }

  function SumAll(ks: seq<string>, lp: map<string, real>): real
    requires forall k :: k in ks ==> k in lp
  {
    if |ks| == 0 then 0.0 else SumAll(ks[..|ks| - 1], lp) + lp[ks[|ks| - 1]]
  }

  /** The total over four domains, two of which have "core" in their name. */
  lemma TotalOfFour(a: string, b: string, c: string, d: string, lp: map<string, real>)
    requires a in lp && b in lp && c in lp && d in lp
    requires Find(a, "core") == -1 && Find(b, "core") != -1 && Find(c, "core") == -1 && Find(d, "core") != -1
    ensures NonCoreTotal([a, b, c, d], lp) == lp[a] + lp[c]
  {
    assert [a][..0] == [];
    assert NonCoreTotal([a], lp) == lp[a];
    assert [a, b][..1] == [a];
    assert NonCoreTotal([a, b], lp) == lp[a];
    assert [a, b, c][..2] == [a, b];
    assert NonCoreTotal([a, b, c], lp) == lp[a] + lp[c];
    assert [a, b, c, d][..3] == [a, b, c];
  }

  /** On one package with core, dram and uncore subdomains, the total is package plus dram. */
  lemma TotalOfOnePackage(lp: map<string, real>)
    requires "package-0" in lp && "package-0/core" in lp && "package-0/dram" in lp && "package-0/uncore" in lp
    ensures NonCoreTotal(["package-0", "package-0/core", "package-0/dram", "package-0/uncore"], lp)
         == lp["package-0"] + lp["package-0/dram"]
  {
    CoreFilter();
    TotalOfFour("package-0", "package-0/core", "package-0/dram", "package-0/uncore", lp);
  }

  /** The power of `uj` microjoules spent over `dt` seconds, in watts. */
  function Watts(uj: int, dt: real): (w: real)
    requires dt != 0.0
    ensures uj >= 0 && dt > 0.0 ==> w >= 0.0
  {
    uj as real / dt / 1000000.0
  }

  class RaplReader {
    const init: bool
    /**
     * sorted(self.dirs.keys()): the long names of the domains found at start-up.
     * Their order is an input: the sort is not modelled, and a report key that
     * two domains share holds the value of the later one.
     */
    const domains: seq<string>
    /** max_energy_range_uj_d */
    const maxEnergyRangeUj: map<string, int>
    var startTime: real
    var prevE: Reading
    var totalEnergy: map<string, real>
    var lastPower: map<string, real>

    /** The domain list: distinct names, none of them the reading's "time" key, each with its range. */
    predicate DomainsOk() {
      && (forall i, j :: 0 <= i < j < |domains| ==> domains[i] != domains[j])
      && "time" !in domains
      && (forall k :: k in domains ==> k in maxEnergyRangeUj)
    }

    /** After start-up, the last reading and both accumulators cover exactly the domains. */
    ghost predicate Valid()
      reads this
    {
      && DomainsOk()
      && (init ==>
            && (forall k :: k in domains <==> k in prevE.energy)
            && (forall k :: k in domains <==> k in totalEnergy)
            && (forall k :: k in domains <==> k in lastPower))
    }

    /**
     * __init__ without the sysfs scan: `init` says whether the RAPL directory
     * exists, `domains` and `maxEnergyRangeUj` are what the scan found. An
     * initialised reader starts its energy counter.
     */
    constructor (init: bool, domains: seq<string>, maxEnergyRangeUj: map<string, int>, now: real, counters: string -> int)
      requires (forall i, j :: 0 <= i < j < |domains| ==> domains[i] != domains[j]) && "time" !in domains
      requires forall k :: k in domains ==> k in maxEnergyRangeUj
      ensures Valid() && this.init == init && this.domains == domains && this.maxEnergyRangeUj == maxEnergyRangeUj
      ensures init ==> prevE == ReadEnergy(now, counters).value && startTime == now
      ensures init ==> forall k :: k in totalEnergy ==> totalEnergy[k] == 0.0 && lastPower[k] == 0.0
    {
      this.init := init;
      this.domains := domains;
      this.maxEnergyRangeUj := maxEnergyRangeUj;
      startTime := 0.0;
      prevE := Reading(0.0, map[]);
      totalEnergy := map[];
      lastPower := map[];
      new;
      if init {
        StartEnergyCounter(now, counters);
      }
    }

    /** readenergy: the clock and the counter of every domain; nothing before initialisation. */
    function ReadEnergy(now: real, counters: string -> int): (e: Option<Reading>)
      ensures e.Some? <==> init
      ensures e.Some? ==> e.value.time == now
      ensures e.Some? ==> forall k :: k in e.value.energy <==> k in domains
      ensures e.Some? ==> forall k :: k in e.value.energy ==> e.value.energy[k] == counters(k)
    {
      if !init then None else Some(Reading(now, map k | k in domains :: counters(k)))
    }

    /** diffenergy: per domain, the energy consumed from `e1` to `e2`, allowing for one counter wrap. */
    method DiffEnergy(e1: Reading, e2: Reading) returns (de: Delta)
      requires DomainsOk()
      requires forall k :: k in domains ==> k in e1.energy && k in e2.energy
      ensures de.time == e2.time - e1.time
      ensures forall k :: k in de.energy <==> k in domains
      ensures forall k :: k in de.energy ==> de.energy[k] == WrapDelta(e1.energy[k], e2.energy[k], maxEnergyRangeUj[k])
    {
      var energy: map<string, int> := map[];
      var i := 0;
      while i < |domains|
        invariant 0 <= i <= |domains|
        invariant forall k :: k in energy <==> k in domains[..i]
        invariant forall k :: k in energy ==> energy[k] == WrapDelta(e1.energy[k], e2.energy[k], maxEnergyRangeUj[k])
      {
        var k := domains[i];
        if e2.energy[k] >= e1.energy[k] {
          energy := energy[k := e2.energy[k] - e1.energy[k]];
        } else {
          energy := energy[k := (maxEnergyRangeUj[k] - e1.energy[k]) + e2.energy[k]];
        }
        assert domains[..i + 1] == domains[..i] + [k];
        i := i + 1;
      }
      assert domains[..i] == domains;
      de := Delta(e2.time - e1.time, energy);
    }

    /** start_energy_counter: takes a fresh reading as the reference and zeroes both accumulators. */
    method StartEnergyCounter(now: real, counters: string -> int)
      requires DomainsOk()
      modifies this`startTime, this`prevE, this`totalEnergy, this`lastPower
      ensures init ==> Valid()
      ensures !init ==> unchanged(this)
      ensures init ==> startTime == now && prevE == ReadEnergy(now, counters).value
      ensures init ==> forall k :: k in totalEnergy ==> totalEnergy[k] == 0.0 && lastPower[k] == 0.0
    {
      if !init {
        return;
      }
      var e := ReadEnergy(now, counters).value;
      var total: map<string, real> := map[];
      var power: map<string, real> := map[];
      var i := 0;
      while i < |domains|
        invariant 0 <= i <= |domains|
        invariant forall k :: k in total <==> k in domains[..i]
        invariant forall k :: k in power <==> k in domains[..i]
        invariant forall k :: k in total ==> total[k] == 0.0 && power[k] == 0.0
      {
        total := total[domains[i] := 0.0];
        power := power[domains[i] := 0.0];
        assert domains[..i + 1] == domains[..i] + [domains[i]];
        i := i + 1;
      }
      assert domains[..i] == domains;
      startTime, prevE, totalEnergy, lastPower := now, e, total, power;
    }

    /**
     * The update read_energy_acc and sample share: take a reading, diff it
     * against the reference, update each domain's total (when `acc` holds)
     * and power, and make the reading the new reference.
     */
    method Advance(now: real, counters: string -> int, acc: bool) returns (e: Reading)
      requires Valid() && init && (|domains| > 0 ==> now != prevE.time)
      modifies this`prevE, this`totalEnergy, this`lastPower
      ensures Valid()
      ensures e == ReadEnergy(now, counters).value && prevE == e
      ensures forall j :: 0 <= j < |domains| ==>
        var k := domains[j];
        var d := WrapDelta(old(prevE).energy[k], counters(k), maxEnergyRangeUj[k]);
        && totalEnergy[k] == old(totalEnergy[k]) + (if acc then d as real else 0.0)
        && lastPower[k] == Watts(d, now - old(prevE).time)
    {
      var prev, total0, power0 := prevE, totalEnergy, lastPower;
      e := ReadEnergy(now, counters).value;
      var de := DiffEnergy(prev, e);
      var total, power := AccountDelta(domains, maxEnergyRangeUj, prev, now, counters, de, total0, power0, acc);
      prevE, totalEnergy, lastPower := e, total, power;
      assert prevE == e && totalEnergy == total && lastPower == power;
    }

    /**
     * read_energy_acc: reads the counters, adds each domain's delta to its
     * total, records its power over the interval, and makes the reading the
     * new reference. With at least one domain, a zero interval raises
     * ZeroDivisionError in the source; with none, nothing is divided.
     */
    method ReadEnergyAcc(now: real, counters: string -> int) returns (e: Option<Reading>)
      requires Valid()
      requires init && |domains| > 0 ==> now != prevE.time
      modifies this`prevE, this`totalEnergy, this`lastPower
      ensures Valid()
      ensures e == ReadEnergy(now, counters)
      ensures !init ==> unchanged(this)
      ensures init ==> prevE == e.value && forall j :: 0 <= j < |domains| ==>
        var k := domains[j];
        var d := WrapDelta(old(prevE).energy[k], counters(k), maxEnergyRangeUj[k]);
        && totalEnergy[k] == old(totalEnergy[k]) + d as real
        && lastPower[k] == Watts(d, now - old(prevE).time)
    {
      e := ReadEnergy(now, counters);
      if !init {
        return;
      }
      var reading := Advance(now, counters, true);
    }

    /**
     * sample: the update of read_energy_acc, with the totals advanced only when
     * `accflag` holds, then the report: counters and powers under short
     * names, the "total" power of the domains without "core" in their name,
     * and the current power caps (`limitUw`: constraint_0_power_limit_uw).
     */
    method Sample(accflag: bool, now: real, counters: string -> int, limitUw: string -> int) returns (r: Option<Report>)
      requires Valid()
      requires init && |domains| > 0 ==> now != prevE.time
      modifies this`prevE, this`totalEnergy, this`lastPower
      ensures Valid()
      ensures !init ==> r.None? && unchanged(this)
      ensures init ==> prevE == ReadEnergy(now, counters).value && forall j :: 0 <= j < |domains| ==>
        var k := domains[j];
        var d := WrapDelta(old(prevE).energy[k], counters(k), maxEnergyRangeUj[k]);
        && totalEnergy[k] == old(totalEnergy[k]) + (if accflag then d as real else 0.0)
        && lastPower[k] == Watts(d, now - old(prevE).time)
      ensures init ==> (
        && r.Some?
        && r.value.energy == ShortKeyed(domains, prevE.energy)
        && r.value.power == ShortKeyed(domains, lastPower)["total" := NonCoreTotal(domains, lastPower)]
        && r.value.powercap == ShortKeyed(domains, CapWatts(limitUw)))
    {
      if !init {
        return None;
      }
      var e := Advance(now, counters, accflag);
      var energy := ShortKeyedLoop(domains, e.energy);
      var power := PowerReport(domains, lastPower);
      var powercap := ShortKeyedLoop(domains, CapWatts(limitUw));
      r := Some(Report(energy, power, powercap));
    }

    /** The `curW` of readpowerlimitall for every domain: the limit in uW times 1e-6. */
    function CapWatts(limitUw: string -> int): (caps: map<string, real>)
      ensures forall k :: k in caps <==> k in domains
    {
      map k | k in domains :: limitUw(k) as real * 0.000001
    }
  }

  /**
   * The loop shared by read_energy_acc and sample: for each domain, the
   * total grows by the delta when `acc` holds, and the last power becomes
   * the delta over the elapsed time, in W.
   */
  method AccountLoop(ks: seq<string>, total0: map<string, real>, power0: map<string, real>, de: Delta, acc: bool)
    returns (total: map<string, real>, power: map<string, real>)
    requires |ks| > 0 ==> de.time != 0.0
    requires forall i, j :: 0 <= i < j < |ks| ==> ks[i] != ks[j]
    requires forall j :: 0 <= j < |ks| ==> ks[j] in total0 && ks[j] in power0 && ks[j] in de.energy
    ensures total.Keys == total0.Keys && power.Keys == power0.Keys
    ensures forall j :: 0 <= j < |ks| ==>
      && total[ks[j]] == total0[ks[j]] + (if acc then de.energy[ks[j]] as real else 0.0)
      && power[ks[j]] == Watts(de.energy[ks[j]], de.time)
  {
    total, power := total0, power0;
    var i := 0;
    while i < |ks|
      invariant 0 <= i <= |ks|
      invariant total.Keys == total0.Keys && power.Keys == power0.Keys
      invariant forall j :: 0 <= j < i ==>
        && total[ks[j]] == total0[ks[j]] + (if acc then de.energy[ks[j]] as real else 0.0)
        && power[ks[j]] == Watts(de.energy[ks[j]], de.time)
      invariant forall j :: i <= j < |ks| ==> total[ks[j]] == total0[ks[j]]
    {
      var k := ks[i];
      if acc {
        total := total[k := total[k] + de.energy[k] as real];
      }
      power := power[k := Watts(de.energy[k], de.time)];
      i := i + 1;
    }
  }

  /**
   * The accounting loop applied to the deltas of a reading of `counters` at
   * `now` against `prev`: each domain's total and power in terms of the
   * wrap-aware delta.
   */
  method AccountDelta(ks: seq<string>, ranges: map<string, int>, prev: Reading, now: real, counters: string -> int,
                      de: Delta, total0: map<string, real>, power0: map<string, real>, acc: bool)
    returns (total: map<string, real>, power: map<string, real>)
    requires |ks| > 0 ==> now != prev.time
    requires de.time == now - prev.time
    requires forall i, j :: 0 <= i < j < |ks| ==> ks[i] != ks[j]
    requires forall k :: k in ks <==> k in de.energy
    requires forall k :: k in ks ==> k in total0 && k in power0 && k in prev.energy && k in ranges
    requires forall k :: k in de.energy ==> de.energy[k] == WrapDelta(prev.energy[k], counters(k), ranges[k])
    ensures total.Keys == total0.Keys && power.Keys == power0.Keys
    ensures forall j :: 0 <= j < |ks| ==>
      var k := ks[j];
      var d := WrapDelta(prev.energy[k], counters(k), ranges[k]);
      && total[k] == total0[k] + (if acc then d as real else 0.0)
      && power[k] == Watts(d, now - prev.time)
  {
    forall j | 0 <= j < |ks|
      ensures ks[j] in de.energy
    {
      assert ks[j] in ks;
    }
    total, power := AccountLoop(ks, total0, power0, de, acc);
  }

  /** A report loop of sample: one `shortenkey(k): src[k]` insertion per key, in order. */
  method ShortKeyedLoop<V>(ks: seq<string>, src: map<string, V>) returns (m: map<string, V>)
    requires forall k :: k in ks ==> k in src
    ensures m == ShortKeyed(ks, src)
  {
    m := map[];
    var i := 0;
    while i < |ks|
      invariant 0 <= i <= |ks|
      invariant m == ShortKeyed(ks[..i], src)
    {
      assert ks[..i + 1][..i] == ks[..i];
      m := m[ShortenKey(ks[i]) := src[ks[i]]];
      i := i + 1;
    }
    assert ks[..i] == ks;
  }

  /** The power loop of sample: short-named powers, the running non-core total, then "total". */
  method PowerReport(ks: seq<string>, lp: map<string, real>) returns (power: map<string, real>)
    requires forall k :: k in ks ==> k in lp
    ensures power == ShortKeyed(ks, lp)["total" := NonCoreTotal(ks, lp)]
  {
    power := map[];
    var totalpower := 0.0;
    var i := 0;
    while i < |ks|
      invariant 0 <= i <= |ks|
      invariant power == ShortKeyed(ks[..i], lp) && totalpower == NonCoreTotal(ks[..i], lp)
    {
      var k := ks[i];
      assert ks[..i + 1][..i] == ks[..i];
      power := power[ShortenKey(k) := lp[k]];
      if Find(k, "core") == -1 {
        totalpower := totalpower + lp[k];
      }
      i := i + 1;
    }
    assert ks[..i] == ks;
    power := power["total" := totalpower];
  }
}
