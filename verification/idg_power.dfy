/**
 * IDGPowerPerDriver and IDGPower: the device list of one driver and the
 * driver list of the library, built once at initialisation. Devices are handed
 * out by value, so callers work on copies of the stored devices.
 */
module IdgPower {
  import opened CTypes
  import opened LevelZero
  import opened IdgDevice

  /** The slot `getIDGPowerPerDevice` reads: `devid`, or 0 when it is past the end. */
  function DeviceSlot(devid: nat, ndevs: nat): (k: nat)
    requires ndevs > 0
    ensures k < ndevs
    ensures devid < ndevs ==> k == devid
    ensures devid >= ndevs ==> k == 0
  {
    if devid >= ndevs then 0 else devid
  }

  class Driver {
    const drvid: Int32
    const devs: seq<Device>

    ghost predicate Valid()
      reads devs
    {
      0 < |devs| < TWO_31 && forall k :: 0 <= k < |devs| ==> devs[k].Valid()
    }

    /** Device `k` of this driver is the one built from `descs[k]` with id `k`. */
    ghost predicate Mirrors(descs: seq<DeviceDesc>, zes: Sysman)
      reads devs
      requires forall k :: 0 <= k < |descs| ==> DeviceDescOk(descs[k])
    {
      |devs| == |descs| && forall k :: 0 <= k < |devs| ==> devs[k].Mirrors(descs[k], k, zes)
    }

    /** IDGPowerPerDriver(drv, drvid): one device object per enumerated device, in order. */
    constructor (descs: seq<DeviceDesc>, id: Int32, zes: Sysman)
      requires 0 < |descs| < TWO_31
      requires forall k :: 0 <= k < |descs| ==> DeviceDescOk(descs[k])
      ensures Valid() && Mirrors(descs, zes) && drvid == id
      ensures forall k :: 0 <= k < |devs| ==> fresh(devs[k])
    {
      var ds: seq<Device> := [];
      var i := 0;
      while i < |descs|
        invariant 0 <= i <= |descs| && |ds| == i
        invariant forall k :: 0 <= k < i ==> fresh(ds[k]) && ds[k].Valid() && ds[k].Mirrors(descs[k], k, zes)
      {
        var dev := new Device(descs[i], i, zes);
        ds := ds + [dev];
        i := i + 1;
      }
      drvid := id;
      devs := ds;
    }

    function GetNDevs(): (n: int)
      requires 0 < |devs| < TWO_31
      ensures 0 < n < TWO_31
    {
      |devs|
    }

    /**
     * getIDGPowerPerDevice: a copy of device `devid`, or of device 0 when
     * `devid` is past the end. A negative `devid` indexes before the vector
     * and is not a defined call.
     */
    method GetDevice(devid: Int32) returns (dev: Device)
      requires Valid() && devid >= 0
      ensures fresh(dev) && dev.Valid() && dev.SameAs(devs[DeviceSlot(devid, |devs|)])
    {
      if devid >= |devs| {
        // "devid is out of the range"
        dev := new Device.Copy(devs[0]);
        return;
      }
      dev := new Device.Copy(devs[devid]);
    }
  }

  class IdgPower {
    const enabled: bool
    const drvselected: nat
    const drvs: seq<Driver>

    /** The driver and device shape every accessor relies on; it reads no mutable state. */
    predicate Shape() {
      && drvselected == 0 && 0 < |drvs|
      && 0 < |drvs[0].devs| < TWO_31
      && forall k :: 0 <= k < |drvs[0].devs| ==> drvs[0].devs[k].Shape()
    }

    /** The stored device `devid` selects. */
    function Selected(devid: nat): (dev: Device)
      requires Shape()
      ensures dev in Devices() && dev.Shape()
    {
      drvs[0].devs[DeviceSlot(devid, |drvs[0].devs|)]
    }

    ghost function Devices(): set<Device> {
      set i, k | 0 <= i < |drvs| && 0 <= k < |drvs[i].devs| :: drvs[i].devs[k]
    }

    ghost predicate Valid()
      reads Devices()
    {
      && Shape()
      && (forall i :: 0 <= i < |drvs| ==> 0 < |drvs[i].devs| < TWO_31)
      && (forall i, k :: 0 <= i < |drvs| && 0 <= k < |drvs[i].devs| ==> drvs[i].devs[k].Valid())
    }

    /** Driver `i` holds the devices built from `topo.drivers[i]`. */
    ghost predicate Mirrors(topo: Topology, zes: Sysman)
      reads Devices()
      requires TopologyOk(topo)
    {
      && |drvs| == |topo.drivers|
      && forall i :: 0 <= i < |drvs| ==> DriverMirrors(i, topo.drivers[i], zes)
    }

    ghost predicate DriverMirrors(i: nat, descs: seq<DeviceDesc>, zes: Sysman)
      requires i < |drvs|
      requires forall k :: 0 <= k < |descs| ==> DeviceDescOk(descs[k])
      reads Devices()
    {
      |drvs[i].devs| == |descs| && forall k :: 0 <= k < |descs| ==> drvs[i].devs[k].Mirrors(descs[k], k, zes)
    }

    /**
     * IDGPower(verbose): builds one driver object per enumerated driver, in
     * order, and selects driver 0. Failing enumeration terminates the process
     * in the source, so a well-formed topology is required.
     */
    constructor (topo: Topology, verbose: int, zes: Sysman)
      requires TopologyOk(topo)
      ensures Valid() && Mirrors(topo, zes) && enabled
      ensures forall dev :: dev in Devices() ==> fresh(dev)
    {
      var ds: seq<Driver> := [];
      var i := 0;
      while i < |topo.drivers|
        invariant 0 <= i <= |topo.drivers| && |ds| == i
        invariant forall j :: 0 <= j < i ==>
          && fresh(ds[j]) && ds[j].Valid() && ds[j].Mirrors(topo.drivers[j], zes)
          && forall k :: 0 <= k < |ds[j].devs| ==> fresh(ds[j].devs[k])
      {
        var drv := new Driver(topo.drivers[i], i, zes);
        ds := ds + [drv];
        i := i + 1;
      }
      drvs := ds;
      drvselected := 0;
      enabled := true;
      new;
      forall i | 0 <= i < |drvs|
        ensures 0 < |drvs[i].devs| < TWO_31 && DriverMirrors(i, topo.drivers[i], zes)
      {
        assert drvs[i].Valid();
      }
    }

    /** getIDGPowerPerDevice, routed to the selected driver. */
    method GetDevice(devid: Int32) returns (dev: Device)
      requires Valid() && devid >= 0
      ensures fresh(dev) && dev.Valid() && dev.SameAs(Selected(devid))
    {
      var drv := drvs[drvselected];
      assert drv.Valid();
      dev := drv.GetDevice(devid);
    }
  }
}
