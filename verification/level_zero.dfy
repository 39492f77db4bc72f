/**
 * The part of the oneAPI Level Zero Sysman interface that libapmidg uses:
 * result codes, temperature-sensor and power-level enumerators, the property and
 * limit-descriptor records, and the answers the backend gives to each query.
 * The backend itself is not modelled: each of its answers is an input.
 */
module LevelZero {
  import opened CTypes
  import opened Wrappers

  // ze_result_t (Level Zero core, "Common" chapter)
  const ZE_RESULT_SUCCESS: int := 0
  const ZE_RESULT_NOT_READY: int := 1
  const ZE_RESULT_ERROR_DEVICE_LOST: int := 0x70000001
  const ZE_RESULT_ERROR_OUT_OF_HOST_MEMORY: int := 0x70000002
  const ZE_RESULT_ERROR_OUT_OF_DEVICE_MEMORY: int := 0x70000003
  const ZE_RESULT_ERROR_MODULE_BUILD_FAILURE: int := 0x70000004
  const ZE_RESULT_ERROR_MODULE_LINK_FAILURE: int := 0x70000005
  const ZE_RESULT_ERROR_DEVICE_REQUIRES_RESET: int := 0x70000006
  const ZE_RESULT_ERROR_DEVICE_IN_LOW_POWER_STATE: int := 0x70000007
  const ZE_RESULT_ERROR_INSUFFICIENT_PERMISSIONS: int := 0x70010000
  const ZE_RESULT_ERROR_NOT_AVAILABLE: int := 0x70010001
  const ZE_RESULT_ERROR_DEPENDENCY_UNAVAILABLE: int := 0x70020000
  const ZE_RESULT_ERROR_UNINITIALIZED: int := 0x78000001
  const ZE_RESULT_ERROR_UNSUPPORTED_VERSION: int := 0x78000002
  const ZE_RESULT_ERROR_UNSUPPORTED_FEATURE: int := 0x78000003
  const ZE_RESULT_ERROR_INVALID_ARGUMENT: int := 0x78000004
  const ZE_RESULT_ERROR_INVALID_NULL_HANDLE: int := 0x78000005
  const ZE_RESULT_ERROR_HANDLE_OBJECT_IN_USE: int := 0x78000006
  const ZE_RESULT_ERROR_INVALID_NULL_POINTER: int := 0x78000007
  const ZE_RESULT_ERROR_INVALID_SIZE: int := 0x78000008
  const ZE_RESULT_ERROR_UNSUPPORTED_SIZE: int := 0x78000009
  const ZE_RESULT_ERROR_UNSUPPORTED_ALIGNMENT: int := 0x7800000a
  const ZE_RESULT_ERROR_INVALID_SYNCHRONIZATION_OBJECT: int := 0x7800000b
  const ZE_RESULT_ERROR_INVALID_ENUMERATION: int := 0x7800000c
  const ZE_RESULT_ERROR_UNSUPPORTED_ENUMERATION: int := 0x7800000d
  const ZE_RESULT_ERROR_UNSUPPORTED_IMAGE_FORMAT: int := 0x7800000e
  const ZE_RESULT_ERROR_INVALID_NATIVE_BINARY: int := 0x7800000f
  const ZE_RESULT_ERROR_INVALID_GLOBAL_NAME: int := 0x78000010
  const ZE_RESULT_ERROR_INVALID_KERNEL_NAME: int := 0x78000011
  const ZE_RESULT_ERROR_INVALID_FUNCTION_NAME: int := 0x78000012
  const ZE_RESULT_ERROR_INVALID_GROUP_SIZE_DIMENSION: int := 0x78000013
  const ZE_RESULT_ERROR_INVALID_GLOBAL_WIDTH_DIMENSION: int := 0x78000014
  const ZE_RESULT_ERROR_INVALID_KERNEL_ARGUMENT_INDEX: int := 0x78000015
  const ZE_RESULT_ERROR_INVALID_KERNEL_ARGUMENT_SIZE: int := 0x78000016
  const ZE_RESULT_ERROR_INVALID_KERNEL_ATTRIBUTE_VALUE: int := 0x78000017
  const ZE_RESULT_ERROR_INVALID_MODULE_UNLINKED: int := 0x78000018
  const ZE_RESULT_ERROR_INVALID_COMMAND_LIST_TYPE: int := 0x78000019
  const ZE_RESULT_ERROR_OVERLAPPING_REGIONS: int := 0x7800001a

  // zes_temp_sensors_t (Sysman "Temperature" chapter)
  const ZES_TEMP_SENSORS_GLOBAL: int := 0
  const ZES_TEMP_SENSORS_GPU: int := 1
  const ZES_TEMP_SENSORS_MEMORY: int := 2
  const ZES_TEMP_SENSORS_GLOBAL_MIN: int := 3
  const ZES_TEMP_SENSORS_GPU_MIN: int := 4
  const ZES_TEMP_SENSORS_MEMORY_MIN: int := 5

  // zes_power_level_t (Sysman "Power" chapter)
  const ZES_POWER_LEVEL_UNKNOWN: int := 0
  const ZES_POWER_LEVEL_SUSTAINED: int := 1
  const ZES_POWER_LEVEL_BURST: int := 2
  const ZES_POWER_LEVEL_PEAK: int := 3
  const ZES_POWER_LEVEL_INSTANTANEOUS: int := 4

  /** Opaque native handles, compared only for identity. */
  datatype PwrHandle = PwrHandle(id: nat)
  datatype FreqHandle = FreqHandle(id: nat)
  datatype TempHandle = TempHandle(id: nat)

  /** zes_power_limit_ext_desc_t; `level` is a raw enumerator, since a buffer may hold stale memory. */
  datatype LimitDesc = LimitDesc(level: int, limit: Int32, interval: Int32, enabled: bool)

  /** zes_power_properties_t */
  datatype PowerProps = PowerProps(onSubdevice: Uint8, subdeviceId: Uint32, canControl: Uint8,
                                   defaultLimit: Int32, minLimit: Int32, maxLimit: Int32)

  /** The value of `zes_power_properties_t pprop = {}`. */
  const ZeroPowerProps: PowerProps := PowerProps(0, 0, 0, 0, 0, 0)

  /** zes_power_energy_counter_t: cumulative microjoules and a microsecond timestamp. */
  datatype EnergyCounter = EnergyCounter(energy: Uint64, timestamp: Uint64)

  /** zes_freq_properties_t, zes_freq_range_t */
  datatype FreqProps = FreqProps(onSubdevice: Uint8, subdeviceId: Uint32, canControl: Uint8, min: real, max: real)
  datatype FreqRange = FreqRange(min: real, max: real)

  /** zes_temp_properties_t */
  datatype TempProps = TempProps(onSubdevice: Uint8, subdeviceId: Uint32, sensorType: Int32)

  /** A query that either succeeds with a value or fails and leaves its out-parameters untouched. */
  datatype Reply<T> = Ok(value: T) | Failed(code: int)

  /**
   * What the Sysman backend answers, per handle, at the moment of a facade call.
   * A query whose result the source does not check is given as the value left in
   * the caller's struct, whatever it is.
   */
  datatype Sysman = Sysman(
    energyCounter: PwrHandle -> EnergyCounter,        // zesPowerGetEnergyCounter
    powerProps: PwrHandle -> Reply<PowerProps>,       // zesPowerGetProperties
    powerLimits: PwrHandle -> Reply<seq<LimitDesc>>,  // zesPowerGetLimitsExt: the descriptors it holds
    freqProps: FreqHandle -> FreqProps,               // zesFrequencyGetProperties
    freqRange: FreqHandle -> FreqRange,               // zesFrequencyGetRange
    freqActual: FreqHandle -> real,                   // zesFrequencyGetState(...).actual
    tempProps: TempHandle -> TempProps,               // zesTemperatureGetProperties
    tempState: TempHandle -> Option<real>)            // zesTemperatureGetState; None: nothing written

  /** The properties `zesPowerGetProperties` leaves in a zero-initialised struct. */
  function PropsOrZero(r: Reply<PowerProps>): (p: PowerProps)
    ensures r.Failed? ==> p == ZeroPowerProps
    ensures r.Ok? ==> p == r.value
  {
    if r.Ok? then r.value else ZeroPowerProps
  }

  /**
   * One device as enumerated at start-up: its type, the handle arrays of the
   * two-phase enumerations, and two pieces of indeterminate memory the
   * constructor reads: the never-filled 10-slot descriptor buffer on its stack
   * and the value of the `bool` member it leaves unassigned without power domains.
   */
  datatype DeviceDesc = DeviceDesc(isGpu: bool, pwrHandles: seq<PwrHandle>, freqHandles: seq<FreqHandle>,
                                   tempHandles: seq<TempHandle>, stackDescs: seq<LimitDesc>, unsetFlag: bool)

  /** The handle counts fit an `int`, and the stack buffer has its 10 slots. */
  predicate DeviceDescOk(d: DeviceDesc) {
    && |d.pwrHandles| < TWO_31 && |d.freqHandles| < TWO_31 && |d.tempHandles| < TWO_31
    && |d.stackDescs| == 10
  }

  /** The drivers `zeDriverGet` returns, each with the devices `zeDeviceGet` returns. */
  datatype Topology = Topology(drivers: seq<seq<DeviceDesc>>)

  /**
   * What start-up needs in order not to terminate: at least one driver, at least
   * one device under every driver, and counts that fit an `int`.
   */
  predicate TopologyOk(t: Topology) {
    && 0 < |t.drivers| < TWO_31
    && (forall i :: 0 <= i < |t.drivers| ==> 0 < |t.drivers[i]| < TWO_31)
    && (forall i, j :: 0 <= i < |t.drivers| && 0 <= j < |t.drivers[i]| ==> DeviceDescOk(t.drivers[i][j]))
  }
}
