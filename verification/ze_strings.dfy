/**
 * The code-to-name tables of apmidg_zmacrostr.cpp and their two lookups, which
 * scan a table from the front and return the name of the first matching entry,
 * or "UNKNOWN" when no entry matches.
 */
module ZeStrings {
  import opened LevelZero

  /** One table entry: an enumerator value and its stringified name. */
  datatype CodeString = CodeString(no: int, str: string)

  const Unknown: string := "UNKNOWN"

  /** ze_err_code_str: the 38 ze_result_t values libapmidg names. */
  const ZeErrCodeStr: seq<CodeString> := [
    CodeString(ZE_RESULT_SUCCESS, "ZE_RESULT_SUCCESS"),
    CodeString(ZE_RESULT_NOT_READY, "ZE_RESULT_NOT_READY"),
    CodeString(ZE_RESULT_ERROR_DEVICE_LOST, "ZE_RESULT_ERROR_DEVICE_LOST"),
    CodeString(ZE_RESULT_ERROR_OUT_OF_HOST_MEMORY, "ZE_RESULT_ERROR_OUT_OF_HOST_MEMORY"),
    CodeString(ZE_RESULT_ERROR_OUT_OF_DEVICE_MEMORY, "ZE_RESULT_ERROR_OUT_OF_DEVICE_MEMORY"),
    CodeString(ZE_RESULT_ERROR_MODULE_BUILD_FAILURE, "ZE_RESULT_ERROR_MODULE_BUILD_FAILURE"),
    CodeString(ZE_RESULT_ERROR_MODULE_LINK_FAILURE, "ZE_RESULT_ERROR_MODULE_LINK_FAILURE"),
    CodeString(ZE_RESULT_ERROR_DEVICE_REQUIRES_RESET, "ZE_RESULT_ERROR_DEVICE_REQUIRES_RESET"),
    CodeString(ZE_RESULT_ERROR_DEVICE_IN_LOW_POWER_STATE, "ZE_RESULT_ERROR_DEVICE_IN_LOW_POWER_STATE"),
    CodeString(ZE_RESULT_ERROR_INSUFFICIENT_PERMISSIONS, "ZE_RESULT_ERROR_INSUFFICIENT_PERMISSIONS"),
    CodeString(ZE_RESULT_ERROR_NOT_AVAILABLE, "ZE_RESULT_ERROR_NOT_AVAILABLE"),
    CodeString(ZE_RESULT_ERROR_DEPENDENCY_UNAVAILABLE, "ZE_RESULT_ERROR_DEPENDENCY_UNAVAILABLE"),
    CodeString(ZE_RESULT_ERROR_UNINITIALIZED, "ZE_RESULT_ERROR_UNINITIALIZED"),
    CodeString(ZE_RESULT_ERROR_UNSUPPORTED_VERSION, "ZE_RESULT_ERROR_UNSUPPORTED_VERSION"),
    CodeString(ZE_RESULT_ERROR_UNSUPPORTED_FEATURE, "ZE_RESULT_ERROR_UNSUPPORTED_FEATURE"),
    CodeString(ZE_RESULT_ERROR_INVALID_ARGUMENT, "ZE_RESULT_ERROR_INVALID_ARGUMENT"),
    CodeString(ZE_RESULT_ERROR_INVALID_NULL_HANDLE, "ZE_RESULT_ERROR_INVALID_NULL_HANDLE"),
    CodeString(ZE_RESULT_ERROR_HANDLE_OBJECT_IN_USE, "ZE_RESULT_ERROR_HANDLE_OBJECT_IN_USE"),
    CodeString(ZE_RESULT_ERROR_INVALID_NULL_POINTER, "ZE_RESULT_ERROR_INVALID_NULL_POINTER"),
    CodeString(ZE_RESULT_ERROR_INVALID_SIZE, "ZE_RESULT_ERROR_INVALID_SIZE"),
    CodeString(ZE_RESULT_ERROR_UNSUPPORTED_SIZE, "ZE_RESULT_ERROR_UNSUPPORTED_SIZE"),
    CodeString(ZE_RESULT_ERROR_UNSUPPORTED_ALIGNMENT, "ZE_RESULT_ERROR_UNSUPPORTED_ALIGNMENT"),
    CodeString(ZE_RESULT_ERROR_INVALID_SYNCHRONIZATION_OBJECT, "ZE_RESULT_ERROR_INVALID_SYNCHRONIZATION_OBJECT"),
    CodeString(ZE_RESULT_ERROR_INVALID_ENUMERATION, "ZE_RESULT_ERROR_INVALID_ENUMERATION"),
    CodeString(ZE_RESULT_ERROR_UNSUPPORTED_ENUMERATION, "ZE_RESULT_ERROR_UNSUPPORTED_ENUMERATION"),
    CodeString(ZE_RESULT_ERROR_UNSUPPORTED_IMAGE_FORMAT, "ZE_RESULT_ERROR_UNSUPPORTED_IMAGE_FORMAT"),
    CodeString(ZE_RESULT_ERROR_INVALID_NATIVE_BINARY, "ZE_RESULT_ERROR_INVALID_NATIVE_BINARY"),
    CodeString(ZE_RESULT_ERROR_INVALID_GLOBAL_NAME, "ZE_RESULT_ERROR_INVALID_GLOBAL_NAME"),
    CodeString(ZE_RESULT_ERROR_INVALID_KERNEL_NAME, "ZE_RESULT_ERROR_INVALID_KERNEL_NAME"),
    CodeString(ZE_RESULT_ERROR_INVALID_FUNCTION_NAME, "ZE_RESULT_ERROR_INVALID_FUNCTION_NAME"),
    CodeString(ZE_RESULT_ERROR_INVALID_GROUP_SIZE_DIMENSION, "ZE_RESULT_ERROR_INVALID_GROUP_SIZE_DIMENSION"),
    CodeString(ZE_RESULT_ERROR_INVALID_GLOBAL_WIDTH_DIMENSION, "ZE_RESULT_ERROR_INVALID_GLOBAL_WIDTH_DIMENSION"),
    CodeString(ZE_RESULT_ERROR_INVALID_KERNEL_ARGUMENT_INDEX, "ZE_RESULT_ERROR_INVALID_KERNEL_ARGUMENT_INDEX"),
    CodeString(ZE_RESULT_ERROR_INVALID_KERNEL_ARGUMENT_SIZE, "ZE_RESULT_ERROR_INVALID_KERNEL_ARGUMENT_SIZE"),
    CodeString(ZE_RESULT_ERROR_INVALID_KERNEL_ATTRIBUTE_VALUE, "ZE_RESULT_ERROR_INVALID_KERNEL_ATTRIBUTE_VALUE"),
    CodeString(ZE_RESULT_ERROR_INVALID_MODULE_UNLINKED, "ZE_RESULT_ERROR_INVALID_MODULE_UNLINKED"),
    CodeString(ZE_RESULT_ERROR_INVALID_COMMAND_LIST_TYPE, "ZE_RESULT_ERROR_INVALID_COMMAND_LIST_TYPE"),
    CodeString(ZE_RESULT_ERROR_OVERLAPPING_REGIONS, "ZE_RESULT_ERROR_OVERLAPPING_REGIONS")
  ]

  /** zes_temp_sensor_str: the six zes_temp_sensors_t values. */
  const ZesTempSensorStr: seq<CodeString> := [
    CodeString(ZES_TEMP_SENSORS_GLOBAL, "ZES_TEMP_SENSORS_GLOBAL"),
    CodeString(ZES_TEMP_SENSORS_GPU, "ZES_TEMP_SENSORS_GPU"),
    CodeString(ZES_TEMP_SENSORS_MEMORY, "ZES_TEMP_SENSORS_MEMORY"),
    CodeString(ZES_TEMP_SENSORS_GLOBAL_MIN, "ZES_TEMP_SENSORS_GLOBAL_MIN"),
    CodeString(ZES_TEMP_SENSORS_GPU_MIN, "ZES_TEMP_SENSORS_GPU_MIN"),
    CodeString(ZES_TEMP_SENSORS_MEMORY_MIN, "ZES_TEMP_SENSORS_MEMORY_MIN")
  ]

  /** The name a front-to-back scan of `table` finds for `code`. */
  function NameOf(table: seq<CodeString>, code: int): (name: string)
    ensures name == Unknown || exists i :: 0 <= i < |table| && table[i].str == name
  {
    if table == [] then Unknown
    else if table[0].no == code then table[0].str
    else NameOf(table[1..], code)
  }

  /** The scan returns the name of the first entry carrying `code`. */
  lemma {:induction false} NameOfFirstMatch(table: seq<CodeString>, code: int, i: nat)
    requires i < |table| && table[i].no == code
    requires forall j :: 0 <= j < i ==> table[j].no != code
    ensures NameOf(table, code) == table[i].str
  {
    if i > 0 {
      NameOfFirstMatch(table[1..], code, i - 1);
    }
  }

  /** The scan returns "UNKNOWN" exactly when no entry carries `code`. */
  lemma {:induction false} NameOfNoMatch(table: seq<CodeString>, code: int)
    requires forall j :: 0 <= j < |table| ==> table[j].no != code
    ensures NameOf(table, code) == Unknown
  {
    if table != [] {
      NameOfNoMatch(table[1..], code);
    }
  }

  /** The front-to-back loop shared by str_ze_result_t and str_zes_temp_sensors_t. */
  method Lookup(table: seq<CodeString>, code: int) returns (s: string)
    ensures s == NameOf(table, code)
  {
    var n := |table|;
    var i := 0;
    while i < n
      invariant 0 <= i <= n
      invariant NameOf(table[i..], code) == NameOf(table, code)
    {
      if table[i].no == code {
        return table[i].str;
      }
      assert table[i..][1..] == table[i + 1..];
      i := i + 1;
    }
    return Unknown;
  }

  /** str_ze_result_t */
  method StrZeResult(code: int) returns (s: string)
    ensures s == NameOf(ZeErrCodeStr, code)
    ensures (forall j :: 0 <= j < |ZeErrCodeStr| ==> ZeErrCodeStr[j].no != code) ==> s == Unknown
  {
    s := Lookup(ZeErrCodeStr, code);
    if forall j :: 0 <= j < |ZeErrCodeStr| ==> ZeErrCodeStr[j].no != code {
      NameOfNoMatch(ZeErrCodeStr, code);
    }
  }

  /** str_zes_temp_sensors_t */
  method StrZesTempSensors(code: int) returns (s: string)
    ensures s == NameOf(ZesTempSensorStr, code)
    ensures (forall j :: 0 <= j < |ZesTempSensorStr| ==> ZesTempSensorStr[j].no != code) ==> s == Unknown
  {
    s := Lookup(ZesTempSensorStr, code);
    if forall j :: 0 <= j < |ZesTempSensorStr| ==> ZesTempSensorStr[j].no != code {
      NameOfNoMatch(ZesTempSensorStr, code);
    }
  }

  /** No two entries of a table carry the same code. */
  predicate CodesDistinct(table: seq<CodeString>) {
    forall i, j :: 0 <= i < j < |table| ==> table[i].no != table[j].no
  }

  /** Each entry's code is larger than the one before it, as in both tables. */
  predicate CodesAscending(table: seq<CodeString>) {
    forall i :: 0 <= i < |table| - 1 ==> table[i].no < table[i + 1].no
  }

  lemma {:induction false} AscendingBounds(table: seq<CodeString>, i: nat, j: nat)
    requires CodesAscending(table) && i < j < |table|
    ensures table[i].no < table[j].no
    decreases j - i
  {
    if i + 1 < j {
      AscendingBounds(table, i + 1, j);
    }
  }

  lemma AscendingDistinct(table: seq<CodeString>)
    requires CodesAscending(table)
    ensures CodesDistinct(table)
  {
    forall i, j | 0 <= i < j < |table| ensures table[i].no != table[j].no {
      AscendingBounds(table, i, j);
    }
  }

  /** In a table without duplicate codes, every entry's code maps back to its own name. */
  lemma NameOfDistinctTable(table: seq<CodeString>, i: nat)
    requires CodesDistinct(table) && i < |table|
    ensures NameOf(table, table[i].no) == table[i].str
  {
    NameOfFirstMatch(table, table[i].no, i);
  }

  /** A code above the last entry of an ascending table has no name. */
  lemma AboveAscendingTable(table: seq<CodeString>, code: int)
    requires CodesAscending(table) && table != [] && code > table[|table| - 1].no
    ensures NameOf(table, code) == Unknown
  {
    forall j | 0 <= j < |table| ensures table[j].no != code {
      if j < |table| - 1 {
        AscendingBounds(table, j, |table| - 1);
      }
    }
    NameOfNoMatch(table, code);
  }

  /** The error table is duplicate-free, so each of its 38 codes names itself. */
  lemma ErrTableWellFormed()
    ensures |ZeErrCodeStr| == 38 && CodesDistinct(ZeErrCodeStr)
    ensures forall i :: 0 <= i < |ZeErrCodeStr| ==> NameOf(ZeErrCodeStr, ZeErrCodeStr[i].no) == ZeErrCodeStr[i].str
  {
    assert CodesAscending(ZeErrCodeStr);
    AscendingDistinct(ZeErrCodeStr);
    forall i | 0 <= i < |ZeErrCodeStr|
      ensures NameOf(ZeErrCodeStr, ZeErrCodeStr[i].no) == ZeErrCodeStr[i].str
    {
      NameOfDistinctTable(ZeErrCodeStr, i);
    }
  }

  /** The sensor table is duplicate-free, so each of its six codes names itself. */
  lemma SensorTableWellFormed()
    ensures |ZesTempSensorStr| == 6 && CodesDistinct(ZesTempSensorStr)
    ensures forall i :: 0 <= i < |ZesTempSensorStr| ==> ZesTempSensorStr[i].no == i
    ensures forall i :: 0 <= i < |ZesTempSensorStr| ==> NameOf(ZesTempSensorStr, i) == ZesTempSensorStr[i].str
  {
    assert CodesAscending(ZesTempSensorStr);
    AscendingDistinct(ZesTempSensorStr);
    forall i | 0 <= i < |ZesTempSensorStr|
      ensures NameOf(ZesTempSensorStr, i) == ZesTempSensorStr[i].str
    {
      NameOfDistinctTable(ZesTempSensorStr, i);
    }
  }

  /** The out-of-table error code the file's demo prints comes back as "UNKNOWN". */
  lemma DemoErrCodeUnknown()
    ensures NameOf(ZeErrCodeStr, ZE_RESULT_ERROR_OVERLAPPING_REGIONS + 1) == Unknown
  {
    assert CodesAscending(ZeErrCodeStr);
    AboveAscendingTable(ZeErrCodeStr, ZE_RESULT_ERROR_OVERLAPPING_REGIONS + 1);
  }

  /** So does the out-of-table sensor code of the demo. */
  lemma DemoSensorCodeUnknown()
    ensures NameOf(ZesTempSensorStr, ZES_TEMP_SENSORS_MEMORY_MIN + 1) == Unknown
  {
    assert CodesAscending(ZesTempSensorStr);
    AboveAscendingTable(ZesTempSensorStr, ZES_TEMP_SENSORS_MEMORY_MIN + 1);
  }
}
