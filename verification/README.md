# apmidg — a verified model of the Intel GPU power library and the RAPL reader

apmidg (A Power Management Interface for Intel Discrete GPUs) is a thin C
library over the oneAPI Level Zero Sysman interface. At `apmidg_init` it
enumerates the drivers and devices and builds, per device, the handle
arrays of its power domains, frequency domains and temperature sensors. It
takes a first energy sample of every power domain and decides whether power
capping is available. The `apmidg_*` facade functions then answer queries
for one device and one domain. Each writes its "unavailable" sentinel to
every non-null output pointer before it checks that the library is
initialised. The package also ships a table lookup that turns Level Zero
result codes and sensor types into names. The COOLR `rapl_reader` (Python)
reads the CPU RAPL energy counters: it accumulates energy across counter
wrap-around, converts between the long (`package-0/dram`) and short
(`p0/dram`) domain names, and builds the sample report.

The model, one Dafny module per concern:

- `CTypes`: the C integer widths the library relies on. These are the
  `uint64_t` wrap on subtraction, the `int`/`uint32_t` conversions and C's
  truncating `/`.
- `LevelZero`: the Sysman constants and records. Each backend query is an
  input, the `Sysman` record of functions from handle to answer. The
  enumeration seen at start-up is the `Topology` input.
- `ZeStrings`: the two code-to-name tables and their linear lookups.
- `PowerLimits`: the loops over the 10-slot power-limit descriptor buffer,
  on an `array`, each proved against a function on sequences.
- `IdgDevice`: `IDGPowerPerDevice` as a class. It holds the handle arrays,
  the energy window that `sampleenergy` moves, and the power-limit flag
  decided at construction.
- `IdgPower`: `IDGPowerPerDriver` and `IDGPower`. They hold the device and
  driver lists. `getIDGPowerPerDevice` hands out a fresh copy of the
  stored device, as the C++ return by value does.
- `Apmidg`: the facade as a `Library` class. Its fields are the `apmidg`
  singleton pointer and the workaround's one-time message flag. Output
  pointers are `bool`s in and `Option`s out. The writes to the backend
  (`zesPowerSetLimitsExt`, `zesFrequencySetRange`) are returned as values.
  `StoreLimits`/`StoreRange` give the backend after such a write.
- `RaplNames`: `to_shortdn`, `to_longdn` and `shortenkey`. The greedy
  regular-expression matches they use are written out in Dafny.
- `Rapl`: the `rapl_reader` energy accounting as a class. The clock, the
  counter files and the power-limit files are parameters.

## Model

| member | source | states |
|---|---|---|
| CTypes.SubU64 | src/libapmidg/libapmidg.cpp:204-205 | the `uint64_t` difference is the true difference, plus 2^64 when the minuend is smaller |
| CTypes.U32ToInt | src/libapmidg/libapmidg.cpp:367 | `(int)` of a `uint32_t` inverts the `int`-to-`uint32_t` conversion |
| CTypes.CDiv | src/libapmidg/libapmidg.cpp:384 | `stoi(buf) / 1000` truncates toward zero; a positive quotient needs a dividend of at least the divisor |
| Wrappers.Out | src/libapmidg/libapmidg.cpp:363-371 | a write through a null pointer is no output; a non-null pointer carries the value written |
| LevelZero.PropsOrZero | src/libapmidg/libapmidg.cpp:97-98 | a failed `zesPowerGetProperties` leaves the zero-initialised struct |
| ZeStrings.NameOf | apmidg_zmacrostr.cpp:71-78 | the name a lookup returns is "UNKNOWN" or the name of an entry of the table |
| ZeStrings.NameOfFirstMatch | apmidg_zmacrostr.cpp:74-76 | the lookup returns the string of the first entry whose code matches |
| ZeStrings.NameOfNoMatch | apmidg_zmacrostr.cpp:77 | with no matching entry the lookup returns "UNKNOWN" |
| ZeStrings.Lookup | apmidg_zmacrostr.cpp:71-78 | the loop returns exactly the first-match name |
| ZeStrings.StrZeResult | apmidg_zmacrostr.cpp:69-78 | `str_ze_result_t` gives the table name of a code and "UNKNOWN" for a code not in the table |
| ZeStrings.StrZesTempSensors | apmidg_zmacrostr.cpp:80-89 | `str_zes_temp_sensors_t` gives the table name of a sensor type and "UNKNOWN" otherwise |
| ZeStrings.AscendingBounds | apmidg_zmacrostr.cpp:18-57 | in a table with ascending codes, an earlier entry has a smaller code |
| ZeStrings.AscendingDistinct | apmidg_zmacrostr.cpp:18-57 | ascending codes are pairwise distinct |
| ZeStrings.NameOfDistinctTable | apmidg_zmacrostr.cpp:74-76 | in a table with distinct codes, every entry's code looks up its own name |
| ZeStrings.AboveAscendingTable | apmidg_zmacrostr.cpp:77 | a code above the last code of an ascending table is "UNKNOWN" |
| ZeStrings.ErrTableWellFormed | apmidg_zmacrostr.cpp:18-57 | the result-code table has 38 distinct codes, each looking up its own name |
| ZeStrings.SensorTableWellFormed | apmidg_zmacrostr.cpp:59-66 | the sensor table maps codes 0..5 to their own six names |
| ZeStrings.DemoErrCodeUnknown | apmidg_zmacrostr.cpp:95 | the code one past ZE_RESULT_ERROR_OVERLAPPING_REGIONS is "UNKNOWN" |
| ZeStrings.DemoSensorCodeUnknown | apmidg_zmacrostr.cpp:98 | the type one past ZES_TEMP_SENSORS_MEMORY_MIN is "UNKNOWN" |
| PowerLimits.ClampCount | src/libapmidg/libapmidg.cpp:112-115 | a descriptor count above 10 is cut to 10; a count up to 10 is kept |
| PowerLimits.LastSustained | src/libapmidg/libapmidg.cpp:447-456 | the queried limit is -1 or the limit of a SUSTAINED descriptor, and -1 when there is none |
| PowerLimits.WithSustainedLimit | src/libapmidg/libapmidg.cpp:502-511 | the rewrite keeps the length and every level, gives each SUSTAINED descriptor among the first n the new limit, and leaves every other descriptor as it was |
| PowerLimits.LastSustainedIsLast | src/libapmidg/libapmidg.cpp:447-456 | the queried limit is that of the last SUSTAINED descriptor |
| PowerLimits.LastSustainedUniform | src/libapmidg/libapmidg.cpp:450-456 | when all SUSTAINED descriptors carry one limit, that limit is the one queried |
| PowerLimits.SetThenGetSustained | src/libapmidg/libapmidg.cpp:502-511 | after the SUSTAINED descriptors are set to a limit, querying them gives that limit |
| PowerLimits.AnySustained | src/libapmidg/libapmidg.cpp:117-124 | the constructor's loop finds a SUSTAINED descriptor exactly when one is among the first n |
| PowerLimits.QuerySustainedLimit | src/libapmidg/libapmidg.cpp:447-456 | the getpwrlim loop computes the last SUSTAINED limit of the first n descriptors, or -1 |
| PowerLimits.SetSustainedLimits | src/libapmidg/libapmidg.cpp:502-511 | the setpwrlim loop rewrites exactly the SUSTAINED limits among the first n and reports whether there was one |
| IdgDevice.ClampIndex | src/libapmidg/libapmidg.cpp:172-192 | an id outside `[0, count)` (negatives after the unsigned compare too) selects 0 |
| IdgDevice.AverageWatts | src/libapmidg/libapmidg.cpp:195-212 | the average power is never negative and is 0 when the timestamp has not moved |
| IdgDevice.BackwardsTimestampWraps | src/libapmidg/libapmidg.cpp:204 | a timestamp that went backwards divides by the wrapped, positive difference |
| IdgDevice.AverageOfWrappedCounter | src/libapmidg/libapmidg.cpp:204-207 | for a counter that wraps at 2^64, the average is the energy used over the time elapsed |
| IdgDevice.PowerLimitDetected | src/libapmidg/libapmidg.cpp:97-127 | without a power domain the flag is the unassigned member; with one, a domain 0 that cannot be controlled or whose limits query fails is never detected |
| IdgDevice.Device.constructor | src/libapmidg/libapmidg.cpp:55-158 | the device holds the enumerated handles, its window is seeded from a first energy sample, and the power-limit flag is as detected |
| IdgDevice.Device.Copy | src/libapmidg/libapmidg.cpp:266-272 | the copy handed out has every field of the stored device |
| IdgDevice.Device.GetPwrh | src/libapmidg/libapmidg.cpp:172-178 | the handle of the id in range, else of domain 0 |
| IdgDevice.Device.GetFreqh | src/libapmidg/libapmidg.cpp:179-185 | the handle of the id in range, else of domain 0 |
| IdgDevice.Device.GetTemph | src/libapmidg/libapmidg.cpp:186-192 | the handle of the id in range, else of sensor 0 |
| IdgDevice.Device.SampleEnergy | src/libapmidg/libapmidg.cpp:195-212 | returns the counter read and the average over the window, then moves that domain's window to the counter and changes nothing else |
| IdgDevice.DetectionIgnoresBackendDescriptors | src/libapmidg/libapmidg.cpp:104-124 | the constructor inspects its own never-filled stack buffer, so a backend holding a SUSTAINED limit is not detected |
| IdgPower.DeviceSlot | src/libapmidg/libapmidg.cpp:266-272 | a device id past the end selects device 0; an id in range selects itself |
| IdgPower.Driver.constructor | src/libapmidg/libapmidg.cpp:224-250 | one fresh device per enumerated device, in order, built from that device's description |
| IdgPower.Driver.GetNDevs | src/libapmidg/libapmidg.cpp:264 | the device count is positive and fits an `int` |
| IdgPower.Driver.GetDevice | src/libapmidg/libapmidg.cpp:266-272 | a fresh copy of the device at the clamped id |
| IdgPower.IdgPower.Selected | src/libapmidg/libapmidg.cpp:319-322 | the selected driver's device at the clamped id |
| IdgPower.IdgPower.constructor | src/libapmidg/libapmidg.cpp:284-313 | one driver per enumerated driver, each mirroring its devices; driver 0 selected; enabled |
| IdgPower.IdgPower.GetDevice | src/libapmidg/libapmidg.cpp:320-322 | a fresh copy of the selected driver's device |
| Apmidg.WorkaroundMaxLimit | src/libapmidg/libapmidg.cpp:379-384 | -1 when power1_max_default cannot be opened; otherwise its uW value divided by 1000, truncated toward zero |
| Apmidg.WorkaroundApplies | src/libapmidg/libapmidg.cpp:385-392 | the default-limit workaround fires exactly when a canctrl pointer is passed, the default is -1 and the file holds at least 1000 uW |
| Apmidg.Descriptors | src/libapmidg/libapmidg.cpp:435-439 | a failed limits query copies no descriptors |
| Apmidg.SustainedLimitOf | src/libapmidg/libapmidg.cpp:415-463 | the limit read back is -1 or positive, and -1 when power limits are disabled |
| Apmidg.SustainedWriteOf | src/libapmidg/libapmidg.cpp:465-519 | no write when power limits are disabled; any write goes to the selected domain's handle |
| Apmidg.SetThenGetPowerLimit | src/libapmidg/libapmidg.cpp:415-519 | setting a sustained limit and reading it back gives the limit, or -1 for a limit that is not positive |
| Apmidg.SensorTypeStr | src/libapmidg/libapmidg.cpp:670-679 | the sensor type's name without its prefix for types 0..5, "UNKNOWN" for any other type |
| Apmidg.Library.constructor | src/libapmidg/libapmidg.cpp:326 | the library starts uninitialised with the message not yet shown |
| Apmidg.Library.Init | src/libapmidg/libapmidg.cpp:698-726 | a second init returns -1 and keeps the instance; the first returns 0 with a fresh instance mirroring the enumeration |
| Apmidg.Library.Finish | src/libapmidg/libapmidg.cpp:728-732 | afterwards the library is uninitialised |
| Apmidg.Library.GetNDevs | src/libapmidg/libapmidg.cpp:336-339 | -1 exactly when uninitialised, otherwise a positive count |
| Apmidg.Library.GetNPwrDoms | src/libapmidg/libapmidg.cpp:341-345 | -1 exactly when uninitialised, otherwise the selected device's power-domain count |
| Apmidg.Library.GetNFreqDoms | src/libapmidg/libapmidg.cpp:554-559 | -1 exactly when uninitialised, otherwise the selected device's frequency-domain count |
| Apmidg.Library.GetNTempSensors | src/libapmidg/libapmidg.cpp:642-647 | -1 exactly when uninitialised, otherwise the selected device's sensor count |
| Apmidg.Library.GetPwrProps | src/libapmidg/libapmidg.cpp:347-393 | -1 to every pointer before init; otherwise the properties (zeros on failure), the default limit replaced under the workaround guard, the message flag set when it fires |
| Apmidg.Library.GetPwrLim | src/libapmidg/libapmidg.cpp:415-463 | -1 before init; otherwise the last positive sustained limit or -1 |
| Apmidg.Library.SetPwrLim | src/libapmidg/libapmidg.cpp:465-519 | no write before init; otherwise the sustained-limit write |
| Apmidg.Library.PowercapTest | src/testlibapmidg/testlibapmidg.c:35-42 | the limit read back after a set is the target, or -1 for a target that is not positive |
| Apmidg.Library.ReadEnergy | src/libapmidg/libapmidg.cpp:521-535 | UINT64_MAX before init; otherwise the domain's counter and timestamp |
| Apmidg.Library.ReadPowerAvg | src/libapmidg/libapmidg.cpp:537-551 | 0.0 before init; otherwise the average since the stored window |
| Apmidg.Library.PollTwice | src/libapmidg/libapmidg.cpp:537-551 | two polls are both measured from the same stored window, since only a copy's window moves |
| Apmidg.Library.GetFreqProps | src/libapmidg/libapmidg.cpp:562-586 | -1 to every pointer before init; otherwise the frequency properties |
| Apmidg.Library.GetFreqLims | src/libapmidg/libapmidg.cpp:588-605 | -1.0 before init; otherwise the domain's range |
| Apmidg.Library.SetFreqLims | src/libapmidg/libapmidg.cpp:607-624 | no write before init; otherwise the range write to the domain's handle |
| Apmidg.Library.FreqLimsRoundTrip | src/libapmidg/libapmidg.cpp:588-624 | setting a frequency range and reading it back gives the range set |
| Apmidg.Library.ReadFreq | src/libapmidg/libapmidg.cpp:626-639 | -1.0 before init; otherwise the actual frequency |
| Apmidg.Library.GetTempProps | src/libapmidg/libapmidg.cpp:649-668 | -1 to every pointer before init; otherwise the sensor properties |
| Apmidg.Library.ReadTemp | src/libapmidg/libapmidg.cpp:682-695 | nothing without a pointer; -1.0 before init or when the state query writes nothing; otherwise the temperature |
| Apmidg.FetchLimits | src/libapmidg/libapmidg.cpp:433-445 | the 10-slot buffer holds exactly the descriptors the backend returned |
| Apmidg.CountsFollowEnumeration | src/libapmidg/libapmidg.cpp:264-272 | after init every count is the enumerated length, and an id past the end reports device 0's counts |
| RaplNames.Span | src/pyapmidg/clr_rapl.py:56-57 | a greedy run of one character class: all its characters match and the next does not |
| RaplNames.SpanOfRun | src/pyapmidg/clr_rapl.py:56-57 | the greedy run over a matching block followed by a non-matching character is that block |
| RaplNames.NatToDecimal | src/pyapmidg/clr_rapl.py:482 | `'%d' %` of a number is non-empty digits without a leading zero |
| RaplNames.DecimalRoundTrip | src/pyapmidg/clr_rapl.py:482 | `int()` of the formatted number is the number |
| RaplNames.MatchDomain | src/pyapmidg/clr_rapl.py:56-57 | a match is a prefix of the name: the literal, one or more digits, then an optional `/`-tail |
| RaplNames.MatchLong | src/pyapmidg/clr_rapl.py:56 | `re_domain_long` matches exactly the names that start with "package-" followed by a digit |
| RaplNames.MatchShort | src/pyapmidg/clr_rapl.py:57 | `re_domain_short` matches exactly the names that start with "p" followed by a digit |
| RaplNames.TailGroup | src/pyapmidg/clr_rapl.py:56-57 | the optional group is empty or a `/` followed by at least one character, and is a prefix of the rest |
| RaplNames.ToShortDn | src/pyapmidg/clr_rapl.py:473-488 | a name the long pattern does not match is unchanged; a matching one starts with "p" |
| RaplNames.ToLongDn | src/pyapmidg/clr_rapl.py:490-504 | a name the short pattern does not match is unchanged; a matching one starts with "package-" |
| RaplNames.MatchOfDigits | src/pyapmidg/clr_rapl.py:56-57 | the pattern matches the digits up to the first non-digit, then the tail |
| RaplNames.TailOfSuffix | src/pyapmidg/clr_rapl.py:56-57 | the tail group takes a whole `/subdomain` suffix |
| RaplNames.MatchOfName | src/pyapmidg/clr_rapl.py:56-57 | a name built from digits and a suffix matches with exactly those groups |
| RaplNames.LongToShort | src/pyapmidg/clr_rapl.py:473-488 | a canonical long name shortens to the short name with the same number and subdomain |
| RaplNames.ShortToLong | src/pyapmidg/clr_rapl.py:490-504 | a canonical short name lengthens to the long name with the same number and subdomain |
| RaplNames.ShortStaysShort | src/pyapmidg/clr_rapl.py:473-480 | a short name does not match the long pattern and is returned unchanged |
| RaplNames.LongStaysLong | src/pyapmidg/clr_rapl.py:490-497 | a long name does not match the short pattern and is returned unchanged |
| RaplNames.LongShortRoundTrip | src/pyapmidg/clr_rapl.py:473-504 | long and short names convert into each other, and each conversion leaves the other form unchanged |
| RaplNames.CanonicalRoundTrip | src/pyapmidg/clr_rapl.py:634-644 | a one-digit long name survives a short-then-long conversion |
| RaplNames.TestConvPackage | src/pyapmidg/clr_rapl.py:634-644 | "package-1" round-trips |
| RaplNames.TestConvDram | src/pyapmidg/clr_rapl.py:634-644 | "package-3/dram" round-trips |
| RaplNames.TestConvCore | src/pyapmidg/clr_rapl.py:634-644 | "package-2/core" round-trips |
| RaplNames.LeadingZeroNormalised | src/pyapmidg/clr_rapl.py:482 | "package-01" shortens to "p1" and comes back as "package-1" |
| RaplNames.ReplaceAll | src/pyapmidg/clr_rapl.py:197 | `str.replace`: an occurrence at the start is replaced, and a replacement no longer than the pattern never lengthens the string |
| RaplNames.ShortenKey | src/pyapmidg/clr_rapl.py:195-197 | a key starting with "package-" starts with "p" afterwards, and no key grows |
| RaplNames.ReplaceAllAbsent | src/pyapmidg/clr_rapl.py:195-197 | replacing a pattern that does not occur leaves the string unchanged |
| RaplNames.ShortenKeyOfLong | src/pyapmidg/clr_rapl.py:195-197 | `shortenkey` of "package-" plus a dash-free body is "p" plus that body |
| RaplNames.ShortenKeyOfLongName | src/pyapmidg/clr_rapl.py:195-197 | `shortenkey` of a canonical long name with a dash-free subdomain is its short name |
| RaplNames.ShortenKeyIsToShortDn | src/pyapmidg/clr_rapl.py:195-197 | on a canonical long name, `shortenkey` agrees with `to_shortdn` |
| RaplNames.FindFrom | src/pyapmidg/clr_rapl.py:380 | the first occurrence at or after a position, or -1 when there is none |
| RaplNames.Find | src/pyapmidg/clr_rapl.py:380 | `str.find`: -1 exactly when the substring does not occur, else the lowest position where it does |
| RaplNames.FindMissingChar | src/pyapmidg/clr_rapl.py:380 | a substring with a character the string lacks is not found |
| RaplNames.FirstOccurrence | src/pyapmidg/clr_rapl.py:380 | `find` reports the occurrence right after a prefix that cannot start one |
| RaplNames.CoreFilter | src/pyapmidg/clr_rapl.py:380 | "package-0" and "package-0/dram" lack "core"; "/core" and "/uncore" names contain it |
| Rapl.WrapDelta | src/pyapmidg/clr_rapl.py:264-268 | the plain difference when the counter grew, `max - prev + now` when it went down, never negative for counters in range |
| Rapl.WrapDeltaRecovers | src/pyapmidg/clr_rapl.py:264-268 | for a counter wrapping at its range, the delta is the energy used when less than one range was used |
| Rapl.ShortKeyed | src/pyapmidg/clr_rapl.py:369-371 | the report's keys are the short forms of the domains |
| Rapl.ShortKeyedLookup | src/pyapmidg/clr_rapl.py:369-371 | a domain's short key holds its own value unless a later domain shares that short key |
| Rapl.NonCoreTotal | src/pyapmidg/clr_rapl.py:374-382 | the total is 0 when every domain's name contains "core" |
| Rapl.NonCoreTotalIgnoresCore | src/pyapmidg/clr_rapl.py:374-382 | the total does not depend on the powers of domains whose name contains "core" |
| Rapl.NonCoreTotalBounds | src/pyapmidg/clr_rapl.py:374-382 | with non-negative powers the total is between 0 and the sum over all domains |
| Rapl.TotalOfFour | src/pyapmidg/clr_rapl.py:374-382 | over four domains, the total sums the two without "core" |
| Rapl.TotalOfOnePackage | src/pyapmidg/clr_rapl.py:374-382 | with core, dram and uncore subdomains the total is package plus dram: "uncore" counts as core |
| Rapl.Watts | src/pyapmidg/clr_rapl.py:334 | the power of a non-negative energy over a positive interval is non-negative |
| Rapl.RaplReader.constructor | src/pyapmidg/clr_rapl.py:123-189 | an initialised reader starts with a fresh reference reading and zero totals and powers |
| Rapl.RaplReader.ReadEnergy | src/pyapmidg/clr_rapl.py:199-216 | nothing before init; otherwise the clock and exactly one counter per domain |
| Rapl.RaplReader.DiffEnergy | src/pyapmidg/clr_rapl.py:252-270 | the elapsed time and, per domain, the wrap-aware delta |
| Rapl.RaplReader.StartEnergyCounter | src/pyapmidg/clr_rapl.py:303-318 | nothing before init; otherwise a new reference reading and zero totals and powers for every domain |
| Rapl.RaplReader.Advance | src/pyapmidg/clr_rapl.py:355-365 | the shared update: the new reference is the fresh reading; each total grows by the wrap-aware delta when accumulating; each power is that delta over the interval |
| Rapl.AccountLoop | src/pyapmidg/clr_rapl.py:330-335 | the per-domain loop changes no key set, adds each delta under `acc`, and sets each power from the delta |
| Rapl.AccountDelta | src/pyapmidg/clr_rapl.py:330-335 | with each delta the wrap-aware difference of the counter against the reference, each total grows by it under `acc` and each power is it over the elapsed time |
| Rapl.RaplReader.ReadEnergyAcc | src/pyapmidg/clr_rapl.py:321-337 | returns the reading, adds each wrap-aware delta to the totals, records the powers, and moves the reference |
| Rapl.RaplReader.Sample | src/pyapmidg/clr_rapl.py:349-389 | the same update with totals moved only under `accflag`, and a report: short-keyed energies, powers with the non-core "total", and power caps |
| Rapl.RaplReader.CapWatts | src/pyapmidg/clr_rapl.py:237-240 | one cap per domain, its `curW` |
| Rapl.ShortKeyedLoop | src/pyapmidg/clr_rapl.py:368-371 | the report loop builds exactly the short-keyed map |
| Rapl.PowerReport | src/pyapmidg/clr_rapl.py:373-382 | the power loop builds the short-keyed powers, then overwrites "total" with the non-core sum |

## Left out

- Level Zero itself: `zeInit`, `zeDriverGet`, `zeDeviceGet` and the Sysman calls are not modelled. Their answers are inputs (`Sysman`, `Topology`).
- A Sysman call that fails is taken to leave its out-parameters untouched. So a failed properties query leaves the zeroed struct, and a failed limits query leaves a count of 0.
- Enumeration failures terminate the process in the source (`_ZE_ERROR_MSG`). The model requires a well-formed enumeration instead: at least one driver, one device per driver, and counts below 2^31.
- A negative `devid` indexes before the device vector, which is undefined behaviour. It is excluded by a precondition.
- A domain id on a device with no domain of that kind is undefined behaviour. It is excluded by a precondition.
- IdgDevice.Device.SampleEnergy, Apmidg.Library.ReadEnergy, Apmidg.Library.ReadPowerAvg and Apmidg.Library.PollTwice require `0 <= pwrid < npwrdoms`. `getpwrh` clamps an out-of-range id to 0, but `sampleenergy` then indexes the window vectors `prev_ts_us` and `prev_energy_uj` with the unclamped id. That is undefined behaviour, so these two facade calls do not clamp like the others.
- A limits query holding more than 10 descriptors overflows the stack buffer. It is excluded by `LimitCallDefined`.
- The power-limit detection reads the constructor's never-filled stack buffer. It also reads the `bool` member left unassigned when there is no power domain. Both are indeterminate memory, taken as inputs of the device description.
- `apmidg_getpwrprops` reads power1_max_default from a file, and `stoi` throws on content that is not a number. Only the value is modelled, as an `Option<Int32>`: `None` stands for a file that cannot be opened, and the throw is left out.
- `apmidg_init` sets ZES_ENABLE_SYSMAN in the environment and exits when that fails. This is not modelled.
- The mutex, the logging and the `std::cout` warnings are not modelled, and neither are `getVersion`, `prlevel` or the disabled old-API blocks.
- Frequencies, temperatures, power averages and the Python floats are modelled as exact reals. `double` rounding is not modelled.
- `Rapl.RaplReader.constructor`: the sysfs scan of `__init__` is not modelled. The reader is given whether the RAPL directory exists, the domain list and the ranges. The scan finds names matching `package-N` with `core`/`dram` subdomains and sorts them. Missing range files exit the process.
- `Rapl.RaplReader.constructor`: the order of the domain list is an input, and nothing requires it to be sorted. The report's short keys are filled in that order, so when two domains share a short key the later one's value is kept (`ShortKeyedLookup`).
- `Rapl.RaplReader.ReadEnergy`: `readint` retries and returns -1 on failure. The counter readings are an arbitrary input function, which covers that.
- `Rapl.RaplReader.StartEnergyCounter`: the source reads the clock twice (`start_time_e`, then the reading). The model uses one instant `now`.
- `Rapl.RaplReader.ReadEnergyAcc` and `Rapl.RaplReader.Sample` require a non-zero elapsed time when there is at least one domain. In the source a zero interval then raises ZeroDivisionError; with no domain nothing is divided, and the model allows it.
- `Rapl.RaplReader.Sample`: only `curW` of `readpowerlimitall` is modelled, as the sample report uses nothing else. `maxW` and `enabled` are not modelled.
- `stop_energy_counter`, the dry-run mode, the power-capping setters, `calcpower` and the JSON formatter of `rapl_reader` are not part of this model. The same holds for the `pyapmidg` ctypes wrapper and the C example programs.
- `RaplNames.IsDigit`: Python's `\d` also matches non-ASCII decimal digits. The model takes the ASCII digits only.
- `RaplNames.CanonicalRoundTrip`: the round trip is proved for one-digit package numbers. The general statement is `LongShortRoundTrip`.
