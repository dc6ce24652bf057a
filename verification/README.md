# U30 scaler plugin load calculation, modelled in Dafny

The Xilinx resource manager asks its U30 scaler plugin how much of one
scaler device a request would use. The plugin reads the request (a job
count and a list of resource descriptors) into records, prices every
SCALER descriptor as one session, and sums the session loads. It then
reconciles the sum with two caller-declared overrides and replies
`"<load> <count>"`.

This project models that core:

| file | module | models |
|---|---|---|
| `scaler_types.dfy` | `ScalerTypes` | `FrameRate`, `Resolution`, `ResourceData`, `ParamsData`, `MAX_OUT_ELEMENTS`, `U30_SCAL_MAXCAPACITY` |
| `property_tree.dfy` | `PropertyTree` | the request tree and its lookups (`find`, `get_child`, `get<std::string>`, `get<int32_t>`) |
| `decimal.dfy` | `Decimal` | reading a stored value as an `int32_t`; `%d` printing |
| `request_parser.dfy` | `RequestParser` | `_populate_data` |
| `load_calculator.dfy` | `LoadCalculator` | the loops of `xrmU30ScalPlugin_CalcPercent` |
| `ladder_finding.dfy` | `LadderFinding` | the ladder pixel rate that is carried across sessions (see Findings) |
| `scaler_plugin.dfy` | `ScalerPlugin` | the entry point and its reply text |
| `wrappers.dfy` | `Wrappers` | `Option` |

The request tree is a node with a text value and an ordered list of keyed
children. A list element is a child with the empty key. `find` returns the
first child with a key. A path is a sequence of keys.

The parser is a loop method, `PopulateData`. It is proved against the
functions `ParamsOf`, `ResourceOf` and `RequestOf`. On failure it stops at
the first bad part and keeps the records it had already appended, as the
source does.

The calculation is the method `ComputeLoad`. It keeps a
`MAX_OUT_ELEMENTS`-slot array of session loads and the loop-carried
`ladder_pixrate`. It is proved equal to the function `Calculate`, and the
lemmas state their properties about `Calculate`.

The arithmetic uses mathematical integers. The `requires` clauses
(`CalcDomain`, `ResolutionOk`, `ScalerOk`) make each per-plane product and
each per-resource term exact:
- `width * height` is a non-negative `int32_t`, so its unsigned conversion keeps its value;
- no negative numerator meets an unsigned conversion, and every denominator is positive;
- the unsigned 32-bit pixel-rate product does not wrap;
- these conditions apply to the input and to every output the code reads: all but the last of a ladder of several outputs, or the only output;
- `channel_load * 1000000` fits an `int`;
- every SCALER has at least one output, because the code reads `out_res[0]` without checking;
- there are at most 64 SCALERs, because the code does not bound-check `calc_percentage[idx]`.

The code has no checks for an empty output list, a zero denominator,
overflow or more than 64 sessions, so the model states these cases as
preconditions. These preconditions do not bound the sums over sessions: the
carried ladder, `calc_load` converted to `int`, `calc_aggregate` and
`parse_aggregate` can still overflow inside the domain. The model gives
their mathematical values (see the `ComputeLoad` lines under "## Left out").

On a parse failure, the code keeps the records appended before the failure,
and so does the model. The caller then returns the error status anyway.

## Model

| member | source | states |
|---|---|---|
| `ScalerTypes.CapacityValue` | filter-scaler-xrm-plg-u30.hpp:40 | the device capacity is 3840·2160·60·2 = 995328000, which is positive, so the load division is defined |
| `PropertyTree.Find` | filter-scaler-xrm-plg-u30.cpp:38 | `find` fails exactly when no child has the key; otherwise it returns the first child with that key |
| `PropertyTree.OptionalInt` | filter-scaler-xrm-plg-u30.cpp:53-57 | an optional integer field is the default when absent; when present, it is the field's value read as an `int32_t`, which may fail |
| `Decimal.ReadShowInt32` | filter-scaler-xrm-plg-u30.cpp:59-62 | every `int32_t` printed in decimal reads back as itself |
| `RequestParser.JobCountDefault` | filter-scaler-xrm-plg-u30.cpp:38-41 | without `job-count`, the parameter record holds -1 |
| `RequestParser.LoadDefaults` | filter-scaler-xrm-plg-u30.cpp:53-69 | without `channel-load` the channel load is 0; without `lookahead-load` the lookahead load is 0 |
| `RequestParser.ResourceFields` | filter-scaler-xrm-plg-u30.cpp:51-83 | a parsed descriptor holds its `function`, `format`, `channel-load` (as read, or 0 when absent) and input resolution; an ENCODER holds its `lookahead-load` as read (or 0 when absent); the lookahead load is 0 unless the descriptor is an ENCODER; the outputs are empty unless it is a SCALER, and for a SCALER they are the output list read in order |
| `RequestParser.ResourceOfDefined` | filter-scaler-xrm-plg-u30.cpp:51-83 | a descriptor parses if and only if its required fields are present and well-typed, its optional fields are absent or well-typed, an ENCODER's `lookahead-load` is absent or well-typed, and a SCALER's output list parses |
| `RequestParser.ReadEachPointwise` | filter-scaler-xrm-plg-u30.cpp:73-82 | a list parses if and only if every element parses; the result has one entry per element, in document order |
| `RequestParser.RequestOfAtomic` | filter-scaler-xrm-plg-u30.cpp:32-93 | a request parses if and only if its parameters, its resource list and every resource parse; the resources keep document order |
| `RequestParser.PopulateResource` | filter-scaler-xrm-plg-u30.cpp:49-83 | the descriptor loop succeeds exactly when `ResourceOf` does, and then builds the same record |
| `RequestParser.PopulateData` | filter-scaler-xrm-plg-u30.cpp:24-94 | returns true exactly when the request parses, with the resources in order; appends the parameter record only when the parameters parse; on failure, the resources are the ones that parsed before the first bad element |
| `LoadCalculator.RoundedRateNearest` | filter-scaler-xrm-plg-u30.cpp:154-155 | the frame rate `(num + den/2) / den` is the integer nearest to num/den, with ties rounding up |
| `LoadCalculator.RoundedRateUnique` | filter-scaler-xrm-plg-u30.cpp:161-162 | no other integer is that close, so input and output rates use the nearest-integer function |
| `LoadCalculator.SessionPixelRate` | filter-scaler-xrm-plg-u30.cpp:159-172 | the session pixel rate is never below the input pixel rate and always includes the ladder; with several outputs it is input + ladder; with one output it is the larger of the input pixel rate and the carried ladder plus the output |
| `LoadCalculator.FirstSessionRate` | filter-scaler-xrm-plg-u30.cpp:159-172 | with an empty ladder, a session with several outputs costs input + all outputs but the last; a session with one output costs the larger of input and output |
| `LoadCalculator.SessionLoad` | filter-scaler-xrm-plg-u30.cpp:174-183 | a session load is floor(1000000 · rate / capacity), raised to 1 when that is 0 |
| `LoadCalculator.SessionLoads` | filter-scaler-xrm-plg-u30.cpp:148-187 | the loop stores one load per SCALER, and each is at least 1 |
| `LoadCalculator.Reconcile` | filter-scaler-xrm-plg-u30.cpp:204-219 | the reported load is at least the computed aggregate; a higher value is at most 1000000 and is either the job-count share or the channel aggregate; a positive job count whose share exceeds the aggregate always wins; otherwise (for a non-negative aggregate) the load is the channel aggregate when it exceeds the aggregate and is at most 1000000, and the aggregate itself when not |
| `LoadCalculator.PriceSession` | filter-scaler-xrm-plg-u30.cpp:153-172 | one loop pass adds the session's ladder contribution to the carried ladder and yields the clamped session pixel rate |
| `LoadCalculator.SumSlots` | filter-scaler-xrm-plg-u30.cpp:189-190 | the aggregate is the sum of the first `idx` slots |
| `LoadCalculator.LastJobCount` | filter-scaler-xrm-plg-u30.cpp:198-202 | the job count is the last parameter record's, or -1 when there is none |
| `LoadCalculator.ComputeLoad` | filter-scaler-xrm-plg-u30.cpp:126-221 | with at most 64 SCALER sessions in the 64-slot array, the reply is `Calculate`: the reconciled sum of the session loads and the number of SCALER sessions |
| `LoadCalculator.OnlyScalersMatter` | filter-scaler-xrm-plg-u30.cpp:148-190 | dropping every non-SCALER resource changes none of: the count, the carried ladder, the session loads, the channel aggregate |
| `LoadCalculator.NonScalersIgnored` | filter-scaler-xrm-plg-u30.cpp:148-221 | non-SCALER resources change neither the reported load nor the count |
| `LoadCalculator.ReportedCoversSessions` | filter-scaler-xrm-plg-u30.cpp:183-221 | the count is the number of SCALER resources; the reported load is at least the summed session loads, which is at least the count |
| `LoadCalculator.NoScalerRequest` | filter-scaler-xrm-plg-u30.cpp:204-221 | without SCALER sessions the reply is (0, 0) unless a positive job count makes its share 1000000 / job count the load |
| `LoadCalculator.UnreadTopRung` | filter-scaler-xrm-plg-u30.cpp:159-164 | the last output of a ladder of several is never read: a SCALER from 3840x2160 at 60/1 to [3840x2160 at 60/1, 1920x1080 at 30/0] is in the domain and is answered with load 1000000 and count 1 |
| `LoadCalculator.UhdPassLoad` | filter-scaler-xrm-plg-u30.cpp:153-190 | one SCALER from 3840x2160 at 60/1 to the same has pixel rate 497664000 and is answered with load 500000 and count 1 |
| `LadderFinding.TwoIdenticalSessions` | filter-scaler-xrm-plg-u30.cpp:129-170 | as written, two such sessions report 1500000 for 2; with the ladder reset per session they report 1000000 |
| `LadderFinding.AgreeOnSingleSession` | filter-scaler-xrm-plg-u30.cpp:129-170 | as written and with the reset agree whenever there is at most one SCALER session |
| `LadderFinding.CarriedNotBelowIndependent` | filter-scaler-xrm-plg-u30.cpp:163-172 | the carried ladder never makes a session cheaper than it is on its own |
| `LadderFinding.IndependentLoadsAppend` | filter-scaler-xrm-plg-u30.cpp:159-171 | with the reset, the session loads of a request are the loads of its first part followed by those of its second part |
| `LadderFinding.AggregateAdditive` | filter-scaler-xrm-plg-u30.cpp:189-190 | with the reset, the summed load of a request is the sum over its parts |
| `ScalerPlugin.CalcPercent` | filter-scaler-xrm-plg-u30.cpp:122-225 | the entry point fails exactly when the request does not parse; otherwise it replies `Calculate` of the parsed parameter record and resources |
| `ScalerPlugin.RenderReadsBack` | filter-scaler-xrm-plg-u30.cpp:212-222 | the reply text is two tokens separated by the only space, and they read back as the load and the count |
| `ScalerPlugin.ResolutionTreeReads` | filter-scaler-xrm-plg-u30.cpp:77-80 | a resolution object holding the decimal text of four integers reads back as those integers |
| `ScalerPlugin.UhdPassReply` | filter-scaler-xrm-plg-u30.cpp:122-225 | the request tree with one SCALER from 3840x2160 at 60/1 to the same, and no job count, parses to that one record and is answered `"500000 1"` |

## Left out

- Parsing JSON text (`read_json`) is not modelled. The model starts from the tree. A malformed document throws outside the `try` block, and that path is not modelled either.
- Paths are sequences of keys. Splitting the dotted path strings is not modelled. A trailing dot, as in `resources.`, names the same node as the path without it.
- ReadInt32: the stream extraction behind `get<int32_t>` also accepts whitespace around the number. The model rejects such values.
- The `syslog` diagnostics are not modelled. They are output only.
- The C buffers are not modelled: the reply is built with `sprintf` and `strcat` in the caller's buffer and the `temp[1024]` buffer. The reply is a pair of integers, and `Render` gives its text.
- The `long double` arithmetic is exact floor division in the model. For the loads in range, the quotient stays at least 1/995328000 away from the next integer, which is more than the rounding error of a 64-bit mantissa.
- ComputeLoad: does not model overflow of the carried `uint64_t` ladder, of the `int` conversion of `calc_load`, or of the `int` sums `calc_aggregate` and `parse_aggregate`. The model returns the mathematical values.
- ComputeLoad: inputs outside `CalcDomain` are excluded by precondition. In the source they are undefined behaviour or wrap around. The excluded inputs are: an empty SCALER output list; a denominator ≤ 0, a width and height whose `int` product is negative or overflows, a negative numerator, or a 32-bit pixel-rate product that wraps, in the input or in an output the code reads; a SCALER `channel-load` outside ±2147, whose product with 1000000 overflows `int` (filter-scaler-xrm-plg-u30.cpp:185); and more than 64 SCALER sessions. The last output of a ladder of several is never read and may hold anything.
- `lookahead_load` of a non-ENCODER record is left uninitialised by the source. The model stores 0.
- The records allocated with `new` are never freed by the source. Allocation is not modelled.
- `xrmU30ScalPlugin_api_version`, `xrmU30ScalPlugin_get_plugin_id` and the `xrmPluginData` registration table are constants and plugin plumbing, and are not modelled.

## Findings

| source | as written | input that shows it | evidently intended | confidence | as-written member | corrected member |
|---|---|---|---|---|---|---|
| filter-scaler-xrm-plg-u30.cpp:129-170 | `ladder_pixrate` is declared once before the resource loop and only incremented, so every session after the first is also charged the ladders of the sessions before it | two SCALERs, each from 3840x2160 at 60/1 to one 3840x2160 at 60/1 output, no overrides: reply `"1500000 2"` | the ladder is reset for each session, so the reply is `"1000000 2"` and a request's loads are the loads of its parts | not executed; medium | `LadderFinding.TwoIdenticalSessions` | `LadderFinding.IndependentLoadsAppend` |

The entry point `CalcPercent` and `ComputeLoad` follow the code as
written. `LadderFinding.CorrectedCalculate` is the reply with the ladder
reset for each session. `AgreeOnSingleSession` proves that the two agree
on every request with at most one SCALER session.
