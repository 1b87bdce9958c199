# vosaka-tracer in Dafny

This is a model of the in-process tracing engine of the VOsaka async runtime, which lives in `src/vosaka/vtracer`. It covers these parts:

- the two backed enums, `TraceLevel` and `TraceEventType`;
- the immutable `TraceEvent` record and its fixed-key `toArray` projection;
- the console and file sinks with their shared five-step severity filter;
- the engine `VOsakaTracer`:
  - a handler list, an enabled flag and an active-trace registry;
  - `trace` with per-handler fault isolation;
  - `startTrace` / `endTrace`;
  - the `traceGenerator` wrapper;
- the `VOsakaTracerExtensions` helpers.

Modules, one per file:

| file | module | models |
|---|---|---|
| `results.dfy` | `Results` | Option / Result values |
| `rounding.dfy` | `Rounding` | `round($x, 2)` on exact reals |
| `levels.dfy` | `TraceLevels` | `TraceLevel`, its backing strings and the rank table of `shouldHandle` |
| `event_types.dfy` | `TraceEventTypes` | `TraceEventType` and its backing strings |
| `contexts.dfy` | `Contexts` | string-keyed PHP arrays as ordered entry lists; `$c[$k] = $v` (`Put`) and `array_merge` (`Merge`, `Merge3`) |
| `trace_event.dfy` | `TraceEvents` | `TraceEvent`, id defaulting, `toArray`, `toJson` |
| `console_handler.dfy` | `ConsoleHandlers` | `ConsoleTracerHandler` (class with an output log) |
| `file_handler.dfy` | `FileHandlers` | `FileTracerHandler` (class over the file contents) |
| `handlers.dfy` | `Handlers` | the `TracerHandler` interface as a datatype over the two sinks and a handler outside the model |
| `tracer.dfy` | `Tracer`, `TracerProperties` | `VOsakaTracer` (class) with pure specifications of each operation, and the properties proved about them |
| `generator.dfy` | `TracedGenerators` | `traceGenerator` as a state machine (class `TracedGenerator`) |
| `extensions.dfy` | `TracerExtensions` | `VOsakaTracerExtensions` (class) |

The operations that trace are proved against pure functions of the old state: `Trace`, `StartTrace`, `EndTrace`, the extension helpers and the methods of `TracedGenerator`. Each ensures `View() == XSpec(old(View()), ...)`, where `View()` is the engine's state as an `EngineView` value, and the properties are lemmas about those functions. The setters (`AddHandler`, `Enable`, `Disable`, `ClearActiveTraces`) and the sinks' `Handle` and `Close` state their new fields directly and frame the rest.

Time and id generation are one input, `runtime: nat -> Reading`. It gives the `microtime` / `uniqid` answer for each reading, and the engine counts the readings it has used. The engine's constructor requires that distinct readings give distinct `uniqid` values. From that, the freshness of every `startTrace` id is proved, not assumed.

The engine keeps two ghost logs:
- `emitted`: every event built;
- `invocations`: every handler call, with whether it raised.

`date()`, `json_encode` and the handler code outside the model are inputs:
- the `Formatter` functions;
- each external handler's `raisesOn` oracle;
- the `fopen` outcome.

## Model

| member | source | states |
|---|---|---|
| TraceLevels.AllLevelsComplete | src/vosaka/vtracer/TraceLevel.php:7-14 | the enum is exactly the five distinct cases DEBUG, INFO, WARN, ERROR, CRITICAL |
| TraceLevels.ValueIsCaseName | src/vosaka/vtracer/TraceLevel.php:9-13 | each case's backing string is its case name |
| TraceLevels.ValueInjective | src/vosaka/vtracer/TraceLevel.php:7-13 | distinct levels have distinct backing strings |
| TraceLevels.FromValueRoundTrip | src/vosaka/vtracer/TraceLevel.php:7-13 | mapping a backing string back gives the same case, and a string maps to a level exactly when it is that level's backing string |
| TraceLevels.RankTableHas | src/vosaka/vtracer/ConsoleTracerHandler.php:37-43 | every level's backing string is a key of the rank table, so the lookup in `shouldHandle` never misses |
| TraceLevels.RankTableAgrees | src/vosaka/vtracer/ConsoleTracerHandler.php:37-43 | the table gives DEBUG=0 < INFO=1 < WARN=2 < ERROR=3 < CRITICAL=4 |
| TraceLevels.ShouldHandleIff | src/vosaka/vtracer/ConsoleTracerHandler.php:35-46 | an event is handled if and only if the rank of its level is at least the rank of the minimum level |
| TraceLevels.ShouldHandleMonotone | src/vosaka/vtracer/FileTracerHandler.php:34-45 | raising the level or lowering the minimum never turns an accepted event away |
| TraceLevels.ShouldHandle | src/vosaka/vtracer/ConsoleTracerHandler.php:35-46 | `shouldHandle` of both sinks; `ShouldHandleIff` proves it accepts exactly the levels whose rank reaches the minimum's, and `ShouldHandleMonotone` that it is monotone in both arguments |
| TraceLevels.DebugAcceptsAll | src/vosaka/vtracer/FileTracerHandler.php:13 | with the default minimum level DEBUG every level is accepted |
| TraceEventTypes.AllTypesComplete | src/vosaka/vtracer/TraceEventType.php:7-27 | the enum is exactly eighteen distinct cases |
| TraceEventTypes.ValueIsCaseName | src/vosaka/vtracer/TraceEventType.php:9-26 | each of the eighteen backing strings equals its case name, so every one is a non-empty upper-case-and-underscore word |
| TraceEventTypes.ValueInjective | src/vosaka/vtracer/TraceEventType.php:7-26 | distinct types have distinct backing strings |
| TraceEventTypes.FromValueSound | src/vosaka/vtracer/TraceEventType.php:7-26 | a string that maps to a type is that type's backing string |
| TraceEventTypes.FromValueRoundTrip | src/vosaka/vtracer/TraceEventType.php:7-26 | mapping a backing string back gives the same case, and only that string maps to it |
| TraceEventTypes.ValueFitsTypeColumn | src/vosaka/vtracer/TraceEventType.php:9-26 | every backing string has at most 15 characters |
| Contexts.PutKeys | src/vosaka/vtracer/VOsakaTracerExtensions.php:87-90 | writing a key keeps an existing key in place and appends a new one at the end |
| Contexts.PutLookup | src/vosaka/vtracer/VOsakaTracerExtensions.php:87-90 | after writing, the key reads back the new value and every other key is unchanged |
| Contexts.PutWellFormed | src/vosaka/vtracer/VOsakaTracerExtensions.php:87-90 | writing a key never duplicates a key |
| Contexts.MergeKeys | src/vosaka/vtracer/VOsakaTracer.php:111-113 | the keys of `array_merge` are exactly the keys of either argument |
| Contexts.MergeKeepsOrder | src/vosaka/vtracer/VOsakaTracer.php:111-113 | the first argument's keys come first, in their order, even where overridden |
| Contexts.MergeWellFormed | src/vosaka/vtracer/VOsakaTracer.php:111-113 | the merge never holds a key twice |
| Contexts.MergeLookup | src/vosaka/vtracer/VOsakaTracer.php:111-113 | a key takes the later argument's value when it has one, the earlier one's otherwise |
| Contexts.Merge3Lookup | src/vosaka/vtracer/VOsakaTracer.php:111-113 | the three-argument merge: the last argument that has the key wins |
| Contexts.Put | src/vosaka/vtracer/VOsakaTracerExtensions.php:87-90 | `$c[$k] = $v` on an ordered array; `PutKeys`, `PutLookup` and `PutWellFormed` prove the key order, the lookups and the absence of duplicates afterwards |
| Contexts.Merge | src/vosaka/vtracer/VOsakaTracer.php:111-113 | `array_merge` of two string-keyed arrays; `MergeKeys`, `MergeKeepsOrder`, `MergeWellFormed` and `MergeLookup` prove its keys, their order and that the later value wins |
| Contexts.Merge3 | src/vosaka/vtracer/VOsakaTracer.php:111-113 | the three-argument `array_merge` of `endTrace`; `Merge3Lookup` proves the last argument holding a key decides its value |
| TraceEvents.UniqIdInjective | src/vosaka/vtracer/TraceEvent.php:22-23 | ids generated with the same prefix differ when the readings' unique parts differ |
| TraceEvents.UniqId | src/vosaka/vtracer/TraceEvent.php:22-23 | `uniqid($prefix, true)` for one reading; `UniqIdInjective` and `TraceAndTaskIdsDiffer` prove that distinct readings and distinct prefixes give distinct ids |
| TraceEvents.Seconds | src/vosaka/vtracer/TraceEvent.php:30 | the `(int)` cast; `SecondsTruncates` proves it drops the fraction toward zero |
| TraceEvents.SecondsTruncates | src/vosaka/vtracer/TraceEvent.php:30 | the `(int)` cast truncates toward zero: the result is at most the time and within one second below it for a non-negative time, and at least the time and within one second above it for a negative one |
| TraceEvents.NewEvent | src/vosaka/vtracer/TraceEvent.php:13-24 | the constructor; `IdDefaulting` proves a supplied id is kept verbatim and a missing one is generated with its prefix |
| TraceEvents.TraceAndTaskIdsDiffer | src/vosaka/vtracer/TraceEvent.php:22-23 | a generated trace id never equals a generated task id |
| TraceEvents.IdDefaulting | src/vosaka/vtracer/TraceEvent.php:13-24 | a supplied trace or task id is kept verbatim; a missing one is replaced by a generated id with prefix `trace_` or `task_` |
| TraceEvents.ToArray | src/vosaka/vtracer/TraceEvent.php:26-38 | the projection has exactly the eight keys timestamp, datetime, trace_id, task_id, level, type, message, context, in that order, each once |
| TraceEvents.ToArrayFields | src/vosaka/vtracer/TraceEvent.php:31-36 | `level` and `type` are the backing strings; ids, message and context are the stored fields unchanged |
| TraceEvents.ToArrayDeterminesEvent | src/vosaka/vtracer/TraceEvent.php:26-38 | events with equal projections are equal |
| TraceEvents.ToJsonFromProjection | src/vosaka/vtracer/TraceEvent.php:40-46 | two events with equal projections serialise identically |
| ConsoleHandlers.Spaces | src/vosaka/vtracer/ConsoleTracerHandler.php:24-25 | the padding is `n` spaces |
| ConsoleHandlers.PadRight | src/vosaka/vtracer/ConsoleTracerHandler.php:24-25 | `str_pad` keeps the string as its prefix, pads with spaces to the width and never truncates |
| ConsoleHandlers.Render | src/vosaka/vtracer/ConsoleTracerHandler.php:14-33 | no line below the threshold; otherwise the main line, and the context line exactly when the context is non-empty |
| ConsoleHandlers.ConsoleTracerHandler.constructor | src/vosaka/vtracer/ConsoleTracerHandler.php:9-12 | the defaults are colour on and minimum level DEBUG; nothing is written yet |
| ConsoleHandlers.ConsoleTracerHandler.Handle | src/vosaka/vtracer/ConsoleTracerHandler.php:14-33 | the output grows by exactly the rendered lines of the event |
| ConsoleHandlers.NoColorMeansPlain | src/vosaka/vtracer/ConsoleTracerHandler.php:48-52 | with colour off, the colour prefix and the reset suffix are both empty |
| ConsoleHandlers.ColorsDistinct | src/vosaka/vtracer/ConsoleTracerHandler.php:54-60 | the five levels have five distinct colour codes, none of them the reset code |
| ConsoleHandlers.LevelColumnExact | src/vosaka/vtracer/ConsoleTracerHandler.php:24 | every padded level name is exactly 8 columns wide |
| ConsoleHandlers.TypeColumnExact | src/vosaka/vtracer/ConsoleTracerHandler.php:25 | every padded type name is exactly 15 columns wide |
| ConsoleHandlers.FirstLineColumns | src/vosaka/vtracer/ConsoleTracerHandler.php:20-27 | the level name, the type name and the message sit at fixed offsets after the colour and the bracketed time; the line ends in the reset code and a newline |
| ConsoleHandlers.GetColor | src/vosaka/vtracer/ConsoleTracerHandler.php:48-61 | `getColor`; `NoColorMeansPlain` proves it is empty with colour off and `ColorsDistinct` that the five codes differ from each other and from the reset code |
| ConsoleHandlers.JsonText | src/vosaka/vtracer/ConsoleTracerHandler.php:30-31 | `false` from `json_encode` interpolates as the empty string; used by the context line of `Render` |
| ConsoleHandlers.FirstLine | src/vosaka/vtracer/ConsoleTracerHandler.php:20-27 | the main line; `FirstLineColumns` proves where each field sits |
| ConsoleHandlers.ContextLine | src/vosaka/vtracer/ConsoleTracerHandler.php:29-32 | the context line; `Render` proves it is echoed exactly when the context is non-empty |
| FileHandlers.Appended | src/vosaka/vtracer/FileTracerHandler.php:23-32 | nothing is appended if and only if the event is below the threshold or its encoding fails; otherwise exactly `toJson(event)` and a newline |
| FileHandlers.FileTracerHandler.Open | src/vosaka/vtracer/FileTracerHandler.php:11-21 | a failed open throws a RuntimeException naming the path and yields no handler; a successful one keeps the existing contents (append mode) |
| FileHandlers.FileTracerHandler.Handle | src/vosaka/vtracer/FileTracerHandler.php:23-32 | the contents grow by exactly one record (or nothing), and what was appended is flushed |
| FileHandlers.FileTracerHandler.Close | src/vosaka/vtracer/FileTracerHandler.php:47-52 | the handle is closed once, and only if it was open |
| Handlers.ExternalHandler.Handle | src/vosaka/vtracer/TracerHandler.php:7-10 | a handler outside the model receives the event and raises as its oracle says |
| Handlers.Handle | src/vosaka/vtracer/TracerHandler.php:9 | calling `handle` on any handler changes only that handler's own state, as the sink's own `handle` specifies |
| Tracer.Dispatch | src/vosaka/vtracer/VOsakaTracer.php:71-77 | one handler call per handler, in list order, with the event and whether that handler raised |
| Tracer.TraceSpec | src/vosaka/vtracer/VOsakaTracer.php:50-78 | the effect of `trace`; `TraceDispatchesToEveryHandler`, `DisabledTracesAreNoops` and `EnabledTracesDispatch` prove one event and one call per handler when enabled, nothing when disabled |
| Tracer.StartSpec | src/vosaka/vtracer/VOsakaTracer.php:80-98 | the effect of `startTrace`; `StartTraceRegisters` proves the fresh registration and the TASK_SPAWN event |
| Tracer.EndSpec | src/vosaka/vtracer/VOsakaTracer.php:100-124 | the effect of `endTrace`; `EndTraceUnknownIsNoop`, `EndTraceCompletes` and `EndTraceIdempotent` prove the unknown-id case, the TASK_COMPLETE event with the removal, and idempotence |
| Tracer.CompletionContext | src/vosaka/vtracer/VOsakaTracer.php:108-113 | the merged completion context; `CompletionContextMerges` proves its keys, their order and which value each key takes |
| Tracer.VOsakaTracer.constructor | src/vosaka/vtracer/VOsakaTracer.php:13-17 | a new engine has no handlers, is enabled and has an empty registry |
| Tracer.VOsakaTracer.AddHandler | src/vosaka/vtracer/VOsakaTracer.php:27-31 | the handler is appended to the end of the list without deduplication, and the same engine is returned |
| Tracer.VOsakaTracer.Enable | src/vosaka/vtracer/VOsakaTracer.php:33-37 | the flag is set and the same engine is returned |
| Tracer.VOsakaTracer.Disable | src/vosaka/vtracer/VOsakaTracer.php:39-43 | the flag is cleared and the same engine is returned |
| Tracer.VOsakaTracer.IsEnabled | src/vosaka/vtracer/VOsakaTracer.php:45-48 | returns the flag |
| Tracer.VOsakaTracer.Trace | src/vosaka/vtracer/VOsakaTracer.php:50-78 | the new engine state is the `trace` specification of the old one; disabled touches no handler; enabled delivers the event to every handler |
| Tracer.VOsakaTracer.Deliver | src/vosaka/vtracer/VOsakaTracer.php:71-77 | the loop calls every handler once per list occurrence, in order, whether or not earlier ones raised, and records exactly `Dispatch` |
| Tracer.VOsakaTracer.StartTrace | src/vosaka/vtracer/VOsakaTracer.php:80-98 | returns the next generated id, and the new state is the `startTrace` specification of the old one |
| Tracer.VOsakaTracer.EndTrace | src/vosaka/vtracer/VOsakaTracer.php:100-124 | the new state is the `endTrace` specification of the old one |
| Tracer.VOsakaTracer.GetActiveTraces | src/vosaka/vtracer/VOsakaTracer.php:176-179 | returns the registry |
| Tracer.VOsakaTracer.ClearActiveTraces | src/vosaka/vtracer/VOsakaTracer.php:181-184 | the registry becomes empty and nothing else changes |
| Tracer.FreshAfterInsert | src/vosaka/vtracer/VOsakaTracer.php:82-87 | after a registration, every id the engine can still generate is absent from the registry |
| TracerProperties.TraceDispatchesToEveryHandler | src/vosaka/vtracer/VOsakaTracer.php:62-77 | an enabled `trace` adds one event and exactly one handler call per registered handler, in order, with the handlers, flag and registry unchanged |
| TracerProperties.GeneratedIdsDiffer | src/vosaka/vtracer/TraceEvent.php:21-23 | two events built from different readings with generated ids have different trace ids and different task ids, and no generated trace id is a generated task id |
| TracerProperties.TraceAppendsEvent | src/vosaka/vtracer/VOsakaTracer.php:58-69 | an enabled `trace` appends exactly the event built from the next reading, consumes that reading and leaves the engine enabled |
| TracerProperties.SuccessiveTracesGetDistinctIds | src/vosaka/vtracer/VOsakaTracer.php:58-69 | two `trace` calls without ids on an enabled engine emit two events with distinct trace ids and distinct task ids |
| TracerProperties.DisabledTracesAreNoops | src/vosaka/vtracer/VOsakaTracer.php:58-60 | while disabled, any number of `trace` calls changes nothing |
| TracerProperties.EnabledTracesDispatch | src/vosaka/vtracer/VOsakaTracer.php:58-77 | while enabled, `k` calls add `k` events and `k` times one call per handler |
| TracerProperties.StartTraceRegisters | src/vosaka/vtracer/VOsakaTracer.php:80-98 | `startTrace` adds exactly one registry entry, under a fresh id, holding the operation and context, keeps all other entries, and updates the registry even while disabled; when enabled it emits one DEBUG/TASK_SPAWN event under that id with that context |
| TracerProperties.EndTraceUnknownIsNoop | src/vosaka/vtracer/VOsakaTracer.php:104-106 | `endTrace` on an unregistered id changes nothing |
| TracerProperties.EndTraceIdempotent | src/vosaka/vtracer/VOsakaTracer.php:104-123 | after `endTrace` the id is gone and a second `endTrace` on it changes nothing |
| TracerProperties.CompletionContextMerges | src/vosaka/vtracer/VOsakaTracer.php:109-113 | the completion context always has `duration_ms`, takes the caller's value on the caller's keys and the original one elsewhere, and starts with the original keys in order |
| TracerProperties.EndTraceCompletes | src/vosaka/vtracer/VOsakaTracer.php:108-123 | `endTrace` on a registered id removes exactly that id; when enabled it emits one DEBUG/TASK_COMPLETE event under the id with the merged context and the rounded duration |
| TracerProperties.StartThenEnd | src/vosaka/vtracer/VOsakaTracer.php:80-124 | `startTrace` then `endTrace` leave the registry as before; when enabled exactly TASK_SPAWN and TASK_COMPLETE were emitted under the new id |
| Rounding.Nearest | src/vosaka/vtracer/VOsakaTracer.php:112 | the nearest integer, within one half, with a tie going away from zero |
| Rounding.Round2 | src/vosaka/vtracer/VOsakaTracer.php:112 | the rounded value is within half a hundredth, has at most two decimals, and a tie goes away from zero |
| TracedGenerators.Resume | src/vosaka/vtracer/VOsakaTracer.php:134-173 | one resumption of the body stops suspended after the next step exactly when a value remains (for the body as written, unless the advance past the last value throws) and then hands over that value; otherwise it finishes with the wrapped generator's return value or exception |
| TracedGenerators.NatToString | src/vosaka/vtracer/VOsakaTracer.php:141 | interpolating the step count; `NatToStringDigits` proves its shape |
| TracedGenerators.NatToStringDigits | src/vosaka/vtracer/VOsakaTracer.php:141 | the decimal form is non-empty, all digits, and starts with `0` only for zero |
| TracedGenerators.NextSpec | src/vosaka/vtracer/VOsakaTracer.php:126-174 | one resumption of the wrapper: the first runs `startTrace` and then the body, later ones continue the body, a finished one yields nothing; `DriveFrom`, `DriveRuns` and `DriveView` prove what repeated resumptions do |
| TracedGenerators.PerformFailure | src/vosaka/vtracer/VOsakaTracer.php:154-171 | the `catch` block is the ERROR event followed by `endTrace` |
| TracedGenerators.DriveFrom | src/vosaka/vtracer/VOsakaTracer.php:135-173 | resuming a suspended generator until it finishes is running the rest of its body and performing its tracer calls |
| TracedGenerators.DriveRuns | src/vosaka/vtracer/VOsakaTracer.php:126-174 | driving a fresh generator is `startTrace`, then the whole body under the returned id |
| TracedGenerators.IntendedStepsFrom | src/vosaka/vtracer/VOsakaTracer.php:135-173 | from any step on, the corrected body passes on every remaining value, then the end |
| TracedGenerators.IntendedIsTransparent | src/vosaka/vtracer/VOsakaTracer.php:126-174 | the corrected wrapper hands the consumer exactly the wrapped generator's values, in order, then its return value or its exception |
| TracedGenerators.AsWrittenRaisesFrom | src/vosaka/vtracer/VOsakaTracer.php:146-149 | as written, for a wrapped generator that throws, the throw overtakes the last value |
| TracedGenerators.AsWrittenReturnsFrom | src/vosaka/vtracer/VOsakaTracer.php:146-149 | as written and corrected bodies agree entirely when the wrapped generator returns |
| TracedGenerators.AsWrittenDropsLastValue | src/vosaka/vtracer/VOsakaTracer.php:146-149 | as written, a wrapped generator that throws after `k >= 1` values reaches the consumer with only the first `k - 1` before the exception |
| TracedGenerators.AsWrittenCounterexample | src/vosaka/vtracer/VOsakaTracer.php:146-149 | one value then a throw: as written the consumer sees only the exception, corrected it sees the value then the exception |
| TracedGenerators.YieldCalls | src/vosaka/vtracer/VOsakaTracer.php:136-144 | one YIELD call per value, numbered consecutively |
| TracedGenerators.IntendedCallsFrom | src/vosaka/vtracer/VOsakaTracer.php:135-171 | from any step on, one YIELD call per remaining value, numbered on, then the closing calls |
| TracedGenerators.SameCallsFrom | src/vosaka/vtracer/VOsakaTracer.php:146-149 | both bodies make the same tracer calls: the lost value still has its YIELD event |
| TracedGenerators.RunCalls | src/vosaka/vtracer/VOsakaTracer.php:135-171 | a whole body makes one YIELD call per value, numbered from 1, then the closing calls, whichever body |
| TracedGenerators.YieldPerformed | src/vosaka/vtracer/VOsakaTracer.php:138-144 | one YIELD call emits one DEBUG/TASK_YIELD event with the step number, the value and the message, when enabled, and leaves the registry alone |
| TracedGenerators.YieldCallsPerformed | src/vosaka/vtracer/VOsakaTracer.php:135-150 | the YIELD calls emit exactly one YIELD event per value, in order, with consecutive step numbers |
| TracedGenerators.FailedContextHolds | src/vosaka/vtracer/VOsakaTracer.php:168-171 | the failure's completion context holds `error = true` and `total_steps`, each once |
| TracedGenerators.CompleteEvent | src/vosaka/vtracer/VOsakaTracer.php:108-121 | the TASK_COMPLETE event carries the merged completion context |
| TracedGenerators.CompletionCarries | src/vosaka/vtracer/VOsakaTracer.php:111-113 | a key the body passes to `endTrace` keeps the body's value |
| TracedGenerators.ReturnClosingShape | src/vosaka/vtracer/VOsakaTracer.php:152 | a completion event with the body's context reports `total_steps = N` |
| TracedGenerators.RaiseClosingShape | src/vosaka/vtracer/VOsakaTracer.php:154-171 | an error event then a completion event with the body's contexts report `step = N`, `error = true` and `total_steps = N` |
| TracedGenerators.ReturnCloses | src/vosaka/vtracer/VOsakaTracer.php:152 | exhaustion of a returning generator emits TASK_COMPLETE with `total_steps = N` |
| TracedGenerators.RaiseCloses | src/vosaka/vtracer/VOsakaTracer.php:154-171 | a throwing generator emits ERROR/TASK_ERROR with the error's message, file, line and `step = N`, then TASK_COMPLETE with `error = true` and `total_steps = N` |
| TracedGenerators.ClosingPerformed | src/vosaka/vtracer/VOsakaTracer.php:152-172 | the closing calls emit the closing events and remove the trace from the registry |
| TracedGenerators.DriveView | src/vosaka/vtracer/VOsakaTracer.php:126-174 | a whole run of either body is `startTrace`, the YIELD calls, the closing calls |
| TracedGenerators.SessionEvents | src/vosaka/vtracer/VOsakaTracer.php:126-174 | a whole run emits TASK_SPAWN, N YIELD events with steps 1..N, then the closing events, and leaves the registry as before |
| TracedGenerators.RunEvents | src/vosaka/vtracer/VOsakaTracer.php:126-174 | a whole run: a fresh id is registered and gone again at the end; when enabled TASK_SPAWN with the caller's context, one TASK_YIELD per value with steps 1..N and the values, then the closing events, all under that id; while disabled no event; both bodies leave the same engine state |
| TracedGenerators.TracedGenerator.constructor | src/vosaka/vtracer/VOsakaTracer.php:126-131 | calling `traceGenerator` runs none of its body: no trace starts and the engine is untouched until the first resumption |
| TracedGenerators.TracedGenerator.Next | src/vosaka/vtracer/VOsakaTracer.php:126-174 | one resumption: the step, the new state and the new engine state are those of the specification |
| TracedGenerators.TracedGenerator.RunBody | src/vosaka/vtracer/VOsakaTracer.php:134-153 | the body from its current step to the next suspension makes exactly the tracer calls `Resume` lists |
| TracedGenerators.TracedGenerator.Fail | src/vosaka/vtracer/VOsakaTracer.php:154-172 | the `catch` block traces the error, ends the trace with the error flag and rethrows |
| TracerExtensions.TaskName | src/vosaka/vtracer/VOsakaTracerExtensions.php:71 | a string callable is reported under its own name, anything else as "anonymous" |
| TracerExtensions.IOType | src/vosaka/vtracer/VOsakaTracerExtensions.php:51-53 | IO_READ if and only if the operation is "read", IO_WRITE otherwise |
| TracerExtensions.FileType | src/vosaka/vtracer/VOsakaTracerExtensions.php:94-96 | FILE_READ if and only if the operation is "read", FILE_WRITE otherwise |
| TracerExtensions.IOContext | src/vosaka/vtracer/VOsakaTracerExtensions.php:55-62 | a zero duration divides by zero; otherwise the keys are bytes, duration_ms and throughput_mbps with the byte count and the two rounded values |
| TracerExtensions.FileContext | src/vosaka/vtracer/VOsakaTracerExtensions.php:87-90 | `filename` first, and `bytes` exactly when a byte count is given |
| TracerExtensions.ShapeFacts | src/vosaka/vtracer/VOsakaTracerExtensions.php:16-101 | network and spawn helpers trace at INFO, I/O and file helpers at DEBUG; each helper's event type; only a zero-duration I/O call makes no `trace` call; the caller's trace id is forwarded |
| TracerExtensions.ShapeWellFormed | src/vosaka/vtracer/VOsakaTracerExtensions.php:16-101 | every helper's context holds each key once |
| TracerExtensions.HelperEmitsOne | src/vosaka/vtracer/VOsakaTracerExtensions.php:16-101 | each helper makes at most one `trace` call: disabled means no event; enabled means exactly one event with the shaped level, type, message and context under the caller's id; the registry is untouched |
| TracerExtensions.VOsakaTracerExtensions.TraceTCPConnection | src/vosaka/vtracer/VOsakaTracerExtensions.php:16-28 | one INFO/TCP_CONNECT "TCP connection attempt" call with `{address, port}` |
| TracerExtensions.VOsakaTracerExtensions.TraceTCPAccept | src/vosaka/vtracer/VOsakaTracerExtensions.php:30-41 | one INFO/TCP_ACCEPT "TCP client accepted" call with `{client}` |
| TracerExtensions.VOsakaTracerExtensions.TraceIOOperation | src/vosaka/vtracer/VOsakaTracerExtensions.php:43-65 | fails exactly on a zero duration, before tracing; otherwise one DEBUG I/O call |
| TracerExtensions.VOsakaTracerExtensions.TraceVosakaSpawn | src/vosaka/vtracer/VOsakaTracerExtensions.php:67-79 | one INFO/TASK_SPAWN "VOsaka::spawn called" call with the task name |
| TracerExtensions.VOsakaTracerExtensions.TraceFileOperation | src/vosaka/vtracer/VOsakaTracerExtensions.php:81-101 | builds the context in place and makes one DEBUG file call |

## Left out

- Singleton mechanics (`getInstance` and the private constructor, `src/vosaka/vtracer/VOsakaTracer.php:12-25`): the engine is an explicitly constructed object.
- Floating point: times, durations and throughput are exact reals, and `round` is rounding on reals. Binary representation and PHP's pre-rounding are not modelled.
- Tracer.VOsakaTracer.constructor: the time and id source is a parameter. `microtime` and `uniqid` are not modelled beyond the requirement that distinct readings give distinct ids.
- `date()`, `json_encode` and `error_log` are not modelled:
  - `date()` and `json_encode` are inputs (`Formatter`); an encoding failure is an explicit `None`;
  - the message `error_log` writes for a raising handler is not modelled, only that the handler raised.
- Real output is not modelled:
  - console output is a list of lines;
  - file contents are a string;
  - the outcome of `fopen` is an input;
  - `fwrite`/`fflush` failures are not modelled.
- `TracerHandler` is a datatype over the two sinks and a handler outside the model, because the interface has no behaviour of its own.
- Integer-keyed context entries: `array_merge` renumbers integer keys, but contexts here have string keys only.
- The generator `send()`/`throw()` protocol is not modelled: the wrapper is pull-only.
- Generator abandonment and garbage collection are not modelled: an abandoned wrapper leaves its registry entry in place.
- TracedGenerators.TracedGenerator.Next: it runs the corrected body (see Findings), not the body as written. The as-written body is modelled by the pure `Resume(AsWritten, ...)`, and both make the same tracer calls.
- TracedGenerators.TracedGenerator.RunBody: its step is that of the corrected body, `Resume(Intended, ...)`. For a wrapped generator that throws while advancing past its last value, the body as written throws in that same resumption instead of handing the value over (`src/vosaka/vtracer/VOsakaTracer.php:146-149`). The as-written resumption is the pure `Resume(AsWritten, ...)`.
- Wrapped generators: each is its finite list of values and how it ends. A producer that never ends, or that throws from `current()`, is not modelled.
- Concurrency: none exists in the source.
- `tests/test.php` and `vendor/composer` are demo wiring and generated autoloader tables.

## Findings

| source | as written | input that shows it | evidently intended | confidence | as-written member | corrected member |
|---|---|---|---|---|---|---|
| src/vosaka/vtracer/VOsakaTracer.php:146-149 | `traceGenerator` advances the wrapped generator with `next()` before it yields the value it fetched. If that advance throws, the `catch` block rethrows before the value is yielded, so the consumer never receives the last value. | a wrapped generator that yields `1` and then throws: the consumer sees only the exception | the wrapper re-yields every value, then the return value or the exception (yield first, advance on resumption) | not executed | TracedGenerators.AsWrittenDropsLastValue, TracedGenerators.AsWrittenCounterexample | TracedGenerators.IntendedIsTransparent |

The trace events are the same either way (`TracedGenerators.SameCallsFrom`, `TracedGenerators.RunEvents`). Only what the consumer receives differs. The class `TracedGenerator` runs the corrected body.
