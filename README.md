# Leveled JSON logger: a Dafny model

This project models the `Logger` class of `lib/logger.ts`. The class is a small structured logger for Google Cloud Logging. Its parts:

- **Level resolution.** The constructor takes a level name from the table `ERROR=1, NOTICE=2, INFO=3, DEBUG=4`, or a number. An unknown name throws `invalid level: "<name>" given. Only ERROR,NOTICE,INFO,DEBUG is valid`. A number is stored unchanged.
- **Filtering.** `error`, `notice`, `info` and `debug` each write one line only when `shouldLog(rank, level)`, that is when `rank <= level`.
- **Record composition.** Each emit method builds an object literal. It starts with `severity`. For `error` only, `stack` and `error_message` come next. The caller's `entry` is spread on top: a name already present keeps its position and takes the new value, and a new name is appended.
- **Trace.** When `this.args.request` is set at the moment of a call, its `X-Cloud-Trace-Context` header is read. The constructor keeps the caller's `args` object, so the request can be assigned or removed after construction, and each call sees the current one. A missing header counts as `''`. The header is split on `/` and the array is interpolated, which joins it with `,`. The result goes under `logging.googleapis.com/trace` as `projects/hallonpaj/traces/<joined>`. A header of the usual form `TRACE/SPAN;o=1` therefore gives `projects/hallonpaj/traces/TRACE,SPAN;o=1`, with the span and options included. The model reproduces this as written.
- **Output.** The record goes through `JSON.stringify`, which drops `undefined` properties, and then to `console.log`.

Files:

- `wrappers.dfy`: `Option` and `Result`.
- `js_strings.dfy`: `split` with a one-character separator, `join`, and character replacement. Proved: joining the split with `e` replaces every separator by `e`, and the split/join round trip.
- `js_objects.dfy`: JSON values, property slots (`undefined` or a value), insertion-ordered records, property assignment (`Put`), object spread, and the top level of `JSON.stringify`.
- `logger.dfy`: the `levels` table, `ResolveLevel`, `ShouldLog`, `TraceValue`, `AddRequestTrace` and the record heads. It also holds three classes. `Console` is the sink, a sequence of lines. `Request` is a header map that may change between calls. `Logger` has a constant `level`, an optional request and the console it writes to.
- `logger_properties.dfy`: lemmas about the above.
- `logger_scenarios.dfy`: client methods that replay the six groups of `__tests__/logger.test.ts` (levels ERROR, NOTICE, INFO, DEBUG, 2 and 0) for every entry and error object. The tests' `{ message: 'nice' }` is one such entry. Further methods show the header and the request being read afresh at each call.

Each emit method is proved equal to `Emitted(...)`. It appends to `console.lines` exactly `Emitted(...)` of its severity, error, entry, the request held at that moment and the header it returns, and only when `ShouldLog` holds. It changes nothing else. `level` is private and assigned only in the constructor, so it is a `const` here.

### Behaviour worth noting

- `"OFF"` is not a level name and throws (lib/logger.ts:3, 33-37), as does every other name that is neither in the table nor inherited by every object (see "## Left out" for names such as `"toString"`).
- `additionalLogEntries` is accepted but never read (lib/logger.ts:28).
- The project part of the trace value is the literal `hallonpaj` (lib/logger.ts:17).
- The trace header, and `this.args.request` itself, are read at every emitting call (lib/logger.ts:54, 66, 78, 90).
- The trace is assigned after the entry is spread, so it overwrites an entry property of the same name (lib/logger.ts:48-54).
- A numeric level is stored without any check, so a negative level silences every call (lib/logger.ts:39-41).

## Model

| member | source | states |
|---|---|---|
| `Logging.ResolveLevel` | lib/logger.ts:31-41 | a number is stored unchanged; a name succeeds exactly when it is one of the four table names, and then yields a level in 1..4 |
| `Logging.LevelOf` | lib/logger.ts:3 | `levels[name]` is defined exactly for the four names, and then is the entry with that name |
| `LoggerProperties.NamedLevelResolves` | lib/logger.ts:3 | ERROR, NOTICE, INFO and DEBUG resolve to 1, 2, 3 and 4 |
| `LoggerProperties.UnknownLevelRefused` | lib/logger.ts:33-37 | any other name fails with the message `invalid level: "<name>" given. Only ERROR,NOTICE,INFO,DEBUG is valid` |
| `LoggerProperties.LevelNamesListed` | lib/logger.ts:35 | `Object.keys(levels).toString()` is `ERROR,NOTICE,INFO,DEBUG` |
| `LoggerProperties.NumericLevels` | lib/logger.ts:39-41 | level 2 resolves like NOTICE and emits exactly ERROR and NOTICE; level 0 emits none of the four |
| `LoggerProperties.NamedLevelFilter` | lib/logger.ts:9-11 | a logger at a named level emits a severity exactly when its rank is at most the level's rank |
| `LoggerProperties.FilterMonotoneInLevel` | lib/logger.ts:9-11 | a severity emitted at level L is emitted at every level above L |
| `LoggerProperties.FilterDownwardClosed` | lib/logger.ts:9-11 | a logger that emits a severity emits every less verbose one |
| `JsStrings.Split` | lib/logger.ts:15 | `split('/')` returns one more piece than there are separators, never an empty array, and no piece contains the separator |
| `JsStrings.Replace` | lib/logger.ts:17 | keeps the length and replaces exactly the occurrences of one character |
| `JsStrings.JoinSplitReplaces` | lib/logger.ts:15-17 | joining the split pieces with `e` is the string with every separator replaced by `e` |
| `JsStrings.SplitJoinRoundTrip` | lib/logger.ts:15 | joining the pieces with the separator they were split on gives the string back |
| `LoggerProperties.TraceValueReplacesSlashes` | lib/logger.ts:15-17 | the trace value is `projects/hallonpaj/traces/` followed by the header with every `/` replaced by `,` |
| `LoggerProperties.TraceValueWithoutHeader` | lib/logger.ts:15-17 | without the header the trace value is `projects/hallonpaj/traces/` |
| `Logging.AddRequestTrace` | lib/logger.ts:13-20 | without a request the record is unchanged; with one, the trace property holds the trace value, every other property keeps its value, and the trace name is appended unless already present |
| `JsObjects.Put` | lib/logger.ts:17 | assignment overwrites in place when the name exists and appends otherwise; the assigned name reads back the new value and all other names are unchanged |
| `JsObjects.PutUnique` | lib/logger.ts:17 | assignment keeps property names distinct |
| `JsObjects.SpreadUnique` | lib/logger.ts:48-53 | a spread keeps property names distinct |
| `JsObjects.SpreadKeys` | lib/logger.ts:48-53 | after `{...head, ...entry}` the names are the head's in place, then the entry's new names in the entry's order |
| `JsObjects.SpreadLookup` | lib/logger.ts:48-53 | after a spread an entry property has the entry's value and every other property keeps the head's |
| `JsObjects.StringifyMember` | lib/logger.ts:55 | `JSON.stringify` writes a property exactly when its value is defined |
| `JsObjects.StringifyAppend` | lib/logger.ts:55 | `JSON.stringify` writes the properties in record order |
| `JsObjects.LookupUnique` | lib/logger.ts:48-53 | in a record with distinct names, a property present in it is what a lookup finds |
| `LoggerProperties.RecordKeysUnique` | lib/logger.ts:48-54 | the emitted record has no property twice |
| `LoggerProperties.RecordKeyOrder` | lib/logger.ts:48-54 | names come in this order: `severity`, then `stack` and `error_message` for `error`, then the entry's other names in order, then the trace name when there is a request and the entry lacks it |
| `LoggerProperties.SeverityFirst` | lib/logger.ts:49 | `severity` is always the first property |
| `LoggerProperties.RecordValues` | lib/logger.ts:48-54 | the trace value wins when there is a request, then the entry's value, then the literal head's |
| `LoggerProperties.ErrorWithoutErrorObject` | lib/logger.ts:50-51 | `error` without an error object writes neither `stack` nor `error_message`, unless the entry supplies them |
| `LoggerProperties.AbsentFromLine` | lib/logger.ts:55 | an undefined property is not on the line |
| `LoggerProperties.TraceIsLast` | lib/logger.ts:13-20 | with a request and no trace property in the entry, the line is the line without a request followed by the trace property |
| `LoggerProperties.NoRequestNoTrace` | lib/logger.ts:14 | without a request the line carries no trace property the entry did not put there |
| `LoggerProperties.LineKeysWithin` | lib/logger.ts:55 | every name on the line is a property of the record |
| `Logging.ShouldLog` | lib/logger.ts:9-11 | `shouldLog`; its properties are stated by NamedLevelFilter, FilterMonotoneInLevel and FilterDownwardClosed |
| `Logging.TraceValue` | lib/logger.ts:15-17 | the trace template; TraceValueReplacesSlashes and TraceValueWithoutHeader state its value |
| `JsStrings.Join` | lib/logger.ts:17 | array-to-string conversion with `,`; JoinSplitReplaces, SplitJoinRoundTrip and LevelNamesListed state what it yields |
| `Logging.Head` | lib/logger.ts:48-51 | the object literal before the spread (also lines 62-63, 74-75, 86-87); HeadFacts states its names and values |
| `LoggerProperties.HeadFacts` | lib/logger.ts:48-51 | the literal's names are `severity`, then `stack` and `error_message` for `error` only, all distinct; `severity` holds the level's name; `stack` and `error_message` hold the error object's stack and message, each undefined when absent |
| `JsObjects.Spread` | lib/logger.ts:52 | `...args.entry` (also lines 64, 76, 88); SpreadKeys, SpreadLookup and SpreadUnique state its result |
| `JsObjects.Stringify` | lib/logger.ts:55 | the top level of `JSON.stringify` (also lines 67, 79, 91); StringifyMember and StringifyAppend state its result |
| `Logging.LogRecord` | lib/logger.ts:48-54 | the record handed to `JSON.stringify`; RecordKeysUnique, RecordKeyOrder, SeverityFirst and RecordValues state its layout |
| `Logging.Emitted` | lib/logger.ts:48-55 | the line written; ErrorWithoutErrorObject, AbsentFromLine, TraceIsLast, NoRequestNoTrace and LineKeysWithin state its contents |
| `Logging.Request.Header` | lib/logger.ts:6 | `request.header(name)` as used at line 15: the header's current value, or nothing when absent |
| `Logging.Logger.Create` | lib/logger.ts:24-42 | fails exactly when the level name is unknown, with its message; otherwise returns a new logger with the resolved level and the given request |
| `Logging.Logger.Emit` | lib/logger.ts:44-92 | appends one line, the stringified record for the request held at the call and that request's current header, when `ShouldLog` holds, and otherwise leaves the console unchanged |
| `Logging.Logger.Error` | lib/logger.ts:44-56 | appends `Emitted(ERROR, err, entry, ...)` exactly when rank 1 is at most the level; nothing else changes |
| `Logging.Logger.Notice` | lib/logger.ts:58-68 | appends `Emitted(NOTICE, ...)` exactly when rank 2 is at most the level; nothing else changes |
| `Logging.Logger.Info` | lib/logger.ts:70-80 | appends `Emitted(INFO, ...)` exactly when rank 3 is at most the level; nothing else changes |
| `Logging.Logger.Debug` | lib/logger.ts:82-92 | appends `Emitted(DEBUG, ...)` exactly when rank 4 is at most the level; nothing else changes |
| `Logging.Console.Log` | lib/logger.ts:55 | `console.log` appends exactly one line |

## Left out

- `JSON.stringify` throws a TypeError on a cyclic `entry` or one holding a BigInt, so the four emit methods can throw at call time. `Value` is acyclic and has no BigInt, so these exceptions are not modelled.
- The byte-level JSON text that `JSON.stringify` produces (escaping, number formatting) is not modelled. A line is the ordered list of defined properties. Nested `undefined` inside nested values is also not modelled, because `Value` has no `undefined`.
- `console.log` is a global in the source. Here it is a `Console` object that the logger is given when it is created.
- The contents of `Error.stack` are produced by the runtime. They are an opaque optional string input.
- `request.header` is a foreign call. It is modelled as a lookup in a mutable header map, with exact name matching. Case-insensitive HTTP header matching is not modelled.
- A level name that every object inherits, such as `"toString"`, `"valueOf"`, `"constructor"` or `"__proto__"`, makes `levels[name]` a truthy function or object, so lib/logger.ts:33 does not throw and the logger's level is not a number. Every `shouldLog` comparison is then false, and the logger never writes. The model refuses such a name with the unknown-level message instead.
- An entry property whose name is an array index, such as `"0"`, is written by JavaScript ahead of all other properties. The model keeps it in insertion order, after `severity`.
- SeverityFirst and RecordKeyOrder describe entries without array-index property names. For an entry with one, JavaScript writes that property before `severity`.
- Some JavaScript behaviour is ruled out by the types:
  - spreading a non-object `entry`;
  - non-integer or NaN levels.
- Numbers are integers.
- An `entry` that is not given to `error` spreads nothing. It is modelled as the empty record.
- The `if (trace)` guard in `addRequestTrace` is always true, because an array is truthy. It is not modelled as a branch.
- `additionalLogEntries` is never read by the source, so it is not modelled.
- RecordKeyOrder, SeverityFirst, RecordValues, ErrorWithoutErrorObject, TraceIsLast and NoRequestNoTrace are stated for entries with distinct property names. Every JavaScript object has distinct property names.
