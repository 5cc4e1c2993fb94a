# dogapi binder — a Dafny model

This project models the core of the `dogapi` client library for the Datadog
monitoring API (`src/datadog.js`). The library does not hand-write one function per
REST endpoint. It keeps a declarative endpoint table instead: section name →
endpoint name → descriptor `{method, path, params}`. At load time it binds that
table into a namespace of callable handlers:

- **`buildApiHandlers`** turns a descriptor into a handler bound to a client.
  A descriptor whose first parameter has `type` `"id"` gets a handler taking
  `(id, ...args)`. It calls `client.request(method, path.replace('*', id), ...args)`.
  Any other descriptor gets `client.request.bind(client, method, path)`.
- **`loadApi`** walks the table section by section. It assigns to the destination
  object, under each section name, an object of the handlers built for that section.
- **The module load** creates a shared client from `{}`. It gives the exported
  `DatadogClient` function an `initialize` property, then binds the table onto
  that function with the shared client.
- **`DatadogClient.initialize(options)`** copies every key of `options` onto the
  shared client.
- **`new DatadogClient(options)`** chooses a client from its options and binds the
  table onto the new instance.

The model never runs a request. A handler call is represented by the `Request`
record (client, method, path, arguments) it would hand to `client.request`, or by
the `TypeError` it would throw. Values are JSON-shaped (`Runtime.Value`), plus
references to client objects. Descriptors are such values, so missing, empty or
oddly shaped `params` are all covered. The endpoint table is a parameter,
together with the order in which `Object.entries` lists its sections.

Modules:

- `text.dfy` (`Text`): decimal numerals and canonical array-index keys.
  `String.prototype.replace` with a one-character string pattern, including the
  `$$`, `$&`, `` $` `` and `$'` patterns that ECMAScript's `GetSubstitution`
  expands in the replacement string.
- `runtime.dfy` (`Runtime`): JavaScript values, truthiness, `String(v)`, property
  reads, lodash `get`, `has` and `keys`, and the `ApiClient` object (its own fields).
- `binding.dfy` (`Binding`): `buildApiHandlers` (`Build`, `Invoke`) and `loadApi`
  (`BindSection`, the pure function `Loaded`, the method `LoadApi`), with
  their lemmas.
- `datadog.dfy` (`Datadog`): `initialize` (`Merged`, `Library.Initialize`), the
  constructor's client choice, and the loaded library (`Library`).

Behaviour worth knowing, which the model states:

- The id is inserted with JavaScript `replace`. `$`-patterns in `String(id)` are
  therefore expanded: an id written `$&` leaves the `*` in place
  (`Text.ReplaceFirstMatchPattern`). Ids without `$` are inserted verbatim.
- An id-typed handler called with no argument at all puts the text `undefined` in the path.
- A non-id handler needs a client with a `request` method at bind time;
  otherwise `loadApi` throws. The error is the first step of
  `client.request.bind(client, spec.method, spec.path)` that fails, in
  JavaScript's evaluation order: reading `request` of an undefined or null
  client, reading `bind` of an undefined or null `request`, reading `method` of
  an undefined or null descriptor, or calling a `bind` that is not a function.
- An id-typed handler builds with any client and throws only when called, again
  at the first failing step: reading `request`, reading `replace` of the path,
  calling a `replace` that is not a function, converting the id with `String`
  (an object whose own `toString` property is not a function cannot be converted), then
  calling a `request` that is not a function.
- Endpoints are bound in the order their section enumerates them, so a section
  with several unbindable descriptors throws the error of the first one.
- The id test is lodash `get` on `params.0.type`, which reads the key `0` of
  whatever `params` is. So a missing `params`, an empty one, or one with no
  element `0` whose `type` is `"id"` is simply not id-typed, never an error.

## Model

| member | source | states |
|---|---|---|
| `Text.ReplaceFirst` | src/datadog.js:11 | `path.replace('*', id)`: when the path has no `*` it is returned unchanged; otherwise only the first `*` is replaced, by the expansion of the replacement text, and the text before and after it is kept |
| `Text.ReplaceFirstLiteral` | src/datadog.js:11 | with a replacement free of `$`, the result is the path up to the first `*`, then the replacement, then the rest of the path (later `*`s included), and its length is one less plus the replacement's |
| `Text.ReplaceFirstAfterPrefix` | src/datadog.js:11 | for a path `prefix + "*" + suffix` with no `*` in `prefix`, replacing by a `$`-free text gives `prefix + text + suffix` |
| `Text.Substitution` | src/datadog.js:11 | the text `replace` inserts for an id, after expanding `$$`, `$&`, `` $` `` and `$'`, is made only of characters of the id's text, the text before the `*`, the `*` itself and the text after it |
| `Text.SubstitutionLiteral` | src/datadog.js:11 | a replacement text containing no `$` is inserted exactly as it is |
| `Text.SubstitutionMatched` | src/datadog.js:11 | the replacement text `$&` expands to the matched text |
| `Text.ReplaceFirstMatchPattern` | src/datadog.js:11 | an id written `$&` gives back the path unchanged, because `$&` stands for the matched `*` |
| `Text.ArrayIndexOfNatToString` | src/datadog.js:9 | the key `String(n)` (such as the `0` of `params.0.type`) names array index `n` |
| `Runtime.OwnPropsAgreeWithGet` | src/datadog.js:66-67 | every key that lodash `keys(options)` lists reads back, as `options[key]`, the value the merge copies |
| `Runtime.FalsyHasNoProps` | src/datadog.js:66 | a falsy value itself enumerates no key, so `_.keys(options)` would be empty for a falsy `options` even without `\|\| {}` |
| `Runtime.Stringable` | src/datadog.js:11 | only an object or an array can make `String(id)` throw; every other value converts |
| `Runtime.ToJsString` | src/datadog.js:11 | `String(id)` of anything but a string or an array contains neither `$` nor `*`, so such an id is inserted verbatim and adds no placeholder |
| `Binding.NeedsId` | src/datadog.js:9 | only an object descriptor with a `params` property can be id-typed |
| `Binding.NeedsIdIsPathGet` | src/datadog.js:9 | the id test is exactly lodash `get` along the path `params`, `0`, `type` compared with `"id"` |
| `Binding.NeedsIdWithParams` | src/datadog.js:9 | a descriptor whose `params` is an array is id-typed exactly when that array has a first element whose `type` is the string `"id"` (so empty `params` is not id-typed) |
| `Binding.NoParamsNoId` | src/datadog.js:9 | a descriptor without `params` is not id-typed |
| `Binding.DescriptorNeedsId` | src/datadog.js:9 | for a `{method, path, params}` descriptor, id-typed exactly when the first parameter exists and has `type` `"id"` |
| `Binding.Build` | src/datadog.js:7-14 | building succeeds exactly when the descriptor is id-typed, or the client is a client object and the descriptor is defined; the handler kind follows the id test, and a bound handler targets the client; a failure throws, in evaluation order, reading `request` (no client), reading `bind` (no `request`), reading `method` (no descriptor), or calling `bind` (a `request` that is not a method) |
| `Binding.Invoke` | src/datadog.js:10-13 | a bound handler always issues its request to its target with every argument; an id-typed handler succeeds exactly when its client is a client object, its path a string and its id convertible by `String`, then sends to that client with the arguments after the id; the method is always the descriptor's; a failure throws, in evaluation order, reading `request`, reading `replace`, calling `replace`, converting the id, or calling `request` |
| `Binding.IdHandlerRequest` | src/datadog.js:10-11 | an id-typed handler called with `(id, ...args)` issues one request to its client with the descriptor's method, the path after `replace('*', String(id))`, and `args` in order |
| `Binding.IdHandlerPath` | src/datadog.js:11 | for a path `prefix + "*" + suffix` with no `*` in `prefix` and an id whose text has no `$`, the request path is `prefix + String(id) + suffix` |
| `Binding.IdHandlerWithoutPlaceholder` | src/datadog.js:11 | an id-typed handler whose path contains no `*` sends the path unchanged, whatever the id |
| `Binding.IdHandlerWithoutArguments` | src/datadog.js:11 | an id-typed handler called with no argument puts `undefined` in place of the first `*` and passes no argument on |
| `Binding.PlainHandlerRequest` | src/datadog.js:13 | a non-id handler issues one request to its client with the descriptor's method and path verbatim (a `*` stays) and all call arguments in order |
| `Binding.RequestGoesToBuildClient` | src/datadog.js:7-13 | any request a handler issues goes to the client it was built with |
| `Binding.BindSection` | src/datadog.js:18 | `_.mapValues` succeeds exactly when every descriptor builds; its result has exactly the section's endpoint names, each mapped to the handler built from its descriptor |
| `Binding.BindSectionError` | src/datadog.js:18 | when the descriptor at position `i` of the section's enumeration order is the first that cannot be bound, the section throws exactly that descriptor's error |
| `Binding.BindSectionErrorSource` | src/datadog.js:18 | every error a section throws is the error of the first descriptor, in enumeration order, that cannot be bound |
| `Binding.BindSectionWithoutClient` | src/datadog.js:13-18 | with an undefined or null client, a section can only throw reading `request` |
| `Binding.BindSectionOrderMatters` | src/datadog.js:13-18 | the same two descriptors enumerated in the two orders make the section throw two different errors (`method` read of an undefined descriptor, or calling `bind` on a number) |
| `Binding.Loaded` | src/datadog.js:16-20 | loading completes without throwing exactly when every listed section binds, and it adds no property other than the listed section names |
| `Binding.LoadApi` | src/datadog.js:16-20 | the loop leaves the destination's properties and the thrown error equal to the pure function `Loaded` of the old properties |
| `Binding.Assign` | src/datadog.js:17-18 | the loop completes without throwing exactly when every listed section was bound, and it adds no property other than the listed names |
| `Binding.AssignAll` | src/datadog.js:17-19 | when every listed section was bound, the loop adds exactly those sections, in any order, and keeps every other property |
| `Binding.AssignStops` | src/datadog.js:17-18 | if a listed section threw, the loop throws; when every section before it was bound, it throws that section's error |
| `Binding.AssignErrorSource` | src/datadog.js:17-18 | any error the loop throws is that of the first listed section that threw |
| `Binding.AssignFrame` | src/datadog.js:17-18 | whether the loop completes or throws part-way, a property it does not list is neither added, removed nor changed |
| `Binding.OutcomesAllBind` | src/datadog.js:17-18 | when every section binds, each listed section has a successful outcome, and the handler objects the loop assigns are exactly the sections' |
| `Binding.LoadedWithoutClient` | src/datadog.js:13-18 | with an undefined or null client, a table listing any non-id endpoint makes loading throw reading `request` |
| `Binding.LoadApiResult` | src/datadog.js:16-20 | a complete load succeeds exactly when every section binds; the destination is then its old properties overridden by every section's handlers |
| `Binding.LoadedSection` | src/datadog.js:18 | after a successful load, each section name holds an object with exactly that section's endpoint names, each mapped to the handler built from its descriptor |
| `Binding.LoadedFrame` | src/datadog.js:17-18 | whether loading succeeds or throws part-way, a property whose name is not a section is neither added, removed nor changed |
| `Binding.LoadWithClientSucceeds` | src/datadog.js:16-20 | with a client object and a table of defined descriptors, loading never throws |
| `Binding.MonitorScenario` | src/datadog.js:7-20 | for the table `{monitor: {get: GET /monitor/<*> id-typed, list: GET /monitor}}`, `monitor.get(42)` requests `GET /monitor/42` and `monitor.list()` requests `GET /monitor`, from the bound client |
| `Datadog.OptionProps` | src/datadog.js:66-67 | the keys `initialize` copies are those of `options \|\| {}` (none for falsy options), and each copies `options[key]` |
| `Datadog.Merged` | src/datadog.js:65-69 | after `initialize(options)` the client has its old fields and the keys of the options; each options key holds `options[key]`, every other field its old value |
| `Datadog.MergedSetsOptionKeys` | src/datadog.js:65-69 | after `initialize(options)`, every key of `options` holds `options[key]` on the client |
| `Datadog.MergedKeepsOtherFields` | src/datadog.js:65-69 | every client field whose key `options` lacks is left as it was |
| `Datadog.MergedFalsyIsNoOp` | src/datadog.js:66 | `initialize` with `undefined`, `null` or any other falsy value changes nothing |
| `Datadog.MergedIdempotent` | src/datadog.js:65-69 | initializing twice with the same options equals initializing once |
| `Datadog.MergedLaterWins` | src/datadog.js:65-69 | of two successive `initialize` calls, the later one's value wins on every key it sets |
| `Datadog.ChooseClientAsWritten` | src/datadog.js:23 | as written, truthy options always yield `options.client` (undefined when absent), and falsy options a new client from `{}` |
| `Datadog.ChooseClient` | src/datadog.js:23 | as intended: options with an own `client` supply it; other truthy options configure a new client; falsy options give a new client from `{}` |
| `Datadog.NoOwnClientReadsUndefined` | src/datadog.js:23 | options without an own `client` property read `options.client` as undefined |
| `Datadog.AsWrittenBindsUndefined` | src/datadog.js:23-24 | as written, truthy options without `client` bind the instance to `undefined`, and loading a table with any non-id endpoint then throws reading `request` |
| `Datadog.AsWrittenExample` | src/datadog.js:23 | `new DatadogClient({api_key: "k"})` chooses `undefined` as written, and a new client from those options as intended |
| `Datadog.Library.Load` | src/datadog.js:27-72 | module load creates a shared client with no fields, then binds the table onto the exported function (which already has `initialize`) with that client |
| `Datadog.Library.Initialize` | src/datadog.js:65-69 | the key-by-key loop leaves the shared client's fields equal to `Merged` of the old fields and the options |
| `Datadog.Library.Construct` | src/datadog.js:22-25 | the new instance is fresh; its client is the one `ChooseClient` names, or a fresh client created with the chosen options; its properties and error are those of `Loaded` from no properties |

## Findings

| source | as written | input that shows it | evidently intended | confidence | as-written member | corrected member |
|---|---|---|---|---|---|---|
| src/datadog.js:23 | `(_.has('client'), options) ? options.client : new ApiClient(options \|\| {})`: the comma operator discards the curried `_.has('client')`, so the test is only whether `options` is truthy | `new DatadogClient({api_key: "k"})`: the client chosen is `undefined`. `loadApi` then throws `TypeError` (reading `request`) at the first non-id endpoint | `_.has('client', options) ? options.client : new ApiClient(options \|\| {})`: options without a client configure a new client | high, not executed | `Datadog.AsWrittenBindsUndefined` | `Datadog.ChooseClient` |

`Datadog.Library.Construct` uses the corrected choice. With it, a table of defined
descriptors always binds (`Binding.LoadWithClientSucceeds`).

## Left out

- The transport (`./api-client`, `./client`) is not part of this model. This covers the HTTP request, authentication, host and version defaults, and the proxy agent. A client object records only the options it was created with and the fields written onto it. A handler call is modelled by the `Request` it hands over.
- The endpoint table (`./api`) is not part of this model. It is a parameter, with its section order.
- `now()` (src/datadog.js:84-86) is left out: it reads the wall clock and rounds a floating-point value.
- The export at src/datadog.js:87 is left out: `extend` with `now` and the status constants `OK`, `WARNING`, `CRITICAL` and `UNKNOWN`. It would overwrite sections with those names.
- src/index.js is left out. Its binding calls factories of the table module, which are not part of this model. Its `initialize` repeats src/datadog.js:65-69.
- Read-only built-in properties of the exported function object are not modelled. The module is not in strict mode, so a section named `name` or `length` would silently not be assigned; the model assigns it. (`prototype` is writable and is assigned, as modelled.)
- `Binding.Build`: assumes a client object's `request` is its method. A client passed in through `options.client` whose `request` was overwritten by an own field would be bound differently; the model does not capture this.
- `Binding.Invoke`: assumes every client object still has its `request` method when called. `initialize({request: …})` would shadow it with an own field. Id-typed handlers read that field at call time; bound handlers kept the original. The model does not capture this.
- Function values are not modelled. An id that is a function would be called by `replace` as a replacer, and option values that are functions are not covered.
- Numbers are integers only. The text of non-integer numbers, `NaN` and `-0` is not modelled.
- `Runtime.ToJsString`: integers are unbounded, so an id of magnitude 2^53 or more is not rendered as JavaScript renders the double nearest to it (`String(2**64)` is `18446744073709552000`, and from 10^21 on JavaScript uses exponent notation such as `1e+21`); the model writes every digit.
- Property reads are limited to an object's own enumerable properties and the indices of arrays and strings. Inherited and built-in properties such as `length` read as `undefined`. The array index limit of 2^32 - 2 is ignored.
- Property reads through a client reference inside a value are not modelled (they read as `undefined`, and such a value enumerates no keys). Examples are `options.client.x`, or `initialize` given a client object.
- lodash path parsing is not modelled: `'params.0.type'` is taken already split at its dots.
- Strings are sequences of characters, not UTF-16 code units.
- `Datadog.Library.Construct` returns the instance even when binding threw. In JavaScript, `new` would then throw and the caller would never receive it.
