# Kudu: Swagger operation filters and the command controller

This project models two small parts of the Kudu deployment service in Dafny and proves properties about them.

- **The Swagger operation filters** in `SwaggerConfig.cs`. They run while the API description is generated, and each one rewrites one operation in place.
  - `AddFileParamTypes` affects two kinds of operation: the id `PushDeployment_ZipPushDeploy`, and any id ending in `_PutItem`. For both it appends `multipart/form-data` to `consumes`. For ZipPushDeploy it then replaces the first parameter with a required `file` body parameter. For PutItem it inserts that parameter at the front instead.
  - `NoReservedParam` removes every parameter named `arguments`, which is a reserved word in JavaScript clients. It does nothing when the list is null.
  - The two filters are registered in that order. `ApplyOperationFilters` runs them as a chain.
- **`CommandController.ExecuteCommand`**. It gets a command line and a working directory and answers with a status and a `CommandResult` body.
  - A missing request body gets `BadRequest`, and nothing runs.
  - Any other request is passed to the command executor inside exactly one tracer step. The step is named `"Executing " + command` and tagged `CWD -> dir`.
  - The answer is always `OK`. The body is one of three things: the executor's result; the `Error` and `ExitCode` of a command-line exception; or the text of any other exception with exit code `-1`. Each exception is traced inside the step before the step closes.

Modules:
- `Wrappers` (wrappers.dfy): `Option`, which stands for a reference that may be null.
- `SwaggerFilters` (swagger_filters.dfy):
  - `Operation` is a class with `operationId`, `consumes` and `parameters`, where `parameters` may be null.
  - The filters are methods that modify it.
  - The list operations they use are functions on sequences, with lemmas about them.
- `Tracing` (tracing.dfy): the tracer as a class holding an event log, and the bracket discipline `ProperlyNested` on such logs. The tracer never inspects the errors it is given, so their type is a parameter.
- `Commands` (command_controller.dfy):
  - The request, result, exception, outcome and response shapes.
  - `ResponseFor`, a pure case analysis of how the executor call ends.
  - The executor, as a class. Its behaviour is an arbitrary function `run`, and it keeps a log of the calls it receives.
  - The controller, as a class whose `ExecuteCommand` writes to the tracer.

Modelling decisions:
- **Throws instead of a precondition.** `AddFileParamTypes.Apply` indexes or inserts into `parameters` with no check. So a null list throws in both branches, and an empty list throws in the ZipPushDeploy branch.
  - The model does not turn this into a `requires`. The method returns `ok == false` on exactly those inputs, and `FileParamApplicable` is the condition the caller must meet.
  - In the model, `consumes` has already been extended when the throw happens, as in the source.
  - The chain stops at a throw, so `NoReservedParam` does not run.
- **Empty commands are executed.** Only a null input is refused: an empty or null `command` is passed to the executor.
- **Null command in the step name.** With a null command the step name is `"Executing "`, because C# string concatenation treats null as empty.
- **No link between exit code and error text.** Nothing in the controller ties a zero exit code to an empty error, so the model assumes no such link.
- **Default fields.** A `CommandResult` built from an exception leaves `Output` at its default. The model takes that default to be null; see "Left out".

## Model

| member | source | states |
|---|---|---|
| SwaggerFilters.EndsWith | Kudu.Services.Web/App_Start/SwaggerConfig.cs:56 | A string ends with a suffix exactly when the suffix fits and each of its characters matches the last characters of the string |
| SwaggerFilters.FileParamApplicable | Kudu.Services.Web/App_Start/SwaggerConfig.cs:51-61 | Only the two matching kinds of id can throw. ZipPushDeploy runs to the end exactly when the list is non-null and non-empty (line 54). A `_PutItem` id runs to the end exactly when the list is non-null (line 60) |
| SwaggerFilters.ZipPushDeployIsNotPutItem | Kudu.Services.Web/App_Start/SwaggerConfig.cs:51-56 | The ZipPushDeploy id does not end in `_PutItem`, so the two branches of the filter never overlap |
| SwaggerFilters.ReplaceFirst | Kudu.Services.Web/App_Start/SwaggerConfig.cs:54 | `parameters[0] = p` keeps the length, puts `p` at index 0 and leaves elements 1.. unchanged |
| SwaggerFilters.InsertAt | Kudu.Services.Web/App_Start/SwaggerConfig.cs:60 | `Insert(i, p)` grows the list by one, puts `p` at index `i`, and keeps the elements before and after it in order |
| SwaggerFilters.WithoutReserved | Kudu.Services.Web/App_Start/SwaggerConfig.cs:72 | The `Where` filter never lengthens the list and leaves no parameter named `arguments`. Every other parameter keeps its number of occurrences |
| SwaggerFilters.WithoutReservedConcat | Kudu.Services.Web/App_Start/SwaggerConfig.cs:72 | The filter distributes over concatenation, so surviving parameters keep their relative order |
| SwaggerFilters.WithoutReservedKeepsClean | Kudu.Services.Web/App_Start/SwaggerConfig.cs:72 | A list with no `arguments` parameter passes through unchanged |
| SwaggerFilters.WithoutReservedShrinks | Kudu.Services.Web/App_Start/SwaggerConfig.cs:72 | The length is unchanged if and only if no parameter is named `arguments` |
| SwaggerFilters.WithoutReservedIdempotent | Kudu.Services.Web/App_Start/SwaggerConfig.cs:72 | Filtering twice gives the same list as filtering once |
| SwaggerFilters.FileParamRewrite | Kudu.Services.Web/App_Start/SwaggerConfig.cs:40-61 | ZipPushDeploy: `consumes` gets exactly one `multipart/form-data` at the end; the file parameter replaces element 0; the count and the rest are unchanged. A `_PutItem` id: the same append; the file parameter goes in front of the old list, in order. Any other id: nothing changes. It throws exactly when `FileParamApplicable` fails, and the parameters are then untouched |
| SwaggerFilters.AddFileParamTypes | Kudu.Services.Web/App_Start/SwaggerConfig.cs:38-62 | The in-place filter leaves the operation in the state `FileParamRewrite` describes and keeps its id. `ok` is false exactly where the source throws |
| SwaggerFilters.FileParamRewriteTwice | Kudu.Services.Web/App_Start/SwaggerConfig.cs:50-60 | Nothing is deduplicated: a second pass on a PutItem operation appends the content type again and inserts a second file parameter |
| SwaggerFilters.ReservedRemoved | Kudu.Services.Web/App_Start/SwaggerConfig.cs:69-73 | A null parameter list stays null. A non-null one never grows and has no `arguments` parameter left |
| SwaggerFilters.ReservedRemovedIdempotent | Kudu.Services.Web/App_Start/SwaggerConfig.cs:69-73 | `NoReservedParam` is idempotent on null and on non-null lists |
| SwaggerFilters.NoReservedParam | Kudu.Services.Web/App_Start/SwaggerConfig.cs:67-74 | Only `parameters` changes, and it becomes `ReservedRemoved` of the old list. `consumes` and the id are untouched |
| SwaggerFilters.RegisteredFilters | Kudu.Services.Web/App_Start/SwaggerConfig.cs:26-27 | The chain throws exactly when `AddFileParamTypes` does, and `consumes` is as that first filter left it |
| SwaggerFilters.FileParamSurvivesFilters | Kudu.Services.Web/App_Start/SwaggerConfig.cs:26-27 | After both filters, a matched operation still has the file parameter first, followed by the filtered remainder, and `consumes` ends with one `multipart/form-data` |
| SwaggerFilters.ApplyOperationFilters | Kudu.Services.Web/App_Start/SwaggerConfig.cs:26-27 | Running both filters in registration order leaves the operation in the state `RegisteredFilters` describes |
| Commands.ResponseFor | Kudu.Services/Commands/CommandController.cs:44-58 | The status is OK on every path. A result is returned as is. A command-line exception gives `Error = ex.Error`, `ExitCode = ex.ExitCode` and a null `Output`. Any other exception gives its text as `Error` and `ExitCode = -1` |
| Commands.StepName | Kudu.Services/Commands/CommandController.cs:42 | The step name is `Executing ` followed by the command; a null command contributes nothing, as C# concatenation reads null as empty |
| Commands.StepTags | Kudu.Services/Commands/CommandController.cs:42 | The step's tags have the single key `CWD`, mapped to the working directory, which may be null |
| Commands.StepTraceBracketed | Kudu.Services/Commands/CommandController.cs:42-59 | Exactly one step is opened, first, with the command's name and the `CWD` tag. It is closed last and the log is properly nested. The exception is traced exactly once, inside the step, on a failure path, and never on success |
| Commands.CommandExecutor.ExecuteCommand | Kudu.Services/Commands/CommandController.cs:46 | The executor's answer is its behaviour on the given command and directory, and the call is logged |
| Commands.CommandController.ExecuteCommand | Kudu.Services/Commands/CommandController.cs:33-60 | A missing body gives BadRequest, with no executor call and no trace, and the answer is BadRequest only then. Otherwise: one executor call with the input's command and directory unchanged; the answer is `ResponseFor` its outcome; the log grows by `StepTrace`. Over a tracer shared by consecutive requests, a properly nested log stays properly nested, each request with a body opens exactly one step, and the error count grows by one exactly when the executor threw |
| Tracing.NestedConcat | Kudu.Services/Commands/CommandController.cs:42-59 | A properly nested log followed by another properly nested log is properly nested, so a tracer shared by consecutive requests keeps the bracket discipline |
| Tracing.Tracer.Step | Kudu.Services/Commands/CommandController.cs:42 | Opening a step appends one `StepOpened` event with its name and tags |
| Tracing.Tracer.TraceError | Kudu.Services/Commands/CommandController.cs:51 | Tracing an exception appends one `ErrorTraced` event carrying it |
| Tracing.Tracer.CloseStep | Kudu.Services/Commands/CommandController.cs:59 | Leaving the `using` block appends one `StepClosed` event |

## Left out

- `SwaggerConfig.Register` and the rest of the Swashbuckle/WebActivatorEx setup (schemes, API version, pretty-printing, the UI) are library configuration. Only the filter order (lines 26-27) is kept.
- The `schemaRegistry` and `apiDescription` arguments are not used by either filter. The `Operation` and `Parameter` fields the filters do not touch are also left out.
- SwaggerFilters.AddFileParamTypes: a null `operationId` or `consumes` is not modelled; both are never null in the model. In the source, a null `consumes` throws only on a matching id (lines 53 and 59), and a null `operationId` throws at the `EndsWith` call on line 56, not at the comparison on line 51.
- SwaggerFilters.EndsWith: compares characters exactly. .NET's `EndsWith(string)` uses culture-sensitive comparison, which gives the same answer for the ASCII ids these filters see.
- The result of `NoReservedParam` in the source is a fixed-size array, and a later `Insert` on it would throw. In the registered order no insert follows it, so the model keeps a plain sequence.
- Commands.CommandExecutor.ExecuteCommand: the real process execution behind the executor interface is not modelled. Its behaviour is an arbitrary function of the command and the directory. A request calls it once, so this covers every possible outcome of that call.
- The tracer's implementation is not modelled; it is reduced to the events it receives. The text of `ex.ToString()` is an opaque string. `Request.CreateResponse` and HTTP serialization are reduced to a status and an optional body.
- The `CommandResult` class is not part of this model. The object initializers at lines 52 and 57 set only `Error` and `ExitCode`. The `Output` field, and the defaults of null for the strings and 0 for the exit code, are assumptions about that unseen class: auto-properties without initializers. The exit code is an unbounded integer; this is harmless because the controller only copies it or sets it to `-1`.
- Concurrent requests are left out. Each request is a single sequential call.
- The provisional-status (202/204) polling policy, the deployment pipeline and file-upload parsing are not modelled: none of them has code in the modelled files.
