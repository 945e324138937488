# A verified model of the `POST /render` handler

This project models the request handler of a small video render server.
The server is an Express application whose single real endpoint,
`POST /render`, does the following:

1. Takes a React component's source code and rendering parameters from the JSON body.
2. Checks that `code` is truthy, answering 400 otherwise.
3. Creates a per-request workspace `temp-{renderId}` in the output directory.
4. Writes three files into it: the component verbatim, a generated Remotion entry module, and a `package.json`.
5. Runs the three foreign stages `bundle`, `selectComposition` and `renderMedia`.
6. Removes the workspace and answers with the URL of `{renderId}.mp4`.

Any exception is caught. The `catch` block removes the workspace if it exists and answers 500. The answer carries the error's message when the thrown value is an `Error`, and "Render failed" otherwise.

The model is in Dafny.

- **Values.** Request bodies are JSON values (numbers as integers). The filesystem is a map from path strings to directory and file nodes.
- **Filesystem class.** The map is held in a `FileSystem` object. Four of its methods are the four `fs` calls the handler makes. A fifth, `PlaceArtifact`, stands for the file `renderMedia` writes at the output location.
- **Foreign stages.** `bundle`, `selectComposition` and `renderMedia` are parameters: each either returns an opaque value or throws.
- **Request id.** The render id is a parameter.
- **`path.join`.** It is modelled as concatenation with `/` on segments that are already normalised. The output directory stands for `RENDER_OUTPUT_DIR` as `path.join` normalises it, with no trailing `/` and no `.` or `..` segment. The default `./renders` thus appears as `renders`, and the workspace as `renders/temp-{renderId}`.

The handler is given twice:

- `RenderHandler.Run` is the handler as a function, branch for branch.
- `RenderHandler.RenderServer.HandleRender` is the handler as a method that changes a `FileSystem` step by step. Its postcondition is that it computes `Run`.

`Steps.Execute` gives the `try` block its meaning: perform a list of steps in order and stop at the first one that throws. A step is a call, or a template that throws in place of the entry write. `HandlerProperties.RunFollowsPlan` proves that, for a request with `code`, `Run` is `Execute` of the seven steps followed by the `catch` block or the cleanup.

Everything else is proved about `Run`. The main results:

- The 400 path has no effect.
- The workspace is gone after every other exit.
- The stages are ordered and stop at the first failure.
- A 200 response is given only after the render.
- In the modelled filesystem, nothing outside the workspace and the video path changes, except that missing directories above the workspace are created. The directory `bundle` writes its output to is outside that model.
- Requests with distinct uuids never touch each other's files.
- The `compositionId` written into the entry module is the one passed to `selectComposition`.

Modules, one per file:

| file | module | contents |
|---|---|---|
| `wrappers.dfy` | `Wrappers` | `Option` |
| `js_values.dfy` | `JsValues` | JSON values, truthiness, `String(v)`, decimal printing and its inverse, thrown values |
| `paths.dfy` | `Paths` | workspace, artifact and URL builders, the uuid format, subtrees and ancestors |
| `files.dfy` | `Files` | the filesystem map, `mkdirSync`/`writeFileSync`/`rmSync` semantics, class `FileSystem` |
| `requests.dfy` | `Requests` | destructuring of `req.body` with defaults |
| `workspace.dfy` | `Workspace` | the component argument, entry module template and its reader, the manifest |
| `steps.dfy` | `Steps` | the handler's side-effecting calls, `Perform`, `Execute` |
| `render_handler.dfy` | `RenderHandler` | `Run`, `Catch`, `RunStages`, class `RenderServer` |
| `handler_properties.dfy` | `HandlerProperties` | the properties of the handler |

## Model

| member | source | states |
|---|---|---|
| `JsValues.NatToString` | src/index.ts:46 | the decimal text of a number is non-empty and made of digits |
| `JsValues.IntToString` | src/index.ts:46 | `String(n)` is non-empty digits with a leading minus sign exactly when `n` is negative |
| `JsValues.NatToStringRoundTrip` | src/index.ts:46 | reading back the decimal text of a natural number gives the number |
| `JsValues.IntToStringRoundTrip` | src/index.ts:46 | reading back `String(n)` of an integer gives `n` |
| `JsValues.ToStrThrowsIff` | src/index.ts:46 | converting an interpolated value to text throws exactly when it is an object with its own `toString` key or an array holding one at any depth; a number converts to its decimal text and a string to itself |
| `JsValues.JoinThrowsIff` | src/index.ts:46 | joining an array's elements throws exactly when one of them cannot be converted |
| `JsValues.ToStr` | src/index.ts:46 | the conversion of an interpolated value to text; only V8's primitive-conversion TypeError can come out of it, and `ToStrThrowsIff` states when |
| `Paths.Join` | src/index.ts:27 | a joined path lies strictly below its directory and is one separator longer than its parts |
| `Paths.TempDir` | src/index.ts:27 | the workspace path; its properties are stated by `TempDirInjective`, `TempDirsDisjoint` and `OutputOutsideTempDirs` |
| `Paths.OutputPath` | src/index.ts:59 | the video path; its properties are stated by `OutputPathInjective` and `OutputOutsideTempDirs` |
| `Paths.BaseUrl` | src/index.ts:65 | the base URL from the protocol and the Host header, as `SuccessOnlyAfterRender` reports it |
| `Paths.VideoUrl` | src/index.ts:68 | the video URL; its property is stated by `VideoUrlInjective` |
| `Paths.UuidHasNoSeparator` | src/index.ts:26 | a uuid v4 string contains no `/` |
| `Paths.TempDirInjective` | src/index.ts:27 | distinct render ids give distinct workspace paths |
| `Paths.OutputPathInjective` | src/index.ts:59 | distinct render ids give distinct video paths |
| `Paths.VideoUrlInjective` | src/index.ts:68 | distinct render ids give distinct video URLs on the same host |
| `Paths.TempDirsDisjoint` | src/index.ts:27 | the workspaces of two distinct uuids share no path |
| `Paths.OutputOutsideTempDirs` | src/index.ts:59 | no video path of an id of the same length lies in a workspace |
| `Paths.TempDirAncestorsAboveOutput` | src/index.ts:34 | the directories recursive `mkdirSync` may create above a workspace lie at or above the output directory |
| `Files.MkdirAll` | src/index.ts:34 | recursive `mkdirSync` succeeds exactly when no file is at or above the path, then creates the path and its ancestors as directories and keeps everything else |
| `Files.Write` | src/index.ts:39-51 | `writeFileSync` of a string succeeds exactly when the directory exists and the target is not a directory, then sets that one file and keeps every other entry |
| `Files.RemoveTree` | src/index.ts:66 | recursive `rmSync` removes exactly the subtree and keeps every other entry unchanged |
| `Files.FileSystem.Exists` | src/index.ts:71 | `existsSync` reports whether the path is in the tree |
| `Files.FileSystem.MakeDirectory` | src/index.ts:34 | the tree becomes `MkdirAll`'s result, or is unchanged and the error is returned |
| `Files.FileSystem.WriteFile` | src/index.ts:39-51 | the tree becomes `WriteData`'s result, or is unchanged and the error is returned |
| `Files.FileSystem.Remove` | src/index.ts:66 | the tree becomes `RemoveTree`'s result |
| `Files.FileSystem.PlaceArtifact` | src/index.ts:62 | the file `renderMedia` writes, the finished video or what a failed render leaves, is at the output location and every other entry is kept |
| `Requests.Destructure` | src/index.ts:30 | destructuring throws exactly for an `undefined` or `null` body; otherwise `code` is the property as given and every other field is the supplied value, or its default when absent |
| `Requests.MissingCodeValues` | src/index.ts:31 | `!code` holds exactly for an absent `code`, `null`, `false`, `0` and `""` |
| `Workspace.PackageNameInjective` | src/index.ts:51 | distinct render ids give distinct package names `render-{renderId}` |
| `Workspace.PackageManifest` | src/index.ts:51 | the manifest written as `package.json`; its property is stated by `PackageNameInjective` |
| `Workspace.TakeUntil` | src/index.ts:46 | a split at the first `c` leaves text without `c` before it and reassembles to the input |
| `Workspace.Field` | src/index.ts:46 | a parsed field is the text after the literal up to the first stop character |
| `Workspace.ParseEntry` | src/index.ts:40-48 | a parsed declaration has an id without quotes or `&`, and the template filled with it is the parsed text |
| `Workspace.TakeUntilFirst` | src/index.ts:46 | the split finds the first occurrence of `c` |
| `Workspace.FieldFirst` | src/index.ts:46 | a field written without its stop character is read back exactly |
| `Workspace.EntryRoundTrip` | src/index.ts:40-48 | the entry module filled with texts free of quotes, `&` and braces is read back as exactly those texts |
| `Workspace.DeclaredIdIsCompositionId` | src/index.ts:46 | the entry module declares the interpolated id when it has no double quote and no `&`, and never declares an id that has a double quote |
| `Workspace.EntryModuleDeclaresRequest` | src/index.ts:40-48 | for a string id without a double quote or `&` and numeric parameters, the template does not throw, and the entry module declares that id and numeric attributes that read back as the four numbers |
| `Workspace.EntryModule` | src/index.ts:40-48 | the entry module's text, or V8's primitive-conversion TypeError; `EntryModuleThrowsIff` states when it throws, and `EntryRoundTrip` and `EntryModuleDeclaresRequest` what it declares |
| `Workspace.EntryModuleThrowsIff` | src/index.ts:40-48 | the template throws exactly when one of its five parameters cannot be converted to text |
| `Steps.Perform` | src/index.ts:34-66 | one step's effect on the filesystem and what it throws; stated per step by `MakeDirStep`, `WorkspaceStep`, `WriteStepPlaces` and `StageStepsUnfold` |
| `Steps.Execute` | src/index.ts:34-62 | the steps attempted are a prefix of the plan; all of it unless a step threw, and never none when one did |
| `Steps.ExecuteSnoc` | src/index.ts:34-62 | one more step is attempted only if every earlier step returned |
| `Steps.ExecuteAppend` | src/index.ts:34-62 | performing two plans in sequence is performing their concatenation |
| `Steps.ExecuteThree` | src/index.ts:54-62 | three steps are performed one after the other, stopping at the first that throws |
| `Steps.ExecuteFour` | src/index.ts:34-51 | four steps are performed one after the other, stopping at the first that throws |
| `Steps.ExecuteFourReturned` | src/index.ts:34-51 | when four steps all returned, each returned on the filesystem the one before it left, and the last one's filesystem is the result |
| `Steps.ExecuteReplaysAttempted` | src/index.ts:34-62 | performing exactly the attempted steps again gives the same execution |
| `Steps.ExecuteStopsAtFailure` | src/index.ts:34-62 | on failure, every step before the last attempted returned, and the last one threw the reported error and left the reported filesystem |
| `RenderHandler.Run` | src/index.ts:25-74 | the handler as a function, branch for branch; its properties are stated by `RunFollowsPlan`, `StagesStopAtFirstFailure`, `SuccessOnlyAfterRender` and the lemmas after them |
| `RenderHandler.Attempt` | src/index.ts:34-72 | the handler after the `code` check; stated by `AttemptFollowsPlan` |
| `RenderHandler.RunStages` | src/index.ts:53-72 | the stage phase and its conclusion; stated by `RunStagesIsExecute` |
| `RenderHandler.Catch` | src/index.ts:69-72 | the `catch` block answers 500 with the error text and leaves no workspace |
| `RenderHandler.RenderServer.Populate` | src/index.ts:34-51 | the method's calls, trace and filesystem are those of performing the four workspace steps in order, stopping at the first that throws, a template that throws included |
| `RenderHandler.RenderServer.Recover` | src/index.ts:69-72 | the method's response, trace and filesystem are those of the `catch` block |
| `RenderHandler.RenderServer.RunPipeline` | src/index.ts:53-68 | the method's response, trace and filesystem are those of the stage phase |
| `RenderHandler.RenderServer.HandleRender` | src/index.ts:25-74 | the method's response, call trace and final filesystem are those of `Run` |
| `HandlerProperties.StageStepsUnfold` | src/index.ts:54-62 | each stage runs only if the one before it returned; only `renderMedia` changes the filesystem, by writing the video or leaving what a failed render wrote |
| `HandlerProperties.RunStagesIsExecute` | src/index.ts:53-72 | the stage phase is performing the three stage steps, then the cleanup or the `catch` block |
| `HandlerProperties.StageStepsEffects` | src/index.ts:54-62 | the stages change the filesystem only at the video path, and when all three returned the video is there |
| `HandlerProperties.AttemptFollowsPlan` | src/index.ts:34-72 | after the `code` check, the handler performs the seven steps in order and concludes |
| `HandlerProperties.RunFollowsPlan` | src/index.ts:29-72 | a request with `code` is the seven steps performed in order, stopping at the first that throws, followed by the `catch` block or the cleanup and 200 |
| `HandlerProperties.MkdirConfined` | src/index.ts:34 | `mkdirSync` changes nothing outside the workspace but new directories above it |
| `HandlerProperties.WriteConfined` | src/index.ts:39-51 | a write into the workspace keeps the workspace and changes nothing outside it |
| `HandlerProperties.CatchConfined` | src/index.ts:71 | the `catch` block removes the workspace and nothing else |
| `HandlerProperties.WorkspaceEffects` | src/index.ts:34-51 | the workspace phase leaves the filesystem unchanged if `mkdirSync` threw and the workspace in place otherwise, and changes nothing outside it but new directories above it |
| `HandlerProperties.MakeDirStep` | src/index.ts:34 | `mkdirSync` as a step changes nothing if it throws, leaves the workspace directory if it returns, and changes nothing outside it but new directories above it |
| `HandlerProperties.WorkspaceStep` | src/index.ts:39-51 | a write into the existing workspace, or a template that throws, keeps the workspace and changes nothing outside it |
| `HandlerProperties.WriteStepPlaces` | src/index.ts:39-51 | a write that returned accepted its data, placed it at its path and kept every other entry |
| `HandlerProperties.WritesPlaced` | src/index.ts:34-51 | when `mkdirSync` and three writes into the new directory all returned, the middle one was a write, all three accepted their data, and the directory holds the three files |
| `HandlerProperties.WorkspaceBeforeBundle` | src/index.ts:34-51 | once the workspace phase returned, `code` was a string, the template did not throw, and the workspace holds the component verbatim, the entry module and the manifest |
| `HandlerProperties.CatchClears` | src/index.ts:71 | the `catch` block removes an existing workspace, and returns a tree without one exactly as it was |
| `HandlerProperties.RemoveTreeClears` | src/index.ts:66 | after `rmSync` nothing remains at or below the workspace |
| `HandlerProperties.ConfinedTrans` | src/index.ts:34-51 | two changes confined to the workspace make a change confined to it |
| `HandlerProperties.ConfinedBesidesTrans` | src/index.ts:34-71 | a workspace-confined change followed by one confined to the workspace and the video is confined to both |
| `HandlerProperties.ConfinedWithin` | src/index.ts:34-71 | a change confined to the workspace is confined to the workspace and the video |
| `HandlerProperties.SameBesidesConfined` | src/index.ts:62-71 | a change only at the video path is confined to the workspace and the video |
| `HandlerProperties.CleanupConfined` | src/index.ts:62-66 | writing the video and removing the workspace changes nothing else |
| `HandlerProperties.AttemptRemovesWorkspace` | src/index.ts:34-72 | after the `code` check, every exit leaves no workspace, whatever lies below its path was there before, unchanged, and the answer is 200 or 500 |
| `HandlerProperties.AttemptStaysInside` | src/index.ts:34-71 | after the `code` check, nothing outside the workspace and the video changes but new directories above the workspace |
| `HandlerProperties.MissingCodeHasNoEffect` | src/index.ts:30-31 | the answer is 400 exactly when the body destructures and `code` is falsy, and then it is "Missing code", no call was made and the filesystem is unchanged |
| `HandlerProperties.WorkspaceRemoved` | src/index.ts:66-71 | on every exit but the 400 one the workspace does not exist, and whatever lies below its path was there before, unchanged |
| `HandlerProperties.OutsideWorkspaceUnchanged` | src/index.ts:34-71 | outside the workspace and the video path, a request changes nothing but creating missing directories above the workspace |
| `HandlerProperties.RendersDoNotInterfere` | src/index.ts:27-71 | a request never changes, creates or removes anything in the workspace or at the video path of a request with another uuid |
| `HandlerProperties.ConcludeReportsFirstFailure` | src/index.ts:69-72 | the handler's answer reports the first step that threw, with its error text, after steps that all returned |
| `HandlerProperties.StagesStopAtFirstFailure` | src/index.ts:34-62 | a request with `code` attempts a prefix of the seven steps in order; it answers 500 exactly when one threw, with that error's text, and every step before it returned |
| `HandlerProperties.AttemptSucceeds` | src/index.ts:59-68 | after the `code` check, the answer is 200 exactly when every step returned, and then it carries the video URL after all seven steps and the cleanup, with the video in place |
| `HandlerProperties.SuccessOnlyAfterRender` | src/index.ts:59-68 | the answer is 200 exactly when the body has `code`, the workspace was written and all three stages returned; it then carries `{baseUrl}/renders/{renderId}.mp4` and the id, the trace is the seven steps and the cleanup, and the video is in place |
| `HandlerProperties.RunStagesExtendsTrace` | src/index.ts:54-57 | once bundling returned, the next calls are the bundle of the entry module and the selection of `compositionId` at the bundle's location |
| `HandlerProperties.AttemptPassesCompositionId` | src/index.ts:39-57 | a request that reaches `selectComposition` wrote the component verbatim and the entry module the template returned, bundled the entry module and passed `compositionId` to `selectComposition` |
| `HandlerProperties.CompositionIdFlows` | src/index.ts:39-57 | for a request with `code` that reaches `selectComposition`: the component file holds `code` verbatim, the template returned and the entry file holds its text, the entry module is bundled, and `selectComposition` receives `compositionId` |
| `HandlerProperties.EntryModuleMatchesSelection` | src/index.ts:40-57 | for a string id without a double quote or `&` and numeric parameters, the id the written entry module declares is the id `selectComposition` is asked for, and its numeric attributes are the four resolved numbers |
| `HandlerProperties.AttemptRejectsNonString` | src/index.ts:39 | a non-string `code` stops the handler at the component write, after `mkdirSync`, and the workspace is removed |
| `HandlerProperties.NonStringCodeRejected` | src/index.ts:39 | a truthy non-string `code` gives 500 with Node's invalid-argument message after `mkdirSync`, the rejected write and the removal of the workspace |
| `HandlerProperties.AttemptRejectsUnprintable` | src/index.ts:39-48 | a template that throws stops the handler after the component write and before the entry write, and the workspace is removed |
| `HandlerProperties.UnprintableParameterRejected` | src/index.ts:40-48 | a string `code` with a parameter that is an object with its own `toString` key, or an array holding one, gives 500 with V8's "Cannot convert object to primitive value" after `mkdirSync`, the component write and the removal of the workspace; the entry file is never written |
| `HandlerProperties.UnreadableBodyFails` | src/index.ts:30 | an `undefined` or `null` body gives 500 with V8's destructuring TypeError message; nothing is created, and a leftover workspace of the same id is removed |

## Left out

- Express setup is not modelled (src/index.ts:9, 17-19, 76): CORS, the JSON body parser and its size limit, static serving of `/renders`, and `app.listen`. It is framework configuration.
- The `/health` endpoint (src/index.ts:21-23) is not modelled. It reads the wall clock.
- Process startup is not modelled (src/index.ts:10-15): `process.env` and the creation of the output directory. The output directory is a constant of `RenderServer`.
- uuid generation (src/index.ts:26) is not modelled. The render id is a parameter. Where uniqueness matters, `IsUuid` and distinct ids are preconditions, because collisions are only improbable.
- `bundle`, `selectComposition` and `renderMedia` are modelled only by their outcome (src/index.ts:54, 57, 62). Their internals, `webpackOverride` and `chromiumOptions` are not modelled.
- What a failed `renderMedia` leaves at the output location is a parameter (`StageOutcomes.partialOutput`): nothing, or some file. The `catch` block does not remove it, and the model keeps it.
- The directory `bundle` writes its webpack output to is not modelled. The handler never removes it, so every bundled request leaves it behind in the real system.
- Logging with `console.log` and `console.error` is not modelled.
- Filesystem errors are modelled only where they follow from the shape of the tree: a file where a directory is needed, or a directory where a file is needed. Permission errors, full disks and other I/O faults are not modelled. Neither is an `rmSync` that throws.
- Concurrency between in-flight requests is not modelled. Each request runs alone on the filesystem; `RendersDoNotInterfere` covers what the interleaving could touch.
- JSON numbers are modelled as integers. Fractions, exponents, `NaN` and their `String(...)` forms are not modelled. Neither is the exponent form `String(n)` takes from 10^21 on ("1e+21"): `IntToString` and `ToStrThrowsIff` print every integer in plain digits. Neither is the rounding of `JSON.parse` to the nearest double: an integer above 2^53 in the body is modelled exactly, though Node would round it.
- Strings are sequences of characters. A lone surrogate escape in the body, which Node's parser keeps but `writeFileSync` encodes as U+FFFD, is not modelled.
- Workspace.ParseEntry: JSX decodes character references such as `&amp;` in attribute strings, and this reader does not. It refuses any id that contains `&`.
- Workspace.DeclaredIdIsCompositionId: states nothing about an id that contains `&` and no double quote, because the reader refuses such ids.
- Workspace.EntryModuleDeclaresRequest: requires an id without `&`, for the same reason.
- HandlerProperties.EntryModuleMatchesSelection: requires an id without `&`, for the same reason.
- The bytes `JSON.stringify` produces for `package.json` are not modelled. The manifest is modelled by its fields.
- Node's and V8's error messages are modelled in the forms given in `Files` and `Requests` ("CODE: description, syscall 'path'", `ERR_INVALID_ARG_TYPE`, the destructuring TypeError, the primitive-conversion TypeError). Other engines' wording is not modelled. The part of the `ERR_INVALID_ARG_TYPE` message after "Received" is modelled in Node's wording for values without a `constructor` key of their own. The destructuring message is the one V8 gives when the compiled code keeps the destructuring. A build that lowers it to property reads would throw "Cannot read properties of undefined (reading 'code')" instead.
- HandlerProperties.NonStringCodeRejected: for an object `code` with its own `constructor` key, Node names that key's `name` in its message ("Received an instance of Foo" for `{"constructor":{"name":"Foo"}}`), and the model always says "an instance of Object". That part of the wording changes between Node versions, so it is left out.
- HandlerProperties.AttemptRejectsNonString: the message it fixes, `InvalidDataError(code)`, has the same gap for an object `code` with its own `constructor` key.
- RenderHandler.RenderServer.HandleRender: it computes `Run`, so its 500 answer for such a `code` has the same gap.
- The code answers 500, not 400, when `req.body` is `undefined` or `null`. Destructuring throws before the `code` check can run. The model follows the code (`UnreadableBodyFails`).
