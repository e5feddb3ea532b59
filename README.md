# skill connect — a Dafny model

`skill connect` registers a skill with a Virtual Assistant. It takes two
options, `--skillManifest <path>` and `--assistantSkills <path>`, and works
through these steps:

1. It checks each path in turn: the option is given, it ends in `json`, and the
   file exists once resolved against the working directory.
2. It loads the skill manifest and prints a warning for each missing required
   field (`name`, `id`, `endpoint`, `authenticationConnections`, `actions`).
   The warnings never stop the run. A missing `name` is still compared as
   `undefined`, so it matches a nameless entry.
3. It loads the assistant's skills collection.
4. It stops with exit code 1 if an entry with the same `name` is already registered.
5. Otherwise it pushes the manifest onto the end of the collection and rewrites
   the collection file.

The model keeps the JavaScript semantics the script relies on:

- **Truthiness.** An empty string is missing. An empty array or object is
  present. `actions` is missing when it is falsy or when its element 0 is falsy.
- **Strict equality.** Two absent names are `===`. Two objects from different
  documents never are.
- **`lastIndexOf` returning -1.** A path with no dot is compared whole with
  `json`.
- **`find`.** It returns the first matching entry itself, and the script then
  tests that entry's truthiness.
- **Uncaught `TypeError`s.** These are thrown by a `null` manifest, a collection
  that is not an array, a `null` entry that `find` reaches, and a manifest name
  that cannot be turned into text for the progress message printed before the
  push. Such a name is an object with its own `toString` member, or an array
  holding one. Each of these ends the run with exit code 1 and no write.

Files:

- `wrappers.dfy`: `Option` (where `None` is `undefined`) and `Result`.
- `json.dfy` (module `JsonValues`): parsed JSON, truthiness, `===`, property
  access, `x[0]` and conversion to text.
- `paths.dfy` (module `PathChecks`): `lastIndexOf`, the `.json` test and path
  resolution. Path resolution uses `isAbsolute`, `join` and the working
  directory as uninterpreted operations.
- `manifest.dfy` (module `ManifestFields`): the required-field table, the
  warnings and `find` by name.
- `skill_connect.dfy` (module `SkillConnect`):
  - the run as a specification function, `Register`, with `Load` and `Decide`
    as its stages;
  - the file system as a map from path to content;
  - the imperative script body, `FileSystem.Connect`, proved equal to
    `Register`. It has early exits, pushes onto the loaded `JsArray` and
    overwrites the collection file.
- `properties.dfy` (module `SkillConnectProperties`): what a run guarantees.

A path with no dot is compared whole with `json`, since `lastIndexOf` gives -1,
so the path `json` passes the extension check. The model follows this
(`PathChecks.JsonExtensionIff`).

## Model

| member | source | states |
|---|---|---|
| `PathChecks.LastIndexOf` | lib/typescript/skill-tool/src/skill-connect.ts:32 | The result is -1 exactly when the character does not occur. Otherwise it is an index holding the character, with no occurrence after it. |
| `PathChecks.JsonExtensionIff` | lib/typescript/skill-tool/src/skill-connect.ts:32 | A path passes the `json` check exactly when it ends in `.json` or is the dot-free string `json`. The match is case-sensitive. |
| `PathChecks.EndsWithJsonPasses` | lib/typescript/skill-tool/src/skill-connect.ts:46 | Every path ending in `.json` passes the check: its last dot is the one before `json`. |
| `PathChecks.PassingPathEndsWithJson` | lib/typescript/skill-tool/src/skill-connect.ts:46 | Every path that passes the check is `json` itself or ends in `.json`. |
| `PathChecks.ResolveKeepsAbsolute` | lib/typescript/skill-tool/src/skill-connect.ts:36 | An absolute path resolves to itself. |
| `PathChecks.ResolveIdempotent` | lib/typescript/skill-tool/src/skill-connect.ts:50 | Assume joining onto the working directory gives an absolute path. Then resolution gives an absolute path, and resolving that path again changes nothing. |
| `ManifestFields.MissingAmong` | lib/typescript/skill-tool/src/skill-connect.ts:61-75 | A field is in the result exactly when it is in the list and missing from the manifest. The result keeps the list's order. |
| `ManifestFields.Warnings` | lib/typescript/skill-tool/src/skill-connect.ts:61-75 | A field is warned about exactly when it is missing. The warnings come in the order name, id, endpoint, authenticationConnections, actions. No field is warned about twice, so there are at most five warnings. |
| `ManifestFields.WarningsAtMostFive` | lib/typescript/skill-tool/src/skill-connect.ts:61-75 | A list of fields in strict check order has at most five entries. |
| `ManifestFields.FindByName` | lib/typescript/skill-tool/src/skill-connect.ts:80 | `Match(i)` means entry `i` is non-null and its name is `===` the manifest's name. `NullEntry(i)` means entry `i` is `null`. Every entry before the result is non-null and has a different name. With `NoMatch`, that holds for every entry. |
| `SkillConnect.Register` | lib/typescript/skill-tool/src/skill-connect.ts:26-27 | A run only shows help exactly when no argument follows the script name. |
| `SkillConnect.JsArray.constructor` | lib/typescript/skill-tool/src/skill-connect.ts:79 | The loaded array holds the collection's entries. |
| `SkillConnect.JsArray.Push` | lib/typescript/skill-tool/src/skill-connect.ts:85 | `push` appends the value at the end and returns the new length. |
| `JsonValues.StrictlyEqualConverts` | lib/typescript/skill-tool/src/skill-connect.ts:80-81 | A name that is `===` to an entry's name is a primitive or absent. So the "already registered" message, which interpolates it, cannot throw. |
| `SkillConnect.FileSystem.Connect` | lib/typescript/skill-tool/src/skill-connect.ts:26-88 | The script body produces the outcome `Register` specifies. This includes the `TypeError` thrown when the progress message cannot convert the name, before the push. The files afterwards are the old ones, or the old ones with the collection file overwritten by the new collection when the run succeeds. |
| `SkillConnectProperties.FirstFailingCheckDecides` | lib/typescript/skill-tool/src/skill-connect.ts:29-56 | The six checks run in this order: manifest option given, ends in `json`, exists; then the same three for the collection option. The first one to fail ends the run with exit code 1 and that check's reason. No warning is printed and no file is written. |
| `SkillConnectProperties.FirstFailingOptionCheck` | lib/typescript/skill-tool/src/skill-connect.ts:29-42 | For one option, the first of its three checks to fail is the error reported for that option. |
| `SkillConnectProperties.PassingChecksReachLoading` | lib/typescript/skill-tool/src/skill-connect.ts:29-56 | When all six checks pass, the run never fails for an argument reason. |
| `SkillConnectProperties.NoArgumentsShowsHelp` | lib/typescript/skill-tool/src/skill-connect.ts:26-27 | With no argument after the script name, the run only shows help. It writes nothing and exits with 0. |
| `SkillConnectProperties.FailureWritesNothing` | lib/typescript/skill-tool/src/skill-connect.ts:80-86 | Every failed run exits with 1 and leaves every file unchanged. |
| `SkillConnectProperties.LoadedFromFiles` | lib/typescript/skill-tool/src/skill-connect.ts:29-79 | Loading succeeds only when both options are given and both resolved files exist. The manifest file must hold the loaded manifest, and the collection file must hold an array of the loaded entries. |
| `SkillConnectProperties.DecideAppendsAtEnd` | lib/typescript/skill-tool/src/skill-connect.ts:84-85 | The only success after loading puts the manifest after all existing entries. |
| `SkillConnectProperties.RegistrationAppends` | lib/typescript/skill-tool/src/skill-connect.ts:84-86 | After a successful run, the new collection is the collection file's array with the manifest file's document appended: one longer, earlier entries unchanged and in place. The warnings are those of that manifest. Only the collection file is overwritten, and the exit code is 0. |
| `SkillConnectProperties.DuplicateIffNameTaken` | lib/typescript/skill-tool/src/skill-connect.ts:80-85 | Take a collection of objects. The manifest is rejected as already registered exactly when some entry's name is `===` its own, and two absent names count as a match. Otherwise the run fails with a `TypeError` when the name cannot be turned into text, and in every other case the manifest is appended at the end. |
| `SkillConnectProperties.RegistrationKeepsNamesDistinct` | lib/typescript/skill-tool/src/skill-connect.ts:80-85 | Take a collection of objects. If the entries' names were pairwise distinct, they still are after a successful registration. |
| `SkillConnectProperties.WarningsNeverDecide` | lib/typescript/skill-tool/src/skill-connect.ts:61-83 | Two manifests with the same name end the same way. Fields other than `name` change only the warnings, and the warnings never stop the run. |
| `SkillConnectProperties.NoMissingFieldNoWarning` | lib/typescript/skill-tool/src/skill-connect.ts:61-75 | A manifest with no missing field gets no warning. |
| `SkillConnectProperties.EmptyContainersArePresent` | lib/typescript/skill-tool/src/skill-connect.ts:70-73 | An empty `authenticationConnections` array and an empty object as first action draw no warning. |
| `SkillConnectProperties.FreshRegistrationScenario` | lib/typescript/skill-tool/src/skill-connect.ts:80-86 | A complete manifest registered into an empty collection draws no warning and yields the one-element collection. |
| `SkillConnectProperties.IntoEmptyCollection` | lib/typescript/skill-tool/src/skill-connect.ts:80-85 | Any manifest is appended to an empty collection, with its warnings. The exception is a manifest whose name cannot be turned into text: that run fails with a `TypeError`. |
| `SkillConnectProperties.ObjectNameIsNotRegistered` | lib/typescript/skill-tool/src/skill-connect.ts:84-86 | Take a complete manifest whose name is `{"toString": 1}`. It is not registered even into an empty collection, because the progress message throws a `TypeError` before the push and the write. |
| `SkillConnectProperties.FalsyMatchDoesNotBlock` | lib/typescript/skill-tool/src/skill-connect.ts:80 | Take a collection `[0]` and a nameless manifest. The entry `0` matches the name, but `find` returns that falsy entry, so the manifest is appended. |

## Left out

- Option parsing is not modelled. This covers `commander`, the `unknownOption` override and `showErrorHelp`, which are library plumbing. The parsed command line is given as a count of words and two optional strings.
- Messages and their colouring are not modelled. The warnings are kept as the list of fields they name.
- `JSON.stringify` with 4-space indentation is not modelled. A written file is its JSON value, so reloading it gives back exactly the collection that was written.
- Files are given as a map from path to content: a parsed JSON value or unparseable text. This means:
  - `existsSync` is membership in the map, including for paths that are directories;
  - `require` is a lookup, and unparseable text ends the run with exit code 1;
  - read and write errors other than parsing are not modelled;
  - an interrupted write is not modelled.
- Two features of Node's `require` are not modelled:
  - its module cache, which returns the same object when both options resolve to the same file. When that file holds an array, the push puts the array into itself, and `JSON.stringify` then throws on the circular structure. That run exits with 1 and writes nothing, while the model appends and writes;
  - loading as JavaScript, rather than JSON, a file whose base name is `json` or `.json`. Both pass the extension check, but Node sees no extension in either. For example, a non-empty object manifest in such a file is a syntax error, and an array file loads as `{}`.
- `path.isAbsolute`, `path.join` and `resolve('./')` are uninterpreted operations, so platform path rules are not modelled.
- Numbers are kept as the exact value written in the document, not rounded to doubles as JavaScript does while parsing. Rounding can change both truthiness and `===`, and the model does not capture that. For example, `1e-400` parses to `0`, so as an `id` it draws a warning in JavaScript and none in the model. Likewise `9007199254740993 === 9007199254740992` holds after parsing, so such numeric names are duplicates in JavaScript and distinct in the model.
- `SkillConnectProperties.DuplicateIffNameTaken` and `SkillConnectProperties.RegistrationKeepsNamesDistinct` assume that every entry is an object, as the collection's declared element type says. For other entries, `Decide` follows the script's `find` and truthiness test (see `FalsyMatchDoesNotBlock`). With a falsy primitive entry such as `0`, the script itself can register a second nameless skill, so names are then no longer distinct.
- `SkillConnect.FileSystem.Connect` does not print the five warnings one at a time. It takes them at once from the field table in `ManifestFields.Warnings`, which gives the same list in the same order.
- The C# files of the Virtual Assistant solution are not part of this model: `StepHelperTests.cs`, `MockLuisRecognizer.cs` and `MockPointOfInterestIntent.cs`. They are test classes and test doubles for external SDKs, with no behaviour of their own.
