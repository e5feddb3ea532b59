/**
 * The `skill connect` command: validates the two path arguments, loads the
 * skill manifest and the assistant's skills collection, warns about missing
 * manifest fields, rejects a skill whose name is already registered and
 * otherwise appends the manifest and rewrites the collection file.
 */
module SkillConnect {
  import opened Wrappers
  import opened JsonValues
  import opened PathChecks
  import opened ManifestFields

  /** The parsed command line: how many words followed the script name
      (`process.argv.length - 2`) and the two options, if given. */
  datatype Args = Args(count: nat, skillManifest: Option<string>, assistantSkills: Option<string>)

  /** Which of the two path options a failure is about. */
  datatype Arg = SkillManifestArg | AssistantSkillsArg

  /** A file on disk: a JSON document, or content that `require` cannot parse. */
  datatype Content = Document(value: Json) | Malformed

  /** The file system as the tool sees it: existing paths and their contents. */
  type Files = map<string, Content>

  /** Why a run ended with exit code 1. `TypeError` is the uncaught exception
      raised by reading a property of `null`, calling `find` on a non-array,
      or converting a manifest name to text when it cannot be. */
  datatype Reason =
    | MissingArgument(arg: Arg)
    | NotJsonFile(arg: Arg)
    | NotFound(arg: Arg)
    | ParseError(arg: Arg)
    | TypeError(arg: Arg)
    | AlreadyRegistered

  /** How a run ends, with the field warnings printed on the way. */
  datatype Outcome =
    | Help
    | Failed(reason: Reason, warnings: seq<Field>)
    | Appended(path: string, skills: seq<Json>, warnings: seq<Field>)

  /** The process exit code: `program.help()` exits with 0, every failure
      (explicit `process.exit(1)` or an uncaught exception) with 1. */
  function ExitCode(o: Outcome): int
  {
    if o.Failed? then 1 else 0
  }

  /** `!args.x` is false: the option was given with a non-empty value. */
  predicate Given(arg: Option<string>)
  {
    arg.Some? && arg.value != ""
  }

  /** The three checks on one path option, in order: given, `.json`, exists
      once resolved. Yields the resolved path. */
  function CheckPath(arg: Arg, given: Option<string>, ops: PathOps, files: Files): (r: Result<string, Reason>)
    ensures r.Ok? ==> r.value in files
  {
    if !Given(given) then Err(MissingArgument(arg))
    else if !HasJsonExtension(given.value) then Err(NotJsonFile(arg))
    else
      var path := Resolve(ops, given.value);
      if path !in files then Err(NotFound(arg)) else Ok(path)
  }

  /** Everything the duplicate check works on: where the collection lives,
      the manifest, and the collection's entries. */
  datatype Loaded = Loaded(skillsPath: string, manifest: Json, entries: seq<Json>)

  /** Runs the path checks and loads both documents, printing the manifest's
      field warnings between the two loads; an error carries the run's final
      outcome. */
  function Load(args: Args, ops: PathOps, files: Files): Result<Loaded, Outcome>
  {
    match CheckPath(SkillManifestArg, args.skillManifest, ops, files)
    case Err(reason) => Err(Failed(reason, []))
    case Ok(manifestPath) =>
      match CheckPath(AssistantSkillsArg, args.assistantSkills, ops, files)
      case Err(reason) => Err(Failed(reason, []))
      case Ok(skillsPath) =>
        match files[manifestPath]
        case Malformed => Err(Failed(ParseError(SkillManifestArg), []))
        case Document(manifest) =>
          if manifest == JNull then Err(Failed(TypeError(SkillManifestArg), []))
          else
            var warnings := Warnings(manifest);
            match files[skillsPath]
            case Malformed => Err(Failed(ParseError(AssistantSkillsArg), warnings))
            case Document(collection) =>
              if !collection.JArr? then Err(Failed(TypeError(AssistantSkillsArg), warnings))
              else Ok(Loaded(skillsPath, manifest, collection.items))
  }

  /** The manifest's name is an object (or holds one) that cannot be turned
      into text, so the progress message printed before the push throws. */
  predicate NameUnprintable(m: Json)
  {
    var name := NameOf(m);
    name.Some? && StringConversionThrows(name.value)
  }

  /** The duplicate check and the append: `find` by name, stop if it returned
      a (truthy) entry, else print the progress message naming the skill and
      push the manifest at the end. The "already registered" message names
      the skill too, but a name that matched is a primitive and always
      converts (`StrictlyEqualConverts`). */
  function Decide(l: Loaded): Outcome
  {
    var warnings := Warnings(l.manifest);
    match FindByName(l.entries, NameOf(l.manifest))
    case NullEntry(_) => Failed(TypeError(AssistantSkillsArg), warnings)
    case Match(i) =>
      if Truthy(Some(l.entries[i])) then Failed(AlreadyRegistered, warnings)
      else Append(l, warnings)
    case NoMatch => Append(l, warnings)
  }

  /** The end of a run that passed the duplicate check. */
  function Append(l: Loaded, warnings: seq<Field>): Outcome
  {
    if NameUnprintable(l.manifest) then Failed(TypeError(SkillManifestArg), warnings)
    else Appended(l.skillsPath, l.entries + [l.manifest], warnings)
  }

  /** One run of `skill connect`: help when no argument follows the script
      name, otherwise load and decide. */
  function Register(args: Args, ops: PathOps, files: Files): (o: Outcome)
    ensures o.Help? <==> args.count == 0
  {
    if args.count == 0 then Help
    else
      match Load(args, ops, files)
      case Err(early) => early
      case Ok(l) => Decide(l)
  }

  /** The files after a run: only a successful registration writes, and it
      overwrites the collection file with the whole new collection. */
  function AfterRun(files: Files, o: Outcome): Files
  {
    if o.Appended? then files[o.path := Document(JArr(o.skills))] else files
  }

  /** The JavaScript array `require` returns for the collection file, which
      the tool extends in place with `push`. */
  class JsArray {
    var items: seq<Json>

    constructor (items: seq<Json>)
      ensures this.items == items
    {
      this.items := items;
    }

    /** `push`: appends at the end and returns the new length. */
    method Push(x: Json) returns (length: nat)
      modifies this
      ensures items == old(items) + [x]
      ensures length == |items|
    {
      items := items + [x];
      length := |items|;
    }
  }

  /** The disk the tool reads its two documents from and writes the
      collection back to. */
  class FileSystem {
    var files: Files

    constructor (files: Files)
      ensures this.files == files
    {
      this.files := files;
    }

    /** The script body: each check exits at its first failure; after the
        warnings and the duplicate check, the loaded array gets the manifest
        pushed onto it and the whole collection file is overwritten. */
    method Connect(args: Args, ops: PathOps) returns (outcome: Outcome)
      modifies this
      ensures outcome == Register(args, ops, old(files))
      ensures files == AfterRun(old(files), outcome)
    {
      if args.count == 0 {
        return Help;
      }
      if !Given(args.skillManifest) {
        return Failed(MissingArgument(SkillManifestArg), []);
      } else if !HasJsonExtension(args.skillManifest.value) {
        return Failed(NotJsonFile(SkillManifestArg), []);
      }
      var manifestPath := Resolve(ops, args.skillManifest.value);
      if manifestPath !in files {
        return Failed(NotFound(SkillManifestArg), []);
      }
      if !Given(args.assistantSkills) {
        return Failed(MissingArgument(AssistantSkillsArg), []);
      } else if !HasJsonExtension(args.assistantSkills.value) {
        return Failed(NotJsonFile(AssistantSkillsArg), []);
      }
      var skillsPath := Resolve(ops, args.assistantSkills.value);
      if skillsPath !in files {
        return Failed(NotFound(AssistantSkillsArg), []);
      }

      if files[manifestPath].Malformed? {
        return Failed(ParseError(SkillManifestArg), []);
      }
      var manifest := files[manifestPath].value;
      if manifest == JNull {
        return Failed(TypeError(SkillManifestArg), []);
      }
      // One warning per missing required field; none of them stops the run.
      var warnings := Warnings(manifest);

      if files[skillsPath].Malformed? {
        return Failed(ParseError(AssistantSkillsArg), warnings);
      }
      var collection := files[skillsPath].value;
      if !collection.JArr? {
        return Failed(TypeError(AssistantSkillsArg), warnings);
      }
      assert Load(args, ops, old(files)) == Ok(Loaded(skillsPath, manifest, collection.items));
      var skills := new JsArray(collection.items);
      var found := FindByName(skills.items, NameOf(manifest));
      if found.NullEntry? {
        return Failed(TypeError(AssistantSkillsArg), warnings);
      }
      if found.Match? && Truthy(Some(skills.items[found.index])) {
        return Failed(AlreadyRegistered, warnings);
      }
      // The progress message interpolates the name before anything is pushed.
      if NameUnprintable(manifest) {
        return Failed(TypeError(SkillManifestArg), warnings);
      }
      var _ := skills.Push(manifest);
      files := files[skillsPath := Document(JArr(skills.items))];
      return Appended(skillsPath, skills.items, warnings);
    }
  }
}
