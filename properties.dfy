/**
 * What a run of `skill connect` guarantees: the order of the argument checks,
 * help without checks, no write on failure, rejection of a taken name,
 * append-only registration, and unique names kept unique.
 */
module SkillConnectProperties {
  import opened Wrappers
  import opened JsonValues
  import opened PathChecks
  import opened ManifestFields
  import opened SkillConnect

  /** The three checks on one path option: given, `.json`, exists once
      resolved. */
  predicate OptionCheckPasses(j: nat, given: Option<string>, ops: PathOps, files: Files)
    requires j < 3
  {
    if j == 0 then Given(given)
    else if j == 1 then Given(given) && HasJsonExtension(given.value)
    else Given(given) && Resolve(ops, given.value) in files
  }

  function OptionCheckReason(j: nat, arg: Arg): Reason
    requires j < 3
  {
    if j == 0 then MissingArgument(arg) else if j == 1 then NotJsonFile(arg) else NotFound(arg)
  }

  /** The six argument checks in the order the script runs them: 0-2 for the
      manifest option, 3-5 for the collection option. */
  predicate CheckPasses(k: nat, args: Args, ops: PathOps, files: Files)
    requires k < 6
  {
    if k < 3 then OptionCheckPasses(k, args.skillManifest, ops, files)
    else OptionCheckPasses(k - 3, args.assistantSkills, ops, files)
  }

  /** The failure reported when check `k` is the first to fail. */
  function CheckReason(k: nat): Reason
    requires k < 6
  {
    if k < 3 then OptionCheckReason(k, SkillManifestArg) else OptionCheckReason(k - 3, AssistantSkillsArg)
  }

  predicate IsArgumentReason(r: Reason)
  {
    r.MissingArgument? || r.NotJsonFile? || r.NotFound?
  }

  /** For one option, the first of its three checks to fail is the error
      `CheckPath` reports. */
  lemma FirstFailingOptionCheck(arg: Arg, given: Option<string>, ops: PathOps, files: Files, j: nat)
    requires j < 3
    requires forall i :: 0 <= i < j ==> OptionCheckPasses(i, given, ops, files)
    requires !OptionCheckPasses(j, given, ops, files)
    ensures CheckPath(arg, given, ops, files) == Err(OptionCheckReason(j, arg))
  {
    if j > 0 {
      assert OptionCheckPasses(0, given, ops, files);
    }
    if j > 1 {
      assert OptionCheckPasses(1, given, ops, files);
    }
  }

  /** The first argument check to fail decides the run: it exits with code 1
      and that check's reason, before any warning and without writing. */
  lemma FirstFailingCheckDecides(args: Args, ops: PathOps, files: Files, k: nat)
    requires args.count > 0 && k < 6
    requires forall j :: 0 <= j < k ==> CheckPasses(j, args, ops, files)
    requires !CheckPasses(k, args, ops, files)
    ensures Register(args, ops, files) == Failed(CheckReason(k), [])
    ensures AfterRun(files, Register(args, ops, files)) == files
  {
    if k < 3 {
      forall i | 0 <= i < k ensures OptionCheckPasses(i, args.skillManifest, ops, files) {
        assert CheckPasses(i, args, ops, files);
      }
      FirstFailingOptionCheck(SkillManifestArg, args.skillManifest, ops, files, k);
    } else {
      assert CheckPasses(2, args, ops, files);
      assert OptionCheckPasses(2, args.skillManifest, ops, files);
      assert OptionCheckPasses(1, args.skillManifest, ops, files) by {
        assert CheckPasses(1, args, ops, files);
      }
      assert CheckPath(SkillManifestArg, args.skillManifest, ops, files).Ok?;
      forall i | 0 <= i < k - 3 ensures OptionCheckPasses(i, args.assistantSkills, ops, files) {
        assert CheckPasses(i + 3, args, ops, files);
      }
      FirstFailingOptionCheck(AssistantSkillsArg, args.assistantSkills, ops, files, k - 3);
    }
  }

  /** When all six argument checks pass, the run gets past them: it does not
      fail for an argument reason. */
  lemma PassingChecksReachLoading(args: Args, ops: PathOps, files: Files)
    requires args.count > 0
    requires forall k :: 0 <= k < 6 ==> CheckPasses(k, args, ops, files)
    ensures var o := Register(args, ops, files); o.Failed? ==> !IsArgumentReason(o.reason)
  {
    assert CheckPasses(1, args, ops, files) && CheckPasses(2, args, ops, files);
    assert CheckPasses(4, args, ops, files) && CheckPasses(5, args, ops, files);
    assert CheckPath(SkillManifestArg, args.skillManifest, ops, files).Ok?;
    assert CheckPath(AssistantSkillsArg, args.assistantSkills, ops, files).Ok?;
  }

  /** With no argument after the script name only help is shown: nothing is
      checked or written and the exit code is 0. */
  lemma NoArgumentsShowsHelp(args: Args, ops: PathOps, files: Files)
    requires args.count == 0
    ensures Register(args, ops, files) == Help
    ensures AfterRun(files, Help) == files && ExitCode(Help) == 0
  {
  }

  /** Every failure exits with code 1 and leaves every file as it was. */
  lemma FailureWritesNothing(args: Args, ops: PathOps, files: Files)
    ensures var o := Register(args, ops, files);
      o.Failed? ==> ExitCode(o) == 1 && AfterRun(files, o) == files
  {
  }

  /** Loading succeeds only with both options given, both files present, the
      manifest file holding the manifest and the collection file an array of
      the entries. */
  lemma LoadedFromFiles(args: Args, ops: PathOps, files: Files)
    ensures var r := Load(args, ops, files);
      r.Ok? ==>
        && Given(args.skillManifest) && Given(args.assistantSkills)
        && r.value.skillsPath == Resolve(ops, args.assistantSkills.value) && r.value.skillsPath in files
        && files[r.value.skillsPath] == Document(JArr(r.value.entries))
        && Resolve(ops, args.skillManifest.value) in files
        && files[Resolve(ops, args.skillManifest.value)] == Document(r.value.manifest)
  {
  }

  /** The only success `Decide` produces puts the manifest after the entries. */
  lemma DecideAppendsAtEnd(l: Loaded)
    ensures Decide(l).Appended? ==>
      Decide(l) == Appended(l.skillsPath, l.entries + [l.manifest], Warnings(l.manifest))
  {
  }

  /** A successful run appends the manifest file's document to the end of the
      collection loaded from the collection file (one entry longer, every
      earlier entry in place) and overwrites only that file with it. */
  lemma RegistrationAppends(args: Args, ops: PathOps, files: Files)
    ensures var o := Register(args, ops, files);
      o.Appended? ==>
        var n := |o.skills| - 1;
        && Given(args.skillManifest) && Given(args.assistantSkills)
        && o.path == Resolve(ops, args.assistantSkills.value)
        && n >= 0 && o.path in files
        && files[o.path] == Document(JArr(o.skills[..n]))
        && Resolve(ops, args.skillManifest.value) in files
        && files[Resolve(ops, args.skillManifest.value)] == Document(o.skills[n])
        && o.warnings == Warnings(o.skills[n])
        && ExitCode(o) == 0
        && AfterRun(files, o) == files[o.path := Document(JArr(o.skills))]
  {
    var o := Register(args, ops, files);
    if o.Appended? {
      var loaded := Load(args, ops, files);
      assert loaded.Ok?;
      var l := loaded.value;
      assert o == Decide(l);
      LoadedFromFiles(args, ops, files);
      DecideAppendsAtEnd(l);
      assert o.skills[..|o.skills| - 1] == l.entries;
    }
  }

  /** Every entry is an object, as the collection's declared type says. */
  predicate AllObjects(entries: seq<Json>)
  {
    forall i :: 0 <= i < |entries| ==> entries[i].JObj?
  }

  /** No two entries' names are `===`. */
  predicate NamesDistinct(entries: seq<Json>)
  {
    forall i, j :: 0 <= i < j < |entries| ==> !StrictEquals(NameOf(entries[i]), NameOf(entries[j]))
  }

  predicate NameTaken(entries: seq<Json>, name: Option<Json>)
  {
    exists i :: 0 <= i < |entries| && StrictEquals(NameOf(entries[i]), name)
  }

  /** Over a collection of objects, the manifest is rejected as already
      registered exactly when some entry's name is `===` its own (two absent
      names match). Otherwise the run throws on a name that cannot be turned
      into text, and appends the manifest at the end in every other case.
      Warnings are printed either way. */
  lemma DuplicateIffNameTaken(l: Loaded)
    requires AllObjects(l.entries)
    ensures Decide(l) == if NameTaken(l.entries, NameOf(l.manifest))
                         then Failed(AlreadyRegistered, Warnings(l.manifest))
                         else if NameUnprintable(l.manifest)
                         then Failed(TypeError(SkillManifestArg), Warnings(l.manifest))
                         else Appended(l.skillsPath, l.entries + [l.manifest], Warnings(l.manifest))
  {
    var r := FindByName(l.entries, NameOf(l.manifest));
    if NameTaken(l.entries, NameOf(l.manifest)) {
      var i :| 0 <= i < |l.entries| && StrictEquals(NameOf(l.entries[i]), NameOf(l.manifest));
      assert !r.NoMatch?;
      assert !r.NullEntry?;
      assert l.entries[r.index].JObj?;
    } else {
      assert !r.Match?;
      assert !r.NullEntry?;
    }
  }

  /** Registering into a collection of objects whose names are pairwise
      distinct keeps them pairwise distinct. */
  lemma RegistrationKeepsNamesDistinct(l: Loaded)
    requires AllObjects(l.entries) && NamesDistinct(l.entries)
    ensures Decide(l).Appended? ==> NamesDistinct(Decide(l).skills)
  {
    DuplicateIffNameTaken(l);
    if Decide(l).Appended? {
      var s := Decide(l).skills;
      assert s == l.entries + [l.manifest];
      forall i, j | 0 <= i < j < |s|
        ensures !StrictEquals(NameOf(s[i]), NameOf(s[j]))
      {
        if j == |l.entries| {
          assert s[i] == l.entries[i];
        }
      }
    }
  }

  /** The outcome does not depend on which fields are missing: a manifest
      with the same name takes the same branch, only its warnings differ. */
  lemma WarningsNeverDecide(l: Loaded, other: Json)
    requires NameOf(other) == NameOf(l.manifest)
    ensures var o, o' := Decide(l), Decide(l.(manifest := other));
      && (o.Appended? <==> o'.Appended?)
      && (o.Failed? ==> o'.Failed? && o'.reason == o.reason)
  {
  }

  /** A manifest with every required field present, including an empty
      `authenticationConnections` and an empty object as its first action. */
  function CompleteManifest(): Json
  {
    JObj(map[
      "name" := JStr("Foo"), "id" := JStr("1"), "endpoint" := JStr("https://x"),
      "authenticationConnections" := JArr([]), "actions" := JArr([JObj(map[])])])
  }

  /** A manifest that lacks no field gets no warning. */
  lemma NoMissingFieldNoWarning(m: Json)
    requires forall f :: !Missing(m, f)
    ensures Warnings(m) == []
  {
    NothingMissingAmong(m, RequiredFields);
  }

  lemma {:induction false} NothingMissingAmong(m: Json, fs: seq<Field>)
    requires InCheckOrder(fs)
    requires forall f :: f in fs ==> !Missing(m, f)
    ensures MissingAmong(m, fs) == []
  {
    if fs != [] {
      assert fs[0] in fs;
      NothingMissingAmong(m, fs[1..]);
    }
  }

  /** An empty array and an empty object count as present. */
  lemma EmptyContainersArePresent()
    ensures Warnings(CompleteManifest()) == []
  {
    var m := CompleteManifest();
    forall f ensures !Missing(m, f) {
      assert Key(f) in m.fields;
    }
    NoMissingFieldNoWarning(m);
  }

  lemma CompleteManifestName()
    ensures NameOf(CompleteManifest()) == Some(JStr("Foo"))
  {
    assert "name" in CompleteManifest().fields;
  }

  /** Registering that manifest into an empty collection: no warning, and
      the collection becomes that one manifest. */
  lemma FreshRegistrationScenario(path: string)
    ensures Decide(Loaded(path, CompleteManifest(), [])) == Appended(path, [CompleteManifest()], [])
  {
    EmptyContainersArePresent();
    CompleteManifestName();
    IntoEmptyCollection(path, CompleteManifest());
  }

  /** Nothing is registered yet, so any manifest is appended, unless its
      name cannot be turned into text for the progress message. */
  lemma IntoEmptyCollection(path: string, m: Json)
    ensures Decide(Loaded(path, m, [])) ==
      if NameUnprintable(m) then Failed(TypeError(SkillManifestArg), Warnings(m))
      else Appended(path, [m], Warnings(m))
  {
    assert FindByName([], NameOf(m)) == NoMatch;
    assert [] + [m] == [m];
  }

  /** A complete manifest whose name is an object with its own `toString`
      member. */
  function ObjectNamedManifest(): Json
  {
    JObj(map[
      "name" := JObj(map["toString" := JNum(1.0)]), "id" := JStr("1"), "endpoint" := JStr("e"),
      "authenticationConnections" := JArr([]), "actions" := JArr([JObj(map[])])])
  }

  lemma ObjectNamedManifestName()
    ensures NameUnprintable(ObjectNamedManifest())
  {
    assert "name" in ObjectNamedManifest().fields;
    assert "toString" in ObjectNamedManifest().fields["name"].fields;
  }

  /** That manifest is not registered, even into an empty collection: the
      progress message throws before the push and the write. */
  lemma ObjectNameIsNotRegistered(path: string)
    ensures Decide(Loaded(path, ObjectNamedManifest(), [])).Failed?
    ensures Decide(Loaded(path, ObjectNamedManifest(), [])).reason == TypeError(SkillManifestArg)
  {
    ObjectNamedManifestName();
    IntoEmptyCollection(path, ObjectNamedManifest());
  }

  /** `find` hands back the matching entry itself and the script tests its
      truthiness, so a falsy entry (here `0`, whose name is `undefined`) does
      not block a nameless manifest. */
  lemma FalsyMatchDoesNotBlock(path: string)
    ensures var m := JObj(map["id" := JStr("1")]);
      && StrictEquals(NameOf(JNum(0.0)), NameOf(m))
      && Decide(Loaded(path, m, [JNum(0.0)])).Appended?
  {
  }
}
