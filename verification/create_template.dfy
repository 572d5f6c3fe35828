/** options() of create_template.py: the run settings it writes onto the
    environment, the guards that reject a request, and the cache work it does for
    the `composite` input source. */
module CreateTemplate {
  import opened Paths
  import opened Host
  import opened Fragments
  import opened Cache

  // Defaults (lines 12-17)
  const ConfigurationReferenceDefault := "unassigned"
  const RequestReferenceDefault := "unassigned"
  const DeploymentModeDefault := "update"
  const GenerationProvidersDefault: seq<string> := ["aws"]
  const GenerationFrameworkDefault := "cf"
  /** Declared next to the others but never read by options(): an empty input
      source falls back to the framework default instead (line 48). */
  const GenerationInputSourceDefault := "composite"

  const CompositeInput := "composite"
  const MockInput := "mock"
  const AccountLevel := "account"
  const SegmentLevel := "segment"
  /** The levels whose requests must not be made from inside a segment (line 66). */
  const SegmentScopedLevels: seq<string> := ["solution", "segment", "application", "blueprint", "unitlist"]

  // ---------------------------------------------------------------------------
  // Arguments and defaulting (lines 20-49)
  // ---------------------------------------------------------------------------

  /** generation_providers: None, or a possibly empty tuple of provider names. */
  datatype Providers = NotGiven | Given(names: seq<string>)

  /** The keyword arguments of options(); an omitted string argument is "". */
  datatype Request = Request(
    configurationReference: string,
    deploymentMode: string,
    generationFramework: string,
    resourceGroup: string,
    generationInputSource: string,
    level: string,
    outputDir: string,
    generationProviders: Providers,
    requestReference: string,
    region: string,
    deploymentUnit: string,
    deploymentUnitSubset: string)

  /** The settings options() writes onto the environment. */
  datatype RunSettings = RunSettings(
    resourceGroup: string,
    level: string,
    outputDir: string,
    region: string,
    deploymentUnit: string,
    deploymentUnitSubset: string,
    configurationReference: string,
    requestReference: string,
    deploymentMode: string,
    generationFramework: string,
    generationInputSource: string,
    generationProviders: seq<string>)

  /** Python's `value or fallback` on strings. */
  function OrDefault(value: string, fallback: string): string
  {
    if value != "" then value else fallback
  }

  /** `generation_providers or GENERATION_PROVIDERS_DEFAULT`: None and () are falsy. */
  function ProvidersOrDefault(providers: Providers): seq<string>
  {
    if providers.Given? && providers.names != [] then providers.names else GenerationProvidersDefault
  }

  /** Lines 37-49: the settings written onto the environment. */
  function Defaults(req: Request): RunSettings
  {
    RunSettings(
      req.resourceGroup,
      req.level,
      req.outputDir,
      req.region,
      req.deploymentUnit,
      req.deploymentUnitSubset,
      OrDefault(req.configurationReference, ConfigurationReferenceDefault),
      OrDefault(req.requestReference, RequestReferenceDefault),
      OrDefault(req.deploymentMode, DeploymentModeDefault),
      OrDefault(req.generationFramework, GenerationFrameworkDefault),
      OrDefault(req.generationInputSource, GenerationFrameworkDefault),
      ProvidersOrDefault(req.generationProviders))
  }

  /** Each argument is stored as given, or replaced by its default when falsy. */
  lemma DefaultsKeepOrReplace(req: Request)
    // assigned as given (lines 37-42)
    ensures Defaults(req).resourceGroup == req.resourceGroup && Defaults(req).level == req.level
    ensures Defaults(req).outputDir == req.outputDir && Defaults(req).region == req.region
    ensures Defaults(req).deploymentUnit == req.deploymentUnit
    ensures Defaults(req).deploymentUnitSubset == req.deploymentUnitSubset
    // a non-empty argument is kept, an empty one takes its default (lines 44-49)
    ensures req.configurationReference != "" ==> Defaults(req).configurationReference == req.configurationReference
    ensures req.configurationReference == "" ==> Defaults(req).configurationReference == ConfigurationReferenceDefault
    ensures req.requestReference != "" ==> Defaults(req).requestReference == req.requestReference
    ensures req.requestReference == "" ==> Defaults(req).requestReference == RequestReferenceDefault
    ensures req.deploymentMode != "" ==> Defaults(req).deploymentMode == req.deploymentMode
    ensures req.deploymentMode == "" ==> Defaults(req).deploymentMode == DeploymentModeDefault
    ensures req.generationFramework != "" ==> Defaults(req).generationFramework == req.generationFramework
    ensures req.generationFramework == "" ==> Defaults(req).generationFramework == GenerationFrameworkDefault
    ensures req.generationInputSource != "" ==> Defaults(req).generationInputSource == req.generationInputSource
    ensures req.generationInputSource == "" ==> Defaults(req).generationInputSource == GenerationFrameworkDefault
    ensures req.generationProviders.Given? && req.generationProviders.names != [] ==>
              Defaults(req).generationProviders == req.generationProviders.names
    ensures req.generationProviders == NotGiven || req.generationProviders == Given([]) ==>
              Defaults(req).generationProviders == GenerationProvidersDefault
    // hence every defaulted setting is truthy
    ensures Defaults(req).configurationReference != "" && Defaults(req).requestReference != ""
    ensures Defaults(req).deploymentMode != "" && Defaults(req).generationFramework != ""
    ensures Defaults(req).generationInputSource != "" && Defaults(req).generationProviders != []
  {
  }

  // ---------------------------------------------------------------------------
  // Validation (lines 51-69 and 142-145)
  // ---------------------------------------------------------------------------

  /** Why options() returned False. */
  datatype Rejection = InvalidUnit | MissingReference | LevelLocationMismatch | MockWithoutOutputDir

  /** options() returns False on a rejected request and otherwise falls off its
      end, returning None; it never returns True. */
  datatype ReturnValue = ReturnsFalse(reason: Rejection) | ReturnsNone

  /** Lines 62-69: the request level does not match where the command was run,
      LOCATION being what set_context determined (a string; `in` is a substring test). */
  predicate LocationMismatch(level: string, location: string)
  {
    if level == AccountLevel then Contains(location, level)
    else if level in SegmentScopedLevels then Contains(location, SegmentLevel)
    else false
  }

  /** What options() returns, given whether ct.is_valid_unit accepts the level and
      unit and the LOCATION that set_context determines. */
  function Verdict(req: Request, unitValid: bool, location: string): (r: ReturnValue)
    // the reference guard of line 54 can never fire: both references were defaulted
    ensures r != ReturnsFalse(MissingReference)
    ensures r == ReturnsFalse(InvalidUnit) <==> !unitValid
    ensures r.ReturnsFalse? <==>
      || !unitValid
      || (req.generationInputSource == CompositeInput && LocationMismatch(req.level, location))
      || (req.generationInputSource == MockInput && req.outputDir == "")
  {
    var s := Defaults(req);
    if !unitValid then ReturnsFalse(InvalidUnit)
    else if s.configurationReference == "" || s.requestReference == "" then ReturnsFalse(MissingReference)
    else if s.generationInputSource == CompositeInput && LocationMismatch(s.level, location) then
      ReturnsFalse(LevelLocationMismatch)
    else if s.generationInputSource == MockInput && s.outputDir == "" then ReturnsFalse(MockWithoutOutputDir)
    else ReturnsNone
  }

  /** set_context runs (line 60): the unit is valid and the input source is `composite`. */
  predicate SetsContext(req: Request, unitValid: bool)
  {
    unitValid && Defaults(req).generationInputSource == CompositeInput
  }

  /** The cache work of lines 70-140 runs: set_context ran and the location matched. */
  predicate ProceedsToCacheWork(req: Request, unitValid: bool, location: string)
  {
    SetsContext(req, unitValid) && !LocationMismatch(Defaults(req).level, location)
  }

  /** The location guards of the composite branch, level by level. */
  lemma LocationGuards(req: Request, location: string)
    requires req.generationInputSource == CompositeInput
    ensures req.level == AccountLevel ==>
      (Verdict(req, true, location).ReturnsFalse? <==> Contains(location, AccountLevel))
    ensures req.level in SegmentScopedLevels ==>
      (Verdict(req, true, location).ReturnsFalse? <==> Contains(location, SegmentLevel))
    ensures req.level != AccountLevel && req.level !in SegmentScopedLevels ==>
      Verdict(req, true, location) == ReturnsNone && ProceedsToCacheWork(req, true, location)
  {
  }

  /** An empty input source becomes "cf": neither the composite nor the mock branch
      runs, no cache work is done, and only is_valid_unit can reject the request. */
  lemma EmptyInputSourceRunsNoBranch(req: Request, unitValid: bool, location: string)
    requires req.generationInputSource == ""
    ensures Defaults(req).generationInputSource == GenerationFrameworkDefault
    ensures Defaults(req).generationInputSource != GenerationInputSourceDefault
    ensures !SetsContext(req, unitValid) && !ProceedsToCacheWork(req, unitValid, location)
    ensures Verdict(req, unitValid, location) == if unitValid then ReturnsNone else ReturnsFalse(InvalidUnit)
  {
  }

  /** A mock request passes exactly when it names an output directory. */
  lemma MockNeedsOutputDir(req: Request, location: string)
    requires req.generationInputSource == MockInput
    ensures Verdict(req, true, location) == if req.outputDir == "" then ReturnsFalse(MockWithoutOutputDir) else ReturnsNone
    ensures !SetsContext(req, true)
  {
  }

  // ---------------------------------------------------------------------------
  // Cache work of the composite branch (lines 70-140)
  // ---------------------------------------------------------------------------

  /** What the environment supplies to the cache work (set before options() runs). */
  datatype Context = Context(
    cacheDir: string,
    generationDir: string,
    templateComposites: seq<string>,
    alternateDirs: seq<string>,
    useCache: string,
    useFragmentsCache: string,
    useSettingsCache: string,
    useDefinitionsCache: string,
    useStackOutputsCache: string)

  /** The artifacts rebuilt by ct.assemble_settings, ct.assemble_composite_definitions
      and ct.assemble_composite_stack_outputs. */
  datatype Artifact = SettingsArtifact | DefinitionsArtifact | StackOutputsArtifact

  function ArtifactFile(a: Artifact): string
  {
    match a
    case SettingsArtifact => SettingsFile
    case DefinitionsArtifact => DefinitionsFile
    case StackOutputsArtifact => StackOutputsFile
  }

  function ArtifactSwitch(ctx: Context, a: Artifact): string
  {
    match a
    case SettingsArtifact => ctx.useSettingsCache
    case DefinitionsArtifact => ctx.useDefinitionsCache
    case StackOutputsArtifact => ctx.useStackOutputsCache
  }

  /** Whether one artifact is rebuilt, its cache file looked up in `files`. */
  predicate Rebuilds(ctx: Context, files: set<string>, a: Artifact)
  {
    Regenerate(ctx.useCache, ArtifactSwitch(ctx, a), Join(ctx.cacheDir, ArtifactFile(a)) in files)
  }

  /** The assembler calls of lines 118-140, in order. */
  function RebuiltArtifacts(ctx: Context, files: set<string>): seq<Artifact>
  {
    (if Rebuilds(ctx, files, SettingsArtifact) then [SettingsArtifact] else [])
    + (if Rebuilds(ctx, files, DefinitionsArtifact) then [DefinitionsArtifact] else [])
    + (if Rebuilds(ctx, files, StackOutputsArtifact) then [StackOutputsArtifact] else [])
  }

  /** The gate of lines 71-75 as written: the fragments are assembled when caching
      is off or when composite_account.ftl EXISTS. */
  predicate AssemblesFragments(ctx: Context, fs: FileSystem)
  {
    FragmentsGateAsWritten(ctx.useCache, ctx.useFragmentsCache, Join(ctx.cacheDir, AccountComposite) in fs.files)
  }

  /** The gate the code evidently intends: the regeneration rule of the other three
      caches applied to composite_account.ftl, which assembles when it is ABSENT. */
  predicate AssemblesFragmentsIntended(ctx: Context, fs: FileSystem)
  {
    Regenerate(ctx.useCache, ctx.useFragmentsCache, Join(ctx.cacheDir, AccountComposite) in fs.files)
  }

  datatype CacheOutcome = CacheOutcome(arrays: map<string, seq<string>>, files: set<string>, rebuilt: seq<Artifact>)

  /** The composite lists, the files left after stale removal and the rebuilt
      artifacts, once the gate has decided whether the fragments are assembled. */
  function CacheStageGated(assembles: bool, ctx: Context, arrays: map<string, seq<string>>, fs: FileSystem): CacheOutcome
  {
    var arrays' := if assembles
      then ArraysAfter(arrays, ctx.templateComposites, FragmentCandidates(fs, ctx.alternateDirs, ctx.generationDir))
      else arrays;
    var files' := if assembles then fs.files - StalePaths(ctx.cacheDir) else fs.files;
    CacheOutcome(arrays', files', RebuiltArtifacts(ctx, files'))
  }

  /** Lines 70-140 as written. */
  function CacheStage(ctx: Context, arrays: map<string, seq<string>>, fs: FileSystem): CacheOutcome
  {
    CacheStageGated(AssemblesFragments(ctx, fs), ctx, arrays, fs)
  }

  /** Lines 70-140 with the intended gate. */
  function IntendedCacheStage(ctx: Context, arrays: map<string, seq<string>>, fs: FileSystem): CacheOutcome
  {
    CacheStageGated(AssemblesFragmentsIntended(ctx, fs), ctx, arrays, fs)
  }

  /** Only the stale files are ever removed, and exactly those that exist are
      removed when the gate of lines 71-75 opens; otherwise nothing is removed. */
  lemma StaleRemovalExact(ctx: Context, arrays: map<string, seq<string>>, fs: FileSystem)
    ensures var o := CacheStage(ctx, arrays, fs);
      && o.files <= fs.files
      && fs.files - o.files == if AssemblesFragments(ctx, fs) then fs.files * StalePaths(ctx.cacheDir) else {}
  {
  }

  /** Each artifact is rebuilt iff the rule holds for its cache file as it was
      before options() ran: stale removal never touches these files. */
  lemma ArtifactRebuiltIff(ctx: Context, arrays: map<string, seq<string>>, fs: FileSystem, a: Artifact)
    ensures a in CacheStage(ctx, arrays, fs).rebuilt <==> Rebuilds(ctx, fs.files, a)
  {
    StaleRemovalSparesCaches(ctx.cacheDir);
    var o := CacheStage(ctx, arrays, fs);
    assert Join(ctx.cacheDir, ArtifactFile(a)) in o.files <==> Join(ctx.cacheDir, ArtifactFile(a)) in fs.files;
  }

  /** When the gate of lines 71-75 opens, every template composite gets a list;
      only the fragment list gains entries; every other composite's list is its
      old one (or []); with `fragment` listed once its list is the old one followed
      by the new candidates under the basename rule. When the gate stays shut the
      lists are left as they were. */
  lemma CompositeLists(ctx: Context, arrays: map<string, seq<string>>, fs: FileSystem)
    ensures !AssemblesFragments(ctx, fs) ==> CacheStage(ctx, arrays, fs).arrays == arrays
    ensures AssemblesFragments(ctx, fs) ==>
      var o := CacheStage(ctx, arrays, fs);
      && o.arrays.Keys == arrays.Keys + (set c | c in ctx.templateComposites :: ArrayName(c))
      && (forall c :: c in ctx.templateComposites && c != FragmentComposite ==> o.arrays[ArrayName(c)] == ArrayOf(arrays, c))
      && (multiset(ctx.templateComposites)[FragmentComposite] == 1 ==>
            o.arrays[ArrayName(FragmentComposite)]
              == AppendNew(ArrayOf(arrays, FragmentComposite), FragmentCandidates(fs, ctx.alternateDirs, ctx.generationDir)))
  {
    if AssemblesFragments(ctx, fs) {
      var cands := FragmentCandidates(fs, ctx.alternateDirs, ctx.generationDir);
      ArraysAfterNonFragment(arrays, ctx.templateComposites, cands);
      if multiset(ctx.templateComposites)[FragmentComposite] == 1 {
        FragmentListedOnce(arrays, ctx.templateComposites, cands);
      }
    }
  }

  /** As written, with caching on and every cache file present, the fragment
      lists are still rebuilt and the existing stale files still removed; only
      the three assemblers are skipped. */
  lemma CachedRunStillAssembles(ctx: Context, arrays: map<string, seq<string>>, fs: FileSystem)
    requires ctx.useCache == Enabled
    requires Join(ctx.cacheDir, AccountComposite) in fs.files
    requires Join(ctx.cacheDir, SettingsFile) in fs.files
    requires Join(ctx.cacheDir, DefinitionsFile) in fs.files
    requires Join(ctx.cacheDir, StackOutputsFile) in fs.files
    ensures var o := CacheStage(ctx, arrays, fs);
      && o.arrays == ArraysAfter(arrays, ctx.templateComposites, FragmentCandidates(fs, ctx.alternateDirs, ctx.generationDir))
      && o.files == fs.files - StalePaths(ctx.cacheDir)
      && o.rebuilt == []
  {
    StaleRemovalSparesCaches(ctx.cacheDir);
  }

  /** As written, with caching on and no composite_account.ftl, the fragment lists
      are never built and no stale file is removed. */
  lemma MissingAccountCacheNeverAssembled(ctx: Context, arrays: map<string, seq<string>>, fs: FileSystem)
    requires ctx.useCache == Enabled
    requires Join(ctx.cacheDir, AccountComposite) !in fs.files
    ensures CacheStage(ctx, arrays, fs).arrays == arrays
    ensures CacheStage(ctx, arrays, fs).files == fs.files
  {
  }

  /** Intended: with caching on and no composite_account.ftl, the fragment lists are
      built and the existing stale files removed. */
  lemma IntendedMissingAccountCacheAssembles(ctx: Context, arrays: map<string, seq<string>>, fs: FileSystem)
    requires ctx.useCache == Enabled
    requires Join(ctx.cacheDir, AccountComposite) !in fs.files
    ensures var o := IntendedCacheStage(ctx, arrays, fs);
      && o.arrays == ArraysAfter(arrays, ctx.templateComposites, FragmentCandidates(fs, ctx.alternateDirs, ctx.generationDir))
      && o.files == fs.files - StalePaths(ctx.cacheDir)
  {
  }

  /** Intended: with caching on and every cache file present, the cache work
      changes nothing and rebuilds nothing. */
  lemma IntendedCachedRunChangesNothing(ctx: Context, arrays: map<string, seq<string>>, fs: FileSystem)
    requires ctx.useCache == Enabled
    requires Join(ctx.cacheDir, AccountComposite) in fs.files
    requires Join(ctx.cacheDir, SettingsFile) in fs.files
    requires Join(ctx.cacheDir, DefinitionsFile) in fs.files
    requires Join(ctx.cacheDir, StackOutputsFile) in fs.files
    ensures IntendedCacheStage(ctx, arrays, fs) == CacheOutcome(arrays, fs.files, [])
  {
  }

  /** The two gates agree whenever caching is off, and disagree whenever it is on. */
  lemma GatesAgreeIffCachingOff(ctx: Context, fs: FileSystem)
    ensures AssemblesFragments(ctx, fs) == AssemblesFragmentsIntended(ctx, fs)
      <==> ctx.useCache != Enabled && ctx.useFragmentsCache != Enabled
  {
  }

  /** With every switch off, the fragments are assembled and all three artifacts
      are rebuilt, in order. */
  lemma UncachedRunRebuildsAll(ctx: Context, arrays: map<string, seq<string>>, fs: FileSystem)
    requires ctx.useCache != Enabled && ctx.useFragmentsCache != Enabled
    requires ctx.useSettingsCache != Enabled && ctx.useDefinitionsCache != Enabled && ctx.useStackOutputsCache != Enabled
    ensures AssemblesFragments(ctx, fs)
    ensures CacheStage(ctx, arrays, fs).rebuilt == [SettingsArtifact, DefinitionsArtifact, StackOutputsArtifact]
  {
  }

  // ---------------------------------------------------------------------------
  // The environment object `e`
  // ---------------------------------------------------------------------------

  class Environment {
    // the attributes options() writes onto e (lines 37-49), held as one record
    var settings: RunSettings
    // written by set_context (line 60)
    var location: string
    // the values the surrounding context set on e before options() runs
    var context: Context
    // e['<composite>_array']
    var arrays: map<string, seq<string>>
    // written by the cache work (lines 117, 126, 134)
    var compositeSettings: string
    var compositeDefinitions: string
    var compositeStackOutputs: string

    /** Lines 76-101: every composite's list is initialised, the fragment list grows. */
    method AssembleArrays(fs: FileSystem)
      modifies this`arrays
      ensures arrays == ArraysAfter(old(arrays), context.templateComposites,
        FragmentCandidates(fs, context.alternateDirs, context.generationDir))
    {
      ghost var candidates := FragmentCandidates(fs, context.alternateDirs, context.generationDir);
      ghost var initial := arrays;
      var composites := context.templateComposites;
      var i := 0;
      while i < |composites|
        invariant 0 <= i <= |composites|
        invariant arrays == ArraysAfter(initial, composites[..i], candidates)
      {
        var composite := composites[i];
        var compositeArrayName := ArrayName(composite);
        var compositeArray := if compositeArrayName in arrays then arrays[compositeArrayName] else [];
        if composite == FragmentComposite {
          compositeArray := AssembleFragmentArray(compositeArray, fs, context.alternateDirs, context.generationDir);
        }
        // the source stores the list first and then appends to it in place
        arrays := arrays[compositeArrayName := compositeArray];
        ArraysAfterStep(initial, composites, i, candidates);
        i := i + 1;
      }
      assert composites[..i] == composites;
    }

    /** Lines 117-140: each cache file path is set, and its assembler is called when
        the regeneration rule holds for it, with `files` the files present. */
    method RunAssemblers(files: set<string>) returns (rebuilt: seq<Artifact>)
      modifies this`compositeSettings, this`compositeDefinitions, this`compositeStackOutputs
      ensures rebuilt == RebuiltArtifacts(context, files)
      ensures compositeSettings == Join(context.cacheDir, SettingsFile)
      ensures compositeDefinitions == Join(context.cacheDir, DefinitionsFile)
      ensures compositeStackOutputs == Join(context.cacheDir, StackOutputsFile)
    {
      var ctx := context;
      rebuilt := [];
      // Assemble settings
      compositeSettings := Join(ctx.cacheDir, SettingsFile);
      if Regenerate(ctx.useCache, ctx.useSettingsCache, compositeSettings in files) {
        rebuilt := rebuilt + [SettingsArtifact];
      }
      // Create the composite definitions
      compositeDefinitions := Join(ctx.cacheDir, DefinitionsFile);
      if Regenerate(ctx.useCache, ctx.useDefinitionsCache, compositeDefinitions in files) {
        rebuilt := rebuilt + [DefinitionsArtifact];
      }
      // Create the composite stack outputs
      compositeStackOutputs := Join(ctx.cacheDir, StackOutputsFile);
      if Regenerate(ctx.useCache, ctx.useStackOutputsCache, compositeStackOutputs in files) {
        rebuilt := rebuilt + [StackOutputsArtifact];
      }
    }

    /** Lines 70-140: fragment lists and stale files behind the gate, then the three
        assembler decisions; `rebuilt` lists the assembler calls made, in order. */
    method CacheWork(fs: FileSystem) returns (fs': FileSystem, rebuilt: seq<Artifact>)
      modifies this`arrays, this`compositeSettings, this`compositeDefinitions, this`compositeStackOutputs
      ensures var o := CacheStage(context, old(arrays), fs);
        && arrays == o.arrays && fs' == fs.(files := o.files) && rebuilt == o.rebuilt
      ensures compositeSettings == Join(context.cacheDir, SettingsFile)
      ensures compositeDefinitions == Join(context.cacheDir, DefinitionsFile)
      ensures compositeStackOutputs == Join(context.cacheDir, StackOutputsFile)
    {
      var ctx := context;
      fs' := fs;
      // Add default composite fragments including end fragment
      if FragmentsGateAsWritten(ctx.useCache, ctx.useFragmentsCache, Join(ctx.cacheDir, AccountComposite) in fs.files) {
        AssembleArrays(fs);
        var remaining := RemoveStale(fs.files, ctx.cacheDir);
        fs' := fs.(files := remaining);
      }
      rebuilt := RunAssemblers(fs'.files);
    }

    /** Lines 59-140, the `composite` branch: set_context determines the location,
        a request made from the wrong place is refused (`mismatch`), and otherwise
        the cache work runs. */
    method CompositeBranch(location': string, fs: FileSystem) returns (mismatch: bool, fs': FileSystem, rebuilt: seq<Artifact>)
      modifies this`location, this`arrays, this`compositeSettings, this`compositeDefinitions, this`compositeStackOutputs
      ensures location == location'
      ensures mismatch == LocationMismatch(settings.level, location')
      ensures var o := CacheStage(context, old(arrays), fs);
        if !mismatch then
          && arrays == o.arrays && fs' == fs.(files := o.files) && rebuilt == o.rebuilt
          && compositeSettings == Join(context.cacheDir, SettingsFile)
          && compositeDefinitions == Join(context.cacheDir, DefinitionsFile)
          && compositeStackOutputs == Join(context.cacheDir, StackOutputsFile)
        else
          && arrays == old(arrays) && fs' == fs && rebuilt == []
          && compositeSettings == old(compositeSettings)
          && compositeDefinitions == old(compositeDefinitions)
          && compositeStackOutputs == old(compositeStackOutputs)
    {
      fs', rebuilt := fs, [];
      location := location';
      if settings.level == AccountLevel {
        if Contains(location, settings.level) {
          return true, fs', rebuilt;
        }
      } else if settings.level in SegmentScopedLevels {
        if Contains(location, SegmentLevel) {
          return true, fs', rebuilt;
        }
      }
      mismatch := false;
      fs', rebuilt := CacheWork(fs);
    }

    /** options(): `isValidUnit` stands for ct.is_valid_unit, `location'` for the
        LOCATION set_context determines, `fs` for the file system; `rebuilt` lists
        the assembler calls made, in order, and `fs'` is the file system afterwards. */
    method Options(req: Request, isValidUnit: (string, string) -> bool, location': string, fs: FileSystem)
      returns (ret: ReturnValue, fs': FileSystem, rebuilt: seq<Artifact>)
      modifies this`settings, this`location,
        this`arrays, this`compositeSettings, this`compositeDefinitions, this`compositeStackOutputs
      ensures settings == Defaults(req)
      ensures ret == Verdict(req, isValidUnit(req.level, req.deploymentUnit), location')
      ensures location == if SetsContext(req, isValidUnit(req.level, req.deploymentUnit)) then location' else old(location)
      ensures var o := CacheStage(context, old(arrays), fs);
        if ProceedsToCacheWork(req, isValidUnit(req.level, req.deploymentUnit), location') then
          && arrays == o.arrays && fs' == fs.(files := o.files) && rebuilt == o.rebuilt
          && compositeSettings == Join(context.cacheDir, SettingsFile)
          && compositeDefinitions == Join(context.cacheDir, DefinitionsFile)
          && compositeStackOutputs == Join(context.cacheDir, StackOutputsFile)
        else
          && arrays == old(arrays) && fs' == fs && rebuilt == []
          && compositeSettings == old(compositeSettings)
          && compositeDefinitions == old(compositeDefinitions)
          && compositeStackOutputs == old(compositeStackOutputs)
    {
      settings := Defaults(req);
      fs', rebuilt := fs, [];
      if !isValidUnit(settings.level, settings.deploymentUnit) {
        return ReturnsFalse(InvalidUnit), fs', rebuilt;
      }
      if settings.configurationReference == "" || settings.requestReference == "" {
        return ReturnsFalse(MissingReference), fs', rebuilt;
      }
      if settings.generationInputSource == CompositeInput {
        var mismatch;
        mismatch, fs', rebuilt := CompositeBranch(location', fs);
        if mismatch {
          return ReturnsFalse(LevelLocationMismatch), fs', rebuilt;
        }
      }
      if settings.generationInputSource == MockInput {
        if settings.outputDir == "" {
          return ReturnsFalse(MockWithoutOutputDir), fs', rebuilt;
        }
      }
      ret := ReturnsNone;
    }
  }
}
