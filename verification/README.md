# options() of create_template.py, modelled in Dafny

`options()` prepares a template generation run in the gen3 command-line tool.
It does four things:

- It writes the run settings onto the environment object `e`. Missing optional
  arguments get their defaults.
- It refuses a run whose level and deployment unit `ct.is_valid_unit` rejects.
- For the `composite` input source, it checks that the command runs from a place
  that matches the requested level. It then does the cache work:
  - it assembles the ordered fragment list of the `fragment` composite from the
    alternate blueprint directories and the legacy template directory;
  - it removes stale per-composite cache files;
  - it calls the settings, definitions and stack-output assemblers when their
    cache files must be regenerated.
- For the `mock` input source, it demands an output directory.

The model has five modules:

- `Paths` (paths.dfy): `os.path.join`, `os.path.basename` and Python's substring
  test `part in s`.
- `Host` (host.dfy): the file system as a value. It holds the existing files, the
  existing directories and the ordered results of `Search.match_files`.
- `Fragments` (fragments.dfy): the append rule of the fragment scans, the
  candidates in scan order, the scan loops, and the environment's composite lists.
- `Cache` (cache.dfy): the regeneration rule, the fragment gate and the removal of
  stale files.
- `CreateTemplate` (create_template.dfy): the
  defaults, the return value, the cache stage, and the class `Environment`.

`Environment.Options` is the operation itself. It updates the fields of the
environment in place. It returns three things: the value `options()` returns,
the file system afterwards, and the list of assembler calls made.

Collaborators are parameters:

- `isValidUnit` stands for `ct.is_valid_unit`.
- `location'` is the `LOCATION` that `set_context` determines.
- `fs` is the file system.

Attributes of `e` that the surrounding code set before `options()` runs are one
`Context` record. Examples are `CACHE_DIR`, `GENERATION_DIR`,
`TEMPLATE_COMPOSITES`, `blueprint_alternate_dirs` and the `GENERATION_USE_*_CACHE`
switches. The attributes that `options()` writes in lines 37-49 are one
`RunSettings` record.

Four behaviours of the code are reproduced as written:

- An empty `generation_input_source` falls back to `GENERATION_FRAMEWORK_DEFAULT`
  ("cf"), not to `GENERATION_INPUT_SOURCE_DEFAULT`. As a result, neither input
  branch runs.
- The reference check of line 54 can never fail, because both references have
  already been defaulted.
- A successful run returns `None`, not `True`.
- The fragment gate of lines 71-75 opens when composite_account.ftl exists,
  not when it is absent (see "## Findings"). `CacheStage` and
  `Environment.Options` follow the code. `IntendedCacheStage` is the same stage
  with the intended gate, and the lemmas named `Intended…` are about it.

The fragment de-duplication also follows the code, not the documented intent.
The documented intent is that a fragment list never holds two entries with the
same basename. The code instead compares a fragment's basename with the full
paths already in the list. For paths with a directory part, that comparison
never matches, so nothing is skipped (`PathsAreNeverDeduplicated`,
`SameNameInTwoDirectoriesKeptTwice`).

## Model

| member | source | states |
|---|---|---|
| Paths.JoinEndsWith | gen3-cli/cot/backend/create/template/create_template.py:113 | a joined path ends with its last component, and a relative component is placed under the directory |
| Paths.JoinInjective | gen3-cli/cot/backend/create/template/create_template.py:113 | joining two relative names under one directory gives different paths for different names |
| Paths.Basename | gen3-cli/cot/backend/create/template/create_template.py:87 | a basename contains no '/' |
| Paths.BasenameIsSuffix | gen3-cli/cot/backend/create/template/create_template.py:87 | the basename is a suffix of the path, and is preceded by '/' unless it is the whole path |
| Paths.BasenameIsSuffixAfterLastSlash | gen3-cli/cot/backend/create/template/create_template.py:87 | the basename is exactly the slash-free part after the last '/' |
| Paths.BasenameOfJoin | gen3-cli/cot/backend/create/template/create_template.py:87 | a slash-free name joined under any directory has that name as its basename |
| Fragments.ArrayNamesInjective | gen3-cli/cot/backend/create/template/create_template.py:79 | different composites have different `<composite>_array` keys |
| Fragments.AppendNew | gen3-cli/cot/backend/create/template/create_template.py:86-89 | the scan only appends: the old list is a prefix, at most one entry is added per candidate, and every added entry is a candidate |
| Fragments.AppendNewConcat | gen3-cli/cot/backend/create/template/create_template.py:83-101 | scanning two result lists one after the other is scanning their concatenation |
| Fragments.CandidateAppendedIff | gen3-cli/cot/backend/create/template/create_template.py:87-89 | candidate j is appended exactly when its basename is not an element of the list built so far; otherwise the list is unchanged |
| Fragments.AppendNewCharacterised | gen3-cli/cot/backend/create/template/create_template.py:87-89 | every appended entry's basename was not an element before it, and every candidate ends up in the list or has its basename in it |
| Fragments.BasenameNotAmongPaths | gen3-cli/cot/backend/create/template/create_template.py:87-88 | a basename is never an element of a list whose entries all contain '/' |
| Fragments.PathsAreNeverDeduplicated | gen3-cli/cot/backend/create/template/create_template.py:86-89 | when the entries and the candidates all contain '/', the result is the old list followed by every candidate, so nothing is skipped |
| Fragments.SameNameInTwoDirectoriesKeptTwice | gen3-cli/cot/backend/create/template/create_template.py:83-89 | two fragments with the same file name in two directories are both listed |
| Fragments.AlternateMatchesFromUsableDirs | gen3-cli/cot/backend/create/template/create_template.py:83-86 | every match offered by the alternate scan comes from a non-empty alternate entry that is a directory |
| Fragments.FragmentScanOrder | gen3-cli/cot/backend/create/template/create_template.py:83-101 | the alternate, legacy and end scans extend the list in that order, each adding only its own matches, and together they make one pass over all candidates |
| Fragments.AppendMatches | gen3-cli/cot/backend/create/template/create_template.py:92-95 | the loop over one `Search.match_files` result computes the append rule over that result |
| Fragments.AssembleFragmentArray | gen3-cli/cot/backend/create/template/create_template.py:82-101 | the three scan loops compute the append rule over the alternate matches, the legacy matches and the end matches, in order |
| Fragments.ArraysAfter | gen3-cli/cot/backend/create/template/create_template.py:76-81 | after the composite loop, the environment holds a list for every template composite and keeps every key it had |
| Fragments.ArraysAfterOtherKeys | gen3-cli/cot/backend/create/template/create_template.py:76-81 | keys that are no composite's list keep their value |
| Fragments.ArraysAfterNonFragment | gen3-cli/cot/backend/create/template/create_template.py:76-82 | every composite other than `fragment` keeps its old list, or gets [] when it had none |
| Fragments.ArraysAfterFragmentGrows | gen3-cli/cot/backend/create/template/create_template.py:76-101 | the `fragment` list only grows at its end |
| Fragments.FragmentListedOnce | gen3-cli/cot/backend/create/template/create_template.py:76-101 | with `fragment` listed once, its list is the old one followed by the candidates kept by the append rule |
| Cache.AsWrittenGateInverted | gen3-cli/cot/backend/create/template/create_template.py:71-75 | as written, whenever caching is on the fragment gate opens exactly when composite_account.ftl exists, the opposite of the regeneration rule |
| Cache.AsWrittenGateNeverBuildsMissingCache | gen3-cli/cot/backend/create/template/create_template.py:71-75 | as written, with USE_CACHE "true" and no composite_account.ftl the fragments are not assembled, although the regeneration rule of the other caches would rebuild that file |
| Cache.StalePathsUpToMembers | gen3-cli/cot/backend/create/template/create_template.py:112-113 | a path is among the stale files exactly when it is `<CACHE_DIR>/<name>.ftl` for one of the stale names |
| Cache.RemoveStale | gen3-cli/cot/backend/create/template/create_template.py:112-115 | the loop removes exactly those stale files that exist and keeps every other file |
| Cache.NotStale | gen3-cli/cot/backend/create/template/create_template.py:112-113 | a relative file name that is not one of the seven stale names never names a stale file |
| Cache.StaleRemovalSparesCaches | gen3-cli/cot/backend/create/template/create_template.py:112-140 | stale removal never removes composite_account.ftl or the three composite JSON caches |
| CreateTemplate.DefaultsKeepOrReplace | gen3-cli/cot/backend/create/template/create_template.py:37-49 | every argument is stored as given, or replaced by its default when falsy, so every defaulted setting is non-empty |
| CreateTemplate.Verdict | gen3-cli/cot/backend/create/template/create_template.py:51-145 | options() returns False exactly when the unit is invalid, a composite request comes from the wrong place, or a mock request names no output directory; the reference guard never fires |
| CreateTemplate.LocationGuards | gen3-cli/cot/backend/create/template/create_template.py:62-69 | an account request fails iff LOCATION contains "account"; a solution, segment, application, blueprint or unitlist request fails iff LOCATION contains "segment"; other levels always pass |
| CreateTemplate.EmptyInputSourceRunsNoBranch | gen3-cli/cot/backend/create/template/create_template.py:48 | an empty input source becomes "cf", so neither branch runs and only is_valid_unit can refuse the request |
| CreateTemplate.MockNeedsOutputDir | gen3-cli/cot/backend/create/template/create_template.py:142-145 | a valid mock request passes exactly when it names an output directory, and does not set the context |
| CreateTemplate.StaleRemovalExact | gen3-cli/cot/backend/create/template/create_template.py:71-115 | the cache work removes only files; it removes exactly the existing stale files when the gate of lines 71-75 as written opens, and nothing otherwise |
| CreateTemplate.ArtifactRebuiltIff | gen3-cli/cot/backend/create/template/create_template.py:112-140 | each assembler is called exactly when the regeneration rule holds for its cache file as it was before the run |
| CreateTemplate.CompositeLists | gen3-cli/cot/backend/create/template/create_template.py:71-101 | when the gate as written opens, every template composite gets a list, only `fragment` gains entries, and with `fragment` listed once its list is the old one followed by the candidates the append rule keeps; when it stays shut the lists are unchanged |
| CreateTemplate.CachedRunStillAssembles | gen3-cli/cot/backend/create/template/create_template.py:71-140 | as written, with caching on and every cache file present, the lists are still rebuilt and the existing stale files still removed; only the three assemblers are skipped |
| CreateTemplate.MissingAccountCacheNeverAssembled | gen3-cli/cot/backend/create/template/create_template.py:71-115 | as written, with caching on and no composite_account.ftl, no list is built and no stale file is removed |
| CreateTemplate.IntendedMissingAccountCacheAssembles | gen3-cli/cot/backend/create/template/create_template.py:71-115 | with the intended gate, caching on and no composite_account.ftl, the lists are built and the existing stale files removed |
| CreateTemplate.IntendedCachedRunChangesNothing | gen3-cli/cot/backend/create/template/create_template.py:71-140 | with the intended gate, caching on and every cache file present, the cache work changes nothing and calls no assembler |
| CreateTemplate.GatesAgreeIffCachingOff | gen3-cli/cot/backend/create/template/create_template.py:71-75 | the gate as written and the intended gate agree exactly when both caching switches are off |
| CreateTemplate.UncachedRunRebuildsAll | gen3-cli/cot/backend/create/template/create_template.py:71-140 | with every switch off, the fragments are assembled and all three assemblers are called, in order |
| CreateTemplate.Environment.AssembleArrays | gen3-cli/cot/backend/create/template/create_template.py:76-101 | the composite loop leaves the environment's lists as the specification function describes |
| CreateTemplate.Environment.RunAssemblers | gen3-cli/cot/backend/create/template/create_template.py:116-140 | the three cache paths are set under CACHE_DIR, and the assemblers are called, in order, for the artifacts the rule says to rebuild |
| CreateTemplate.Environment.CacheWork | gen3-cli/cot/backend/create/template/create_template.py:70-140 | the cache work, with the gate as written, gives the lists, the remaining files and the assembler calls the cache stage specifies, and sets the three cache paths |
| CreateTemplate.Environment.CompositeBranch | gen3-cli/cot/backend/create/template/create_template.py:58-140 | the branch records LOCATION, reports a mismatch exactly as the location rule says, and runs the cache work (gate as written) only when there is no mismatch |
| CreateTemplate.Environment.Options | gen3-cli/cot/backend/create/template/create_template.py:20-145 | the settings are the defaulted arguments; the return value is the verdict; LOCATION is set only when the context is set; the cache work, with the gate as written, happens exactly when the request reaches it, and otherwise the lists, files, cache paths and assembler calls stay untouched |

## Left out

- CreateTemplate.Environment.CacheWork: assumes the composite file writing of
  lines 103-110 completes. As written it cannot: line 104 opens
  `<CACHE_DIR>/composite_<c>.ftl/at+` in read mode (`'at+'` is passed to
  `os.path.join`, not to `open`), which raises unless that path exists. So once
  the gate opens with a non-empty TEMPLATE_COMPOSITES, the source raises instead
  of reaching the stale removal, the cache paths and the assemblers of lines
  112-140, and `options()` does not return. The model goes on as if the write
  succeeded.
- Composite file concatenation (lines 103-110) is left out. This is file content
  I/O. As written it also cannot run as intended: `'at+'` is passed to
  `os.path.join` rather than to `open`, and the inner loop reads the
  `composite_array` left over from the last composite of the previous loop.
- The effects of `ct.assemble_settings`, `ct.assemble_composite_definitions` and
  `ct.assemble_composite_stack_outputs` on the file system are not modelled.
  Their code is not part of this model; only the calls are recorded, in order.
- `set_context` is reduced to the `LOCATION` it determines. `os.getcwd()` is not
  modelled, and neither is anything else `set_context` sets. The set_context
  module is not part of this model.
- `ct.is_valid_unit` is a parameter. The context_tree module is not part of this
  model.
- `Search.match_files` is a fixed function of pattern and root, read from the file
  system value. Its globbing is not modelled. Because the value is fixed, stale
  removal never changes what a later search finds.
- Logging (`logger.fatal`, `logger.debug`) is not modelled.
- `process_template` and `create_template` in the same file are empty stubs and are
  not modelled.
- CreateTemplate.Environment.Options: the attributes of `e` are grouped into two
  records, `settings` (lines 37-49) and `context` (set before the call). This
  means the model does not capture an individual attribute being updated on its
  own.
- CreateTemplate.Environment.AssembleArrays: the source stores the list under its
  key first and then appends to the same Python list in place. The model stores
  the finished list. The final state is the same; list aliasing itself is not
  modelled.
- Generation providers are kept as names. The tuple type is not modelled.

## Findings

| source | as written | input that shows it | evidently intended | confidence | as-written member | corrected member |
|---|---|---|---|---|---|---|
| gen3-cli/cot/backend/create/template/create_template.py:71-75 | the fragment gate reads `... or os.path.isfile(composite_account.ftl)`, which assembles when the cache file exists | GENERATION_USE_CACHE = "true" and no composite_account.ftl in CACHE_DIR: the fragments are never assembled; with the file present, they are reassembled on every run | `or not os.path.isfile(...)`, the rule that lines 118-140 apply to the other three caches | high, not executed | CreateTemplate.MissingAccountCacheNeverAssembled | CreateTemplate.IntendedMissingAccountCacheAssembles |
