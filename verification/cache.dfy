/** The cache decisions of options() (create_template.py, lines 71-75, 112-140). */
module Cache {
  import opened Paths

  /** The value of a cache switch that turns caching on. */
  const Enabled := "true"

  /** Cache files under CACHE_DIR. */
  const AccountComposite := "composite_account.ftl"
  const SettingsFile := "composite_settings.json"
  const DefinitionsFile := "composite_definitions.json"
  const StackOutputsFile := "composite_stack_outputs.json"

  /** Per-composite cache files of an earlier layout, removed on every assembly. */
  const StaleComposites: seq<string> := ["segment", "solution", "application", "id", "name", "policy", "resource"]

  // ---------------------------------------------------------------------------
  // Regeneration rule (lines 118-122, 127-131, 135-139)
  // ---------------------------------------------------------------------------

  /** An artifact is rebuilt when neither the master switch nor its own switch is
      "true", or when its cache file is absent. */
  predicate Regenerate(useCache: string, useArtifactCache: string, cached: bool)
  {
    (useCache != Enabled && useArtifactCache != Enabled) || !cached
  }

  // ---------------------------------------------------------------------------
  // The fragment gate (lines 71-75)
  // ---------------------------------------------------------------------------

  /** Lines 71-75 as written: the test of composite_account.ftl has no `not`. */
  predicate FragmentsGateAsWritten(useCache: string, useFragmentsCache: string, accountCached: bool)
  {
    (useCache != Enabled && useFragmentsCache != Enabled) || accountCached
  }

  /** As written, whenever caching is on the gate is the exact opposite of the rule
      the other caches follow (Regenerate applied to composite_account.ftl): a
      present cache is rebuilt and a missing one is never built. */
  lemma AsWrittenGateInverted(useCache: string, useFragmentsCache: string, accountCached: bool)
    requires useCache == Enabled || useFragmentsCache == Enabled
    ensures FragmentsGateAsWritten(useCache, useFragmentsCache, accountCached) == accountCached
    ensures FragmentsGateAsWritten(useCache, useFragmentsCache, accountCached)
      != Regenerate(useCache, useFragmentsCache, accountCached)
  {
  }

  /** The input that shows it: caching on, no composite_account.ftl yet. */
  lemma AsWrittenGateNeverBuildsMissingCache()
    ensures !FragmentsGateAsWritten(Enabled, "", false)
    ensures Regenerate(Enabled, "", false)
  {
  }

  // ---------------------------------------------------------------------------
  // Stale cache files (lines 112-115)
  // ---------------------------------------------------------------------------

  function StalePath(cacheDir: string, composite: string): string
  {
    Join(cacheDir, composite + ".ftl")
  }

  /** The stale files of the first k names. */
  function StalePathsUpTo(cacheDir: string, k: nat): set<string>
    requires k <= |StaleComposites|
  {
    if k == 0 then {} else StalePathsUpTo(cacheDir, k - 1) + {StalePath(cacheDir, StaleComposites[k - 1])}
  }

  /** A path is among the stale files of the first k names iff it is the stale
      file of one of them. */
  lemma {:induction false} StalePathsUpToMembers(cacheDir: string, k: nat, p: string)
    requires k <= |StaleComposites|
    ensures p in StalePathsUpTo(cacheDir, k) <==> exists i :: 0 <= i < k && p == StalePath(cacheDir, StaleComposites[i])
  {
    if k > 0 {
      StalePathsUpToMembers(cacheDir, k - 1, p);
      if p == StalePath(cacheDir, StaleComposites[k - 1]) {
        assert 0 <= k - 1 < k;
      }
    }
  }

  function StalePaths(cacheDir: string): set<string>
  {
    StalePathsUpTo(cacheDir, |StaleComposites|)
  }

  /** The loop of lines 112-115: each stale file that exists is removed. */
  method RemoveStale(files: set<string>, cacheDir: string) returns (remaining: set<string>)
    ensures remaining == files - StalePaths(cacheDir)
    ensures files - remaining == files * StalePaths(cacheDir)
  {
    remaining := files;
    var i := 0;
    while i < |StaleComposites|
      invariant 0 <= i <= |StaleComposites|
      invariant remaining == files - StalePathsUpTo(cacheDir, i)
    {
      var filename := StalePath(cacheDir, StaleComposites[i]);
      if filename in remaining {
        remaining := remaining - {filename};
      }
      i := i + 1;
    }
  }

  /** A relative file name that is not one of the seven stale names never names a
      stale file of the same cache directory. */
  lemma NotStale(cacheDir: string, name: string)
    requires |name| == 0 || name[0] != '/'
    requires forall n :: n in StaleComposites ==> name != n + ".ftl"
    ensures Join(cacheDir, name) !in StalePaths(cacheDir)
  {
    StalePathsUpToMembers(cacheDir, |StaleComposites|, Join(cacheDir, name));
    forall i | 0 <= i < |StaleComposites| ensures Join(cacheDir, name) != StalePath(cacheDir, StaleComposites[i]) {
      var n := StaleComposites[i];
      assert name != n + ".ftl";
      if Join(cacheDir, name) == StalePath(cacheDir, n) {
        JoinInjective(cacheDir, name, n + ".ftl");
      }
    }
  }

  /** Removing the stale files never removes composite_account.ftl or the three
      composite JSON files. */
  lemma StaleRemovalSparesCaches(cacheDir: string)
    ensures Join(cacheDir, AccountComposite) !in StalePaths(cacheDir)
    ensures Join(cacheDir, SettingsFile) !in StalePaths(cacheDir)
    ensures Join(cacheDir, DefinitionsFile) !in StalePaths(cacheDir)
    ensures Join(cacheDir, StackOutputsFile) !in StalePaths(cacheDir)
  {
    assert forall n :: n in StaleComposites ==> |n| <= 11;
    assert |AccountComposite| > 16 && |SettingsFile| > 16 && |DefinitionsFile| > 16 && |StackOutputsFile| > 16;
    NotStale(cacheDir, AccountComposite);
    NotStale(cacheDir, SettingsFile);
    NotStale(cacheDir, DefinitionsFile);
    NotStale(cacheDir, StackOutputsFile);
  }
}
