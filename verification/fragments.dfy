/** Assembly of the ordered fragment list of the `fragment` composite
    (create_template.py, lines 76-101). */
module Fragments {
  import opened Paths
  import opened Host

  /** The only composite whose list is filled from the file system. */
  const FragmentComposite := "fragment"

  /** The key under which the environment keeps a composite's list. */
  function ArrayName(composite: string): string
  {
    composite + "_array"
  }

  lemma ArrayNamesInjective()
    ensures forall c, d {:trigger ArrayName(c), ArrayName(d)} :: ArrayName(c) == ArrayName(d) ==> c == d
  {
    forall c, d | ArrayName(c) == ArrayName(d) ensures c == d {
      assert |c| == |d|;
      assert c == ArrayName(c)[..|c|] == ArrayName(d)[..|d|] == d;
    }
  }

  /** The list a composite starts from: the stored one, or [] (e.get(name, [])). */
  function ArrayOf(arrays: map<string, seq<string>>, composite: string): seq<string>
  {
    if ArrayName(composite) in arrays then arrays[ArrayName(composite)] else []
  }

  // ---------------------------------------------------------------------------
  // The append rule of lines 87-89, 93-95 and 99-101.
  // ---------------------------------------------------------------------------

  /** One candidate: appended unless its BASENAME is already an element of the
      list. The list holds full paths, so the test compares a basename with paths. */
  function AppendIfNew(arr: seq<string>, candidate: string): seq<string>
  {
    if Basename(candidate) in arr then arr else arr + [candidate]
  }

  /** The candidates, in order, each under the rule above. */
  function AppendNew(arr: seq<string>, candidates: seq<string>): (r: seq<string>)
    ensures arr <= r
    ensures |r| <= |arr| + |candidates|
    ensures forall i :: |arr| <= i < |r| ==> r[i] in candidates
    decreases |candidates|
  {
    if candidates == [] then arr
    else AppendNew(AppendIfNew(arr, candidates[0]), candidates[1..])
  }

  /** Running the rule over two lists is running it over their concatenation. */
  lemma {:induction false} AppendNewConcat(arr: seq<string>, xs: seq<string>, ys: seq<string>)
    ensures AppendNew(arr, xs + ys) == AppendNew(AppendNew(arr, xs), ys)
    decreases |xs|
  {
    if xs == [] {
      assert xs + ys == ys;
    } else {
      assert (xs + ys)[0] == xs[0];
      assert (xs + ys)[1..] == xs[1..] + ys;
      AppendNewConcat(AppendIfNew(arr, xs[0]), xs[1..], ys);
    }
  }

  /** Candidate j is appended iff its basename is not an element of the list built
      from the candidates before it; otherwise the list is left as it was. */
  lemma CandidateAppendedIff(arr: seq<string>, candidates: seq<string>, j: nat)
    requires j < |candidates|
    ensures Basename(candidates[j]) in AppendNew(arr, candidates[..j]) ==>
              AppendNew(arr, candidates[..j + 1]) == AppendNew(arr, candidates[..j])
    ensures Basename(candidates[j]) !in AppendNew(arr, candidates[..j]) ==>
              AppendNew(arr, candidates[..j + 1]) == AppendNew(arr, candidates[..j]) + [candidates[j]]
  {
    assert candidates[..j + 1] == candidates[..j] + [candidates[j]];
    AppendNewConcat(arr, candidates[..j], [candidates[j]]);
    var before := AppendNew(arr, candidates[..j]);
    assert AppendNew(AppendIfNew(before, candidates[j]), []) == AppendIfNew(before, candidates[j]);
  }

  /** Every appended entry had a basename that was not yet an element, and every
      candidate ends up either appended or with its basename an element. */
  lemma {:induction false} AppendNewCharacterised(arr: seq<string>, candidates: seq<string>)
    ensures var r := AppendNew(arr, candidates);
      && (forall i :: |arr| <= i < |r| ==> Basename(r[i]) !in r[..i])
      && (forall c :: c in candidates ==> c in r || Basename(c) in r)
    decreases |candidates|
  {
    if candidates != [] {
      var c := candidates[0];
      var next := AppendIfNew(arr, c);
      AppendNewCharacterised(next, candidates[1..]);
      var r := AppendNew(arr, candidates);
      assert r == AppendNew(next, candidates[1..]);
      assert next <= r;
      if Basename(c) !in arr {
        assert next == arr + [c];
        assert r[|arr|] == c;
        assert r[..|arr|] == arr;
      }
      forall c' | c' in candidates ensures c' in r || Basename(c') in r {
        if c' != c {
          assert c' in candidates[1..];
        } else if Basename(c) in arr {
          assert Basename(c) in r;
        } else {
          assert c in next;
        }
      }
    }
  }

  /** A basename is never an element of a list of paths with a directory part. */
  lemma BasenameNotAmongPaths(arr: seq<string>, c: string)
    requires forall e :: e in arr ==> '/' in e
    ensures Basename(c) !in arr
  {
    var b := Basename(c);
    forall e | e in arr ensures e != b {
      assert '/' in e;
    }
  }

  /** A candidate whose basename is not yet an element is appended. */
  lemma AppendNewFirstKept(arr: seq<string>, candidates: seq<string>)
    requires candidates != [] && Basename(candidates[0]) !in arr
    ensures AppendNew(arr, candidates) == AppendNew(arr + [candidates[0]], candidates[1..])
  {
  }

  lemma ConsThenRest(arr: seq<string>, candidates: seq<string>)
    requires candidates != []
    ensures (arr + [candidates[0]]) + candidates[1..] == arr + candidates
  {
    assert candidates == [candidates[0]] + candidates[1..];
  }

  /** As written, nothing is ever skipped while every entry and every candidate is
      a path with a directory part: a basename has no '/', so it is never equal
      to such an entry. Fragments found by Search.match_files are such paths. */
  lemma {:induction false} PathsAreNeverDeduplicated(arr: seq<string>, candidates: seq<string>)
    requires forall e :: e in arr ==> '/' in e
    requires forall c :: c in candidates ==> '/' in c
    ensures AppendNew(arr, candidates) == arr + candidates
    decreases |candidates|
  {
    if candidates != [] {
      var c := candidates[0];
      BasenameNotAmongPaths(arr, c);
      AppendNewFirstKept(arr, candidates);
      assert '/' in c;
      PathsAreNeverDeduplicated(arr + [c], candidates[1..]);
      ConsThenRest(arr, candidates);
    }
  }

  /** Two fragments with the same file name in two directories (or the same
      directory listed twice) both land in the list. */
  lemma SameNameInTwoDirectoriesKeptTwice(dir1: string, dir2: string, name: string)
    requires dir1 != [] && dir2 != []
    requires '/' !in name
    ensures AppendNew([], [Join(dir1, name), Join(dir2, name)]) == [Join(dir1, name), Join(dir2, name)]
  {
    var p, q := Join(dir1, name), Join(dir2, name);
    BasenameOfJoin(dir1, name);
    BasenameOfJoin(dir2, name);
    assert |p| > |name|;
    assert AppendIfNew([], p) == [p];
    assert AppendIfNew([p], q) == [p, q];
    assert [p, q][1..] == [q];
  }

  // ---------------------------------------------------------------------------
  // The candidates, in the order lines 83-101 visit them.
  // ---------------------------------------------------------------------------

  /** f'{composite}_*.ftl' for the fragment composite. */
  function FragmentPattern(): string
  {
    FragmentComposite + "_*.ftl"
  }

  /** <GENERATION_DIR>/templates/fragment, the legacy fragment directory. */
  function LegacyDir(generationDir: string): string
  {
    Join(Join(generationDir, "templates"), FragmentComposite)
  }

  function LegacyPattern(generationDir: string): string
  {
    Join(LegacyDir(generationDir), FragmentPattern())
  }

  function EndPattern(generationDir: string): string
  {
    Join(LegacyDir(generationDir), "*end.ftl")
  }

  /** Line 84: an alternate directory is searched only if non-empty and a directory. */
  predicate Usable(fs: FileSystem, dir: string)
  {
    dir != "" && dir in fs.dirs
  }

  function DirMatches(fs: FileSystem, dir: string): seq<string>
  {
    if Usable(fs, dir) then fs.matches(FragmentPattern(), Under(dir)) else []
  }

  /** The matches of every usable alternate directory, directory by directory. */
  function AlternateMatches(fs: FileSystem, alternates: seq<string>): seq<string>
    decreases |alternates|
  {
    if alternates == [] then []
    else AlternateMatches(fs, alternates[..|alternates| - 1]) + DirMatches(fs, alternates[|alternates| - 1])
  }

  /** Everything the alternate-directory scan offers comes from a usable directory. */
  lemma {:induction false} AlternateMatchesFromUsableDirs(fs: FileSystem, alternates: seq<string>)
    ensures forall p :: p in AlternateMatches(fs, alternates) ==>
      exists d :: d in alternates && Usable(fs, d) && p in fs.matches(FragmentPattern(), Under(d))
    decreases |alternates|
  {
    if alternates != [] {
      var init := alternates[..|alternates| - 1];
      var last := alternates[|alternates| - 1];
      AlternateMatchesFromUsableDirs(fs, init);
      forall p | p in AlternateMatches(fs, alternates)
        ensures exists d :: d in alternates && Usable(fs, d) && p in fs.matches(FragmentPattern(), Under(d))
      {
        if p in AlternateMatches(fs, init) {
          var d :| d in init && Usable(fs, d) && p in fs.matches(FragmentPattern(), Under(d));
          assert d in alternates;
        } else {
          assert p in DirMatches(fs, last);
          assert last in alternates;
        }
      }
    }
  }

  /** All candidates of lines 83-101: alternate directories, then legacy
      fragment_*.ftl files, then legacy *end.ftl files. */
  function FragmentCandidates(fs: FileSystem, alternates: seq<string>, generationDir: string): seq<string>
  {
    AlternateMatches(fs, alternates)
    + fs.matches(LegacyPattern(generationDir), WorkingDirectory)
    + fs.matches(EndPattern(generationDir), WorkingDirectory)
  }

  /** The three scans append in order: what the alternate directories add comes
      first, then what the legacy fragments add, then what the end fragments add,
      and no scan changes an entry already present. */
  lemma FragmentScanOrder(arr: seq<string>, fs: FileSystem, alternates: seq<string>, generationDir: string)
    ensures var afterAlternates := AppendNew(arr, AlternateMatches(fs, alternates));
      var afterLegacy := AppendNew(afterAlternates, fs.matches(LegacyPattern(generationDir), WorkingDirectory));
      var r := AppendNew(afterLegacy, fs.matches(EndPattern(generationDir), WorkingDirectory));
      && r == AppendNew(arr, FragmentCandidates(fs, alternates, generationDir))
      && arr <= afterAlternates <= afterLegacy <= r
      && (forall i :: |arr| <= i < |afterAlternates| ==> afterAlternates[i] in AlternateMatches(fs, alternates))
      && (forall i :: |afterAlternates| <= i < |afterLegacy| ==>
            afterLegacy[i] in fs.matches(LegacyPattern(generationDir), WorkingDirectory))
      && (forall i :: |afterLegacy| <= i < |r| ==> r[i] in fs.matches(EndPattern(generationDir), WorkingDirectory))
  {
    var a := AlternateMatches(fs, alternates);
    var l := fs.matches(LegacyPattern(generationDir), WorkingDirectory);
    var e := fs.matches(EndPattern(generationDir), WorkingDirectory);
    AppendNewConcat(arr, a + l, e);
    AppendNewConcat(arr, a, l);
  }

  // ---------------------------------------------------------------------------
  // The loops themselves.
  // ---------------------------------------------------------------------------

  /** One `for fragment in Search.match_files(...)` loop. */
  method AppendMatches(arr: seq<string>, found: seq<string>) returns (r: seq<string>)
    ensures r == AppendNew(arr, found)
  {
    r := arr;
    var i := 0;
    while i < |found|
      invariant 0 <= i <= |found|
      invariant r == AppendNew(arr, found[..i])
    {
      var fragment := found[i];
      var fragmentName := Basename(fragment);
      CandidateAppendedIff(arr, found, i);
      if fragmentName !in r {
        r := r + [fragment];
      }
      i := i + 1;
    }
    assert found[..i] == found;
  }

  /** Lines 83-101 for the `fragment` composite, starting from its current list. */
  method AssembleFragmentArray(arr: seq<string>, fs: FileSystem, alternates: seq<string>, generationDir: string)
    returns (r: seq<string>)
    ensures r == AppendNew(arr, FragmentCandidates(fs, alternates, generationDir))
  {
    r := arr;
    var i := 0;
    while i < |alternates|
      invariant 0 <= i <= |alternates|
      invariant r == AppendNew(arr, AlternateMatches(fs, alternates[..i]))
    {
      var alternateDir := alternates[i];
      assert alternates[..i + 1][..i] == alternates[..i];
      AppendNewConcat(arr, AlternateMatches(fs, alternates[..i]), DirMatches(fs, alternateDir));
      if alternateDir != "" && alternateDir in fs.dirs {
        r := AppendMatches(r, fs.matches(FragmentPattern(), Under(alternateDir)));
      } else {
        assert AppendNew(r, []) == r;
      }
      i := i + 1;
    }
    assert alternates[..i] == alternates;
    // Legacy fragments
    r := AppendMatches(r, fs.matches(LegacyPattern(generationDir), WorkingDirectory));
    // Legacy end fragments
    r := AppendMatches(r, fs.matches(EndPattern(generationDir), WorkingDirectory));
    FragmentScanOrder(arr, fs, alternates, generationDir);
  }

  // ---------------------------------------------------------------------------
  // All composites (line 76): every list is initialised, only `fragment` grows.
  // ---------------------------------------------------------------------------

  /** The environment's lists after the composites have been visited in order. */
  function ArraysAfter(arrays: map<string, seq<string>>, composites: seq<string>, candidates: seq<string>)
    : (r: map<string, seq<string>>)
    ensures r.Keys == arrays.Keys + (set c | c in composites :: ArrayName(c))
    decreases |composites|
  {
    if composites == [] then arrays
    else
      var init := composites[..|composites| - 1];
      var composite := composites[|composites| - 1];
      var before := ArraysAfter(arrays, init, candidates);
      var current := ArrayOf(before, composite);
      assert composites == init + [composite];
      before[ArrayName(composite) := if composite == FragmentComposite then AppendNew(current, candidates) else current]
  }

  /** One more composite visited. */
  lemma ArraysAfterStep(arrays: map<string, seq<string>>, composites: seq<string>, i: nat, candidates: seq<string>)
    requires i < |composites|
    ensures var before := ArraysAfter(arrays, composites[..i], candidates);
      var current := ArrayOf(before, composites[i]);
      ArraysAfter(arrays, composites[..i + 1], candidates)
        == before[ArrayName(composites[i]) := if composites[i] == FragmentComposite then AppendNew(current, candidates) else current]
  {
    assert composites[..i + 1][..i] == composites[..i];
  }

  /** Entries of keys that are no composite's list keep their value. */
  lemma {:induction false} ArraysAfterOtherKeys(arrays: map<string, seq<string>>, composites: seq<string>, candidates: seq<string>)
    ensures var r := ArraysAfter(arrays, composites, candidates);
      forall k :: k in arrays && k !in (set c | c in composites :: ArrayName(c)) ==> r[k] == arrays[k]
    decreases |composites|
  {
    if composites != [] {
      var init := composites[..|composites| - 1];
      var composite := composites[|composites| - 1];
      assert composites == init + [composite];
      ArraysAfterOtherKeys(arrays, init, candidates);
    }
  }

  /** Every composite other than `fragment` gets its old list (or []) unchanged. */
  lemma {:induction false} ArraysAfterNonFragment(arrays: map<string, seq<string>>, composites: seq<string>, candidates: seq<string>)
    ensures var r := ArraysAfter(arrays, composites, candidates);
      forall c :: c in composites && c != FragmentComposite ==> r[ArrayName(c)] == ArrayOf(arrays, c)
    decreases |composites|
  {
    if composites != [] {
      var init := composites[..|composites| - 1];
      var composite := composites[|composites| - 1];
      assert composites == init + [composite];
      ArraysAfterNonFragment(arrays, init, candidates);
      ArraysAfterOtherKeys(arrays, init, candidates);
      ArrayNamesInjective();
      var r := ArraysAfter(arrays, composites, candidates);
      forall c | c in composites && c != FragmentComposite
        ensures r[ArrayName(c)] == ArrayOf(arrays, c)
      {
        if c !in init {
          assert c == composite;
          assert ArrayName(c) !in (set c' | c' in init :: ArrayName(c'));
        }
      }
    }
  }

  /** The `fragment` list only grows at its end. */
  lemma {:induction false} ArraysAfterFragmentGrows(arrays: map<string, seq<string>>, composites: seq<string>, candidates: seq<string>)
    requires FragmentComposite in composites
    ensures ArrayOf(arrays, FragmentComposite) <= ArraysAfter(arrays, composites, candidates)[ArrayName(FragmentComposite)]
    decreases |composites|
  {
    var init := composites[..|composites| - 1];
    var composite := composites[|composites| - 1];
    assert composites == init + [composite];
    var before := ArraysAfter(arrays, init, candidates);
    var f := ArrayName(FragmentComposite);
    ArrayNamesInjective();
    if FragmentComposite in init {
      ArraysAfterFragmentGrows(arrays, init, candidates);
      if composite == FragmentComposite {
        assert before[f] <= AppendNew(before[f], candidates);
      } else {
        assert ArrayName(composite) != f;
      }
    } else {
      assert composite == FragmentComposite;
      ArraysAfterOtherKeys(arrays, init, candidates);
      assert f !in (set c' | c' in init :: ArrayName(c'));
      assert ArrayOf(before, FragmentComposite) == ArrayOf(arrays, FragmentComposite);
    }
  }

  /** With `fragment` listed once, its list is exactly the old one (or []) with the
      candidates appended under the basename rule. */
  lemma {:induction false} FragmentListedOnce(arrays: map<string, seq<string>>, composites: seq<string>, candidates: seq<string>)
    requires multiset(composites)[FragmentComposite] == 1
    ensures ArraysAfter(arrays, composites, candidates)[ArrayName(FragmentComposite)]
      == AppendNew(ArrayOf(arrays, FragmentComposite), candidates)
    decreases |composites|
  {
    var init := composites[..|composites| - 1];
    var composite := composites[|composites| - 1];
    assert composites == init + [composite];
    assert multiset(composites) == multiset(init) + multiset{composite};
    ArrayNamesInjective();
    if composite == FragmentComposite {
      assert FragmentComposite !in init;
      assert ArrayName(FragmentComposite) !in (set c | c in init :: ArrayName(c));
      var before := ArraysAfter(arrays, init, candidates);
      ArraysAfterOtherKeys(arrays, init, candidates);
      assert ArrayOf(before, FragmentComposite) == ArrayOf(arrays, FragmentComposite);
      assert ArraysAfter(arrays, composites, candidates)
        == before[ArrayName(FragmentComposite) := AppendNew(ArrayOf(before, FragmentComposite), candidates)];
    } else {
      FragmentListedOnce(arrays, init, candidates);
    }
  }
}
