/** `make_design_configs`: for each design name, the L1D and L2 latency
    profiles the cache simulator is configured with. */
module DesignConfigs {
  import opened Errors
  import opened Text
  import opened Buckets
  import opened AtorPriority

  /** One cache level's latencies: two scalars and one latency per way for
      write-data, read-data, write-tag and read-tag accesses. */
  datatype Profile = Profile(
    tagLatency: int,
    dataLatency: int,
    wdLatencies: seq<int>,
    rdLatencies: seq<int>,
    wtLatencies: seq<int>,
    rtLatencies: seq<int>)

  /** The table's value for one design: `{"l1d": ..., "l2": ...}`. */
  datatype DesignEntry = DesignEntry(l1d: Profile, l2: Profile)

  /** `base_l1d`, copied into every entry. */
  const BaseL1d := Profile(2, 2, [2, 2], [2, 2], [2, 2], [2, 2])

  /** Which branch of the dispatch a normalised name takes. */
  datatype Design = Csm | Ator | AtorPar | Priority(level: nat) | Unknown

  /** The dispatch tests in source order. The three membership tests are
      written `key in ("csm, csm_par")`, `key in ("ator")` and
      `key in ("ator_par")`: the parentheses make no tuples, so each is a
      substring test against one string. */
  function Classify(key: string): Design {
    if Contains("csm, csm_par", key) then Csm
    else if Contains("ator", key) then Ator
    else if Contains("ator_par", key) then AtorPar
    else match ParseAtorPriority(key)
      case Some(level) => Priority(level)
      case None => Unknown
  }

  /** The L2 profile of the csm / csm_par branch. */
  function CsmL2(assoc: int, fastWays: Option<int>): Result<Profile> {
    var wd :- TwoBucket(assoc, fastWays, 23, 45);
    var rd :- TwoBucket(assoc, fastWays, 6, 10);
    var wt :- TwoBucket(assoc, fastWays, 11, 22);
    var rt :- TwoBucket(assoc, fastWays, 3, 5);
    Ok(Profile(10, 10, wd, rd, wt, rt))
  }

  /** The L2 profile of the ator branch. */
  function AtorL2(assoc: int, fastWays: Option<int>): Result<Profile> {
    var wd :- TwoBucket(assoc, fastWays, 23, 45);
    var rd :- TwoBucket(assoc, fastWays, 6, 10);
    Ok(Profile(6, 10, wd, rd, Repeat(11, assoc), Repeat(3, assoc)))
  }

  /** The L2 profile of the ator_par branch, written out separately as the
      source does. */
  function AtorParL2(assoc: int, fastWays: Option<int>): Result<Profile> {
    var wd :- TwoBucket(assoc, fastWays, 23, 45);
    var rd :- TwoBucket(assoc, fastWays, 6, 10);
    Ok(Profile(6, 10, wd, rd, Repeat(11, assoc), Repeat(3, assoc)))
  }

  /** `f_cap`: the most priority ways a design may ask for. */
  function PriorityCapacity(assoc: int, fastWays: Option<int>): int {
    match fastWays
    case None => assoc / 2
    case Some(f) => Min(f, assoc / 2)
  }

  /** The L2 profile of the priority branch; the capacity check comes before
      any bucket is built. */
  function PriorityL2(name: string, level: nat, assoc: int, fastWays: Option<int>): Result<Profile> {
    var cap := PriorityCapacity(assoc, fastWays);
    if level > cap then
      Err(PriorityExceedsCapacity(name, level, cap, assoc))
    else
      var p := Min(level, cap);
      var wd :- ThreeBucket(assoc, fastWays, p, 12, 23, 45);
      var rd :- ThreeBucket(assoc, fastWays, p, 3, 6, 10);
      Ok(Profile(6, 10, wd, rd, Repeat(11, assoc), Repeat(3, assoc)))
  }

  /** The body of the loop for one name: normalise, classify, and build the
      entry stored under the original name, or the error raised. */
  function EntryFor(name: string, assoc: int, fastWays: Option<int>): Result<DesignEntry> {
    var l2 :- match Classify(Normalize(name))
      case Csm => CsmL2(assoc, fastWays)
      case Ator => AtorL2(assoc, fastWays)
      case AtorPar => AtorParL2(assoc, fastWays)
      case Priority(level) => PriorityL2(name, level, assoc, fastWays)
      case Unknown => Err(UnknownDesign(name));
    Ok(DesignEntry(BaseL1d, l2))
  }

  /** The loop of `make_design_configs` for any per-name step: the names are
      visited in order, each step's result is written under the name
      (a later duplicate overwrites an earlier one), and the first error
      ends the loop with no table. */
  function Fold<V>(designs: seq<string>, step: string -> Result<V>): Result<map<string, V>> {
    if designs == [] then
      Ok(map[])
    else
      var out :- Fold(designs[..|designs| - 1], step);
      var name := designs[|designs| - 1];
      var entry :- step(name);
      Ok(out[name := entry])
  }

  /** The step the loop takes for each name. */
  function EntryStep(assoc: int, fastWays: Option<int>): string -> Result<DesignEntry> {
    name => EntryFor(name, assoc, fastWays)
  }

  /** The table `make_design_configs` returns, or the error it raises. */
  function BuildTable(designs: seq<string>, assoc: int, fastWays: Option<int>): Result<map<string, DesignEntry>> {
    Fold(designs, EntryStep(assoc, fastWays))
  }

  /** `make_design_configs(designs, assoc, fast_ways)`: the loop over the
      names, writing each entry under its original name and stopping at the
      first error. */
  method MakeDesignConfigs(designs: seq<string>, assoc: int, fastWays: Option<int>)
    returns (r: Result<map<string, DesignEntry>>)
    ensures r == BuildTable(designs, assoc, fastWays)
  {
    ghost var step := EntryStep(assoc, fastWays);
    var out: map<string, DesignEntry> := map[];
    for i := 0 to |designs|
      invariant Fold(designs[..i], step) == Ok(out)
    {
      var name := designs[i];
      var entry := EntryFor(name, assoc, fastWays);
      assert entry == step(name);
      assert designs[..i + 1][..i] == designs[..i];
      if entry.Err? {
        FoldStopsAt(designs, step, i);
        return Err(entry.error);
      }
      out := out[name := entry.value];
    }
    assert designs[..|designs|] == designs;
    return Ok(out);
  }

  /** The fold returns a table exactly when every step succeeds; the table's
      keys are the names given, and each maps to its step's result. */
  lemma {:induction false} FoldSucceeds<V>(designs: seq<string>, step: string -> Result<V>)
    ensures Fold(designs, step).Ok? <==> forall i :: 0 <= i < |designs| ==> step(designs[i]).Ok?
    ensures Fold(designs, step).Ok? ==>
      var table := Fold(designs, step).value;
      && table.Keys == set name | name in designs
      && forall name :: name in table ==> step(name) == Ok(table[name])
  {
    if designs != [] {
      var prefix := designs[..|designs| - 1];
      FoldSucceeds(prefix, step);
      assert forall i :: 0 <= i < |prefix| ==> prefix[i] == designs[i];
      assert designs == prefix + [designs[|designs| - 1]];
      if Fold(designs, step).Ok? {
        assert (set name | name in designs) == (set name | name in prefix) + {designs[|designs| - 1]};
      }
    }
  }

  /** When the step fails first at position `k`, the fold ends with that error. */
  lemma {:induction false} FoldFirstFailure<V>(designs: seq<string>, step: string -> Result<V>, k: nat)
    requires k < |designs|
    requires forall i :: 0 <= i < k ==> step(designs[i]).Ok?
    requires step(designs[k]).Err?
    ensures Fold(designs, step) == Err(step(designs[k]).error)
  {
    var prefix := designs[..|designs| - 1];
    if k == |designs| - 1 {
      FoldSucceeds(prefix, step);
    } else {
      FoldFirstFailure(prefix, step, k);
    }
  }

  /** A fold that has succeeded on the first `i` names and fails on the
      next one ends with that failure. */
  lemma {:induction false} FoldStopsAt<V>(designs: seq<string>, step: string -> Result<V>, i: nat)
    requires i < |designs|
    requires Fold(designs[..i], step).Ok?
    requires step(designs[i]).Err?
    ensures Fold(designs, step) == Err(step(designs[i]).error)
  {
    var prefix := designs[..i];
    FoldSucceeds(prefix, step);
    assert forall j :: 0 <= j < i ==> step(designs[j]).Ok? by {
      forall j | 0 <= j < i ensures step(designs[j]).Ok? {
        assert prefix[j] == designs[j];
      }
    }
    FoldFirstFailure(designs, step, i);
  }

  /** One more name extends the fold by one write, made last. */
  lemma {:induction false} FoldAppend<V>(designs: seq<string>, name: string, step: string -> Result<V>)
    ensures Fold(designs + [name], step).Ok? <==> Fold(designs, step).Ok? && step(name).Ok?
    ensures Fold(designs + [name], step).Ok? ==>
      Fold(designs + [name], step).value == Fold(designs, step).value[name := step(name).value]
  {
    assert (designs + [name])[..|designs|] == designs;
  }

  /** The fold over a single name. */
  lemma {:induction false} FoldSingle<V>(designs: seq<string>, step: string -> Result<V>)
    requires |designs| == 1
    ensures step(designs[0]).Ok? ==> Fold(designs, step) == Ok(map[designs[0] := step(designs[0]).value])
    ensures step(designs[0]).Err? ==> Fold(designs, step) == Err(step(designs[0]).error)
  {
    assert designs[..0] == [];
  }

  // ---------------------------------------------------------------------
  // Classification

  /** A key holding a digit is a substring of none of the three names tested. */
  lemma {:induction false} DigitKeyMatchesNoFixedName(key: string, j: nat)
    requires j < |key| && IsDigit(key[j])
    ensures !Contains("csm, csm_par", key)
    ensures !Contains("ator", key)
    ensures !Contains("ator_par", key)
  {
    NotContainsMissingChar("csm, csm_par", key, j);
    NotContainsMissingChar("ator", key, j);
    NotContainsMissingChar("ator_par", key, j);
  }

  /** "csm" and "csm_par" take the csm branch. */
  lemma {:induction false} ClassifyCsmNames(key: string)
    requires key == "csm" || key == "csm_par"
    ensures Classify(key) == Csm
  {
    if key == "csm" {
      assert key <= "csm, csm_par"[0..];
    } else {
      assert key <= "csm, csm_par"[5..];
    }
  }

  /** "ator" takes the ator branch. */
  lemma {:induction false} ClassifyAtorName(key: string)
    requires key == "ator"
    ensures Classify(key) == Ator
  {
    NotContainsMissingChar("csm, csm_par", key, 1);
    assert key <= "ator"[0..];
  }

  /** "ator_par" takes the ator_par branch, and so does "ator_p", which is a
      substring of "ator_par"; the parser's reading of "ator_p" as priority 1
      is never reached. */
  lemma {:induction false} ClassifyAtorParNames(key: string)
    requires key == "ator_par" || key == "ator_p"
    ensures Classify(key) == AtorPar
  {
    NotContainsMissingChar("csm, csm_par", key, 1);
    NotContainedLonger("ator", key);
    assert key <= "ator_par"[0..];
  }

  /** Substring matching sends the empty key and fragments such as "a",
      "p" and "par" to the csm branch. */
  lemma {:induction false} ClassifySubstringQuirks()
    ensures Classify("") == Csm
    ensures Classify("a") == Csm
    ensures Classify("p") == Csm
    ensures Classify("par") == Csm
  {
    assert "" <= "csm, csm_par"[0..];
    assert "a" <= "csm, csm_par"[10..];
    assert "p" <= "csm, csm_par"[9..];
    assert "par" <= "csm, csm_par"[9..];
  }

  /** A name that is empty or all whitespace normalises to "" and so takes
      the csm branch. */
  lemma {:induction false} BlankNameIsCsm(name: string)
    requires AllSpaces(name)
    ensures Normalize(name) == ""
    ensures Classify(Normalize(name)) == Csm
  {
    assert name[..|name|] == name;
    LeadingSpacesUnique(name, |name|);
    assert "" <= "csm, csm_par"[0..];
  }

  /** The priority branch is reached exactly by the names that normalise to
      `ator_<digits>p`, and the level is the digits' value: "ator" and
      "ator_p" never get there, so the parser's 0 for "ator" and 1 for
      "ator_p" are never used by the dispatch. */
  lemma {:induction false} ClassifyPriorityIff(name: string, level: nat)
    ensures Classify(Normalize(name)) == Priority(level) <==>
      exists ds :: |ds| > 0 && AllDigits(ds) && Normalize(name) == "ator_" + ds + "p" && DecimalValue(ds) == level
  {
    var key := Normalize(name);
    NormalizeIdempotent(name);
    ParseAtorPriorityMeaning(key, level);
    if key == "ator" {
      ClassifyAtorName(key);
    } else if key == "ator_p" {
      ClassifyAtorParNames(key);
    }
    if exists ds :: |ds| > 0 && AllDigits(ds) && key == "ator_" + ds + "p" && DecimalValue(ds) == level {
      var ds :| |ds| > 0 && AllDigits(ds) && key == "ator_" + ds + "p" && DecimalValue(ds) == level;
      assert key[5] == ds[0];
      DigitKeyMatchesNoFixedName(key, 5);
    }
  }

  // ---------------------------------------------------------------------
  // One entry

  /** csm and csm_par: tags and data 10, every L2 list split at `f`; an
      invalid `f` raises. */
  lemma CsmEntry(name: string, assoc: int, fastWays: Option<int>)
    requires Classify(Normalize(name)) == Csm
    ensures var f := FastWays(assoc, fastWays);
      EntryFor(name, assoc, fastWays)
        == if ValidSplit(assoc, f) then
             Ok(DesignEntry(BaseL1d, Profile(10, 10,
               Split(assoc, f, 23, 45), Split(assoc, f, 6, 10),
               Split(assoc, f, 11, 22), Split(assoc, f, 3, 5))))
           else
             Err(InvalidFastWays(f, assoc))
  {
  }

  /** ator and ator_par give the same L2 profile: tag 6, data 10, data
      latencies split at `f`, tag latencies the same in every way. */
  lemma {:induction false} AtorEntry(name: string, assoc: int, fastWays: Option<int>)
    requires Classify(Normalize(name)) == Ator || Classify(Normalize(name)) == AtorPar
    ensures var f := FastWays(assoc, fastWays);
      EntryFor(name, assoc, fastWays)
        == if ValidSplit(assoc, f) then
             Ok(DesignEntry(BaseL1d, Profile(6, 10,
               Split(assoc, f, 23, 45), Split(assoc, f, 6, 10),
               Uniform(assoc, 11), Uniform(assoc, 3))))
           else
             Err(InvalidFastWays(f, assoc))
  {
    if ValidSplit(assoc, FastWays(assoc, fastWays)) {
      RepeatIsUniform(11, assoc);
      RepeatIsUniform(3, assoc);
    }
  }

  /** The priority branch: a level above the capacity raises first; then an
      invalid `f` raises; otherwise the first `level` ways are priority ways.
      The level is then at most `f`, so neither the clamp to the capacity nor
      the `min` inside three_bucket changes it. */
  lemma {:induction false} PriorityEntry(name: string, level: nat, assoc: int, fastWays: Option<int>)
    requires Classify(Normalize(name)) == Priority(level)
    ensures level <= PriorityCapacity(assoc, fastWays) ==> level <= FastWays(assoc, fastWays)
    ensures var f, cap := FastWays(assoc, fastWays), PriorityCapacity(assoc, fastWays);
      EntryFor(name, assoc, fastWays)
        == if level > cap then
             Err(PriorityExceedsCapacity(name, level, cap, assoc))
           else if !ValidSplit(assoc, f) then
             Err(InvalidFastWays(f, assoc))
           else
             Ok(DesignEntry(BaseL1d, Profile(6, 10,
               PrioritySplit(assoc, level, f, 12, 23, 45), PrioritySplit(assoc, level, f, 3, 6, 10),
               Uniform(assoc, 11), Uniform(assoc, 3))))
  {
    var f, cap := FastWays(assoc, fastWays), PriorityCapacity(assoc, fastWays);
    if level <= cap && ValidSplit(assoc, f) {
      RepeatIsUniform(11, assoc);
      RepeatIsUniform(3, assoc);
    }
  }

  /** A negative `fast_ways` makes the capacity negative, so a priority name
      raises the capacity error, not three_bucket's fast-ways error. */
  lemma NegativeFastWaysFailsOnCapacity(name: string, level: nat, assoc: int, fastWays: int)
    requires Classify(Normalize(name)) == Priority(level)
    requires fastWays < 0
    ensures EntryFor(name, assoc, Some(fastWays))
         == Err(PriorityExceedsCapacity(name, level, Min(fastWays, assoc / 2), assoc))
  {
  }

  /** An unmatched name raises UnknownDesign naming the original string. */
  lemma UnknownEntry(name: string, assoc: int, fastWays: Option<int>)
    requires Classify(Normalize(name)) == Unknown
    ensures EntryFor(name, assoc, fastWays) == Err(UnknownDesign(name))
  {
  }

  /** Every entry built has the base L1D profile and L2 lists of length
      `assoc`, and is only built when `f` lies in [0, assoc]. */
  lemma {:induction false} EntryShape(name: string, assoc: int, fastWays: Option<int>)
    requires EntryFor(name, assoc, fastWays).Ok?
    ensures ValidSplit(assoc, FastWays(assoc, fastWays))
    ensures var e := EntryFor(name, assoc, fastWays).value;
      && e.l1d == BaseL1d
      && |e.l2.wdLatencies| == assoc && |e.l2.rdLatencies| == assoc
      && |e.l2.wtLatencies| == assoc && |e.l2.rtLatencies| == assoc
  {
    match Classify(Normalize(name))
    case Csm => CsmEntry(name, assoc, fastWays);
    case Ator => AtorEntry(name, assoc, fastWays);
    case AtorPar => AtorEntry(name, assoc, fastWays);
    case Priority(level) => PriorityEntry(name, level, assoc, fastWays);
    case Unknown =>
  }

  /** With `f` outside [0, assoc`] every name raises: csm and ator names from
      two_bucket, priority names from the capacity check or three_bucket. */
  lemma {:induction false} InvalidFastWaysRejectsEveryName(name: string, assoc: int, fastWays: Option<int>)
    requires !ValidSplit(assoc, FastWays(assoc, fastWays))
    ensures EntryFor(name, assoc, fastWays).Err?
  {
    if EntryFor(name, assoc, fastWays).Ok? {
      EntryShape(name, assoc, fastWays);
    }
  }

  // ---------------------------------------------------------------------
  // The whole table

  /** The call returns a table exactly when every name has an entry; the
      table's keys are the original names, and each maps to the entry built
      for it. Entries depend on nothing but the name and the two parameters,
      so a later duplicate overwrites an earlier one with an equal entry. */
  lemma {:induction false} BuildTableSucceeds(designs: seq<string>, assoc: int, fastWays: Option<int>)
    ensures BuildTable(designs, assoc, fastWays).Ok?
        <==> forall i :: 0 <= i < |designs| ==> EntryFor(designs[i], assoc, fastWays).Ok?
    ensures BuildTable(designs, assoc, fastWays).Ok? ==>
      var table := BuildTable(designs, assoc, fastWays).value;
      && table.Keys == set name | name in designs
      && forall name :: name in table ==> EntryFor(name, assoc, fastWays) == Ok(table[name])
  {
    FoldSucceeds(designs, EntryStep(assoc, fastWays));
  }

  /** The first name without an entry decides the error, and no table is returned. */
  lemma {:induction false} BuildTableFirstFailure(designs: seq<string>, assoc: int, fastWays: Option<int>, k: nat)
    requires k < |designs|
    requires forall i :: 0 <= i < k ==> EntryFor(designs[i], assoc, fastWays).Ok?
    requires EntryFor(designs[k], assoc, fastWays).Err?
    ensures BuildTable(designs, assoc, fastWays) == Err(EntryFor(designs[k], assoc, fastWays).error)
  {
    FoldFirstFailure(designs, EntryStep(assoc, fastWays), k);
  }

  /** Names are written in order, so the entry for a name is the one written
      last: appending a name, even one already present, writes its entry
      over whatever the table held for it, and adds no other change. */
  lemma {:induction false} BuildTableLastWriteWins(designs: seq<string>, name: string, assoc: int, fastWays: Option<int>)
    ensures BuildTable(designs + [name], assoc, fastWays).Ok?
        <==> BuildTable(designs, assoc, fastWays).Ok? && EntryFor(name, assoc, fastWays).Ok?
    ensures BuildTable(designs + [name], assoc, fastWays).Ok? ==>
      BuildTable(designs + [name], assoc, fastWays).value
        == BuildTable(designs, assoc, fastWays).value[name := EntryFor(name, assoc, fastWays).value]
  {
    FoldAppend(designs, name, EntryStep(assoc, fastWays));
  }

  /** Every entry of a returned table has the base L1D profile and L2 lists
      of length `assoc`. */
  lemma {:induction false} TableEntriesShape(designs: seq<string>, assoc: int, fastWays: Option<int>, name: string)
    requires BuildTable(designs, assoc, fastWays).Ok?
    requires name in BuildTable(designs, assoc, fastWays).value
    ensures var e := BuildTable(designs, assoc, fastWays).value[name];
      && e.l1d == BaseL1d
      && |e.l2.wdLatencies| == assoc && |e.l2.rdLatencies| == assoc
      && |e.l2.wtLatencies| == assoc && |e.l2.rtLatencies| == assoc
  {
    BuildTableSucceeds(designs, assoc, fastWays);
    EntryShape(name, assoc, fastWays);
  }

  /** The fast-ways check runs only inside the bucket helpers: with `f`
      outside [0, assoc] the call still returns the empty table for no
      names, and raises for any non-empty list of names. */
  lemma {:induction false} FastWaysCheckedLazily(designs: seq<string>, assoc: int, fastWays: Option<int>)
    requires !ValidSplit(assoc, FastWays(assoc, fastWays))
    ensures BuildTable(designs, assoc, fastWays).Ok? <==> designs == []
  {
    BuildTableSucceeds(designs, assoc, fastWays);
    if designs != [] {
      InvalidFastWaysRejectsEveryName(designs[0], assoc, fastWays);
    }
  }

  // ---------------------------------------------------------------------
  // Worked examples

  /** `["CSM"]` with 8 ways and the default split of 4 fast ways. */
  lemma {:induction false} CsmExample(designs: seq<string>, assoc: int)
    requires designs == ["CSM"] && assoc == 8
    ensures BuildTable(designs, assoc, None)
         == Ok(map["CSM" := DesignEntry(BaseL1d, Profile(10, 10,
              [23, 23, 23, 23, 45, 45, 45, 45], [6, 6, 6, 6, 10, 10, 10, 10],
              [11, 11, 11, 11, 22, 22, 22, 22], [3, 3, 3, 3, 5, 5, 5, 5]))])
  {
    var name := designs[0];
    assert Classify(Normalize(name)) == Csm by {
      NormalizeStripped(name);
      assert Lower(name) == "csm";
      ClassifyCsmNames(Normalize(name));
    }
    CsmEntry(name, assoc, None);
    HalfSplitOfEight(assoc, 23, 45);
    HalfSplitOfEight(assoc, 6, 10);
    HalfSplitOfEight(assoc, 11, 22);
    HalfSplitOfEight(assoc, 3, 5);
    FoldSingle(designs, EntryStep(assoc, None));
  }

  lemma HalfSplitOfEight(assoc: nat, x: int, y: int)
    requires assoc == 8
    ensures Split(assoc, 4, x, y) == [x, x, x, x, y, y, y, y]
  {
  }

  /** `["ator"]` with 4 ways and 2 fast ways: tag 6, tag latencies uniform. */
  lemma {:induction false} AtorExample(designs: seq<string>, assoc: int, fastWays: Option<int>)
    requires designs == ["ator"] && assoc == 4 && fastWays == Some(2)
    ensures BuildTable(designs, assoc, fastWays)
         == Ok(map["ator" := DesignEntry(BaseL1d, Profile(6, 10,
              [23, 23, 45, 45], [6, 6, 10, 10], [11, 11, 11, 11], [3, 3, 3, 3]))])
  {
    var name := designs[0];
    NormalizeStripped(name);
    assert Lower(name) == "ator";
    ClassifyAtorName(Normalize(name));
    AtorEntry(name, assoc, fastWays);
    assert Split(assoc, 2, 23, 45) == [23, 23, 45, 45];
    assert Split(assoc, 2, 6, 10) == [6, 6, 10, 10];
    assert Uniform(assoc, 11) == [11, 11, 11, 11];
    assert Uniform(assoc, 3) == [3, 3, 3, 3];
    FoldSingle(designs, EntryStep(assoc, fastWays));
  }

  /** `["ator_3p"]` with 4 ways and 1 fast way: the capacity min(1, 2) = 1 is
      below 3, so the call raises. */
  lemma {:induction false} CapacityExample(designs: seq<string>, assoc: int, fastWays: Option<int>)
    requires designs == ["ator_3p"] && assoc == 4 && fastWays == Some(1)
    ensures BuildTable(designs, assoc, fastWays) == Err(PriorityExceedsCapacity("ator_3p", 3, 1, 4))
  {
    var name := designs[0];
    NormalizeStripped(name);
    assert Lower(name) == "ator_3p";
    assert name == "ator_" + "3" + "p";
    assert DecimalValue("3") == 3 by { assert "3"[..0] == ""; }
    ClassifyPriorityIff(name, 3);
    PriorityEntry(name, 3, assoc, fastWays);
    FoldSingle(designs, EntryStep(assoc, fastWays));
  }

  /** `["foo"]` raises UnknownDesign naming "foo". */
  lemma {:induction false} UnknownExample(designs: seq<string>, assoc: int)
    requires designs == ["foo"] && assoc == 4
    ensures BuildTable(designs, assoc, None) == Err(UnknownDesign("foo"))
  {
    var name := designs[0];
    NormalizeStripped(name);
    assert Lower(name) == "foo";
    NotContainsMissingChar("csm, csm_par", name, 0);
    NotContainsMissingChar("ator", name, 0);
    NotContainsMissingChar("ator_par", name, 0);
    FoldSingle(designs, EntryStep(assoc, None));
  }
}
