# Design configuration table for the cache simulator

`make_design_configs(designs, assoc, fast_ways)` builds, for each cache
design name, the latency parameters the simulator runs with: a fixed L1D
profile and an L2 profile. An L2 profile holds a tag latency, a data latency
and four per-way latency lists (write-data, read-data, write-tag,
read-tag), one entry per way of an `assoc`-way cache.

The `fast_ways` most significant ways are "fast". When `fast_ways` is None
there are `assoc // 2` of them.

Each name is stripped of surrounding whitespace, lower-cased and dispatched,
first match wins:

- csm / csm_par: tag and data latency 10. Every list is split: fast ways
  first, then slow ways.
- ator and ator_par: tag 6, data 10. The data lists are split; the tag
  lists are the same in every way.
- priority designs `ator_<N>p`: like ator, but the first N ways of each
  data list hold the tag-to-data difference. N may be at most
  `min(fast_ways, assoc // 2)`.
- anything else: the call fails.

Any failure aborts the whole call. The table is keyed by the names as
given, not as normalised.

The model has five modules:

- `Errors`: Python's `Optional`, the three `ValueError` kinds, and a
  `Result` type that carries the error instead of raising.
- `Text`: the operations the builder relies on. `str.strip()` over the
  full `str.isspace()` set, `str.lower()` on ASCII letters, the substring
  test `needle in hay`, and the decimal numbers `int()` reads.
- `Buckets`: the way-list builders `two_bucket` and `three_bucket`, with
  Python's list repetition `[x] * n`. Each is specified against a
  reference layout (`Split`, `PrioritySplit`, `Uniform`).
- `AtorPriority`: `parse_ator_priority`. The regular expression
  `ator_(?:(\d+)p|p)` is written out as a matcher, and the parser is proved
  equivalent to the grammar it denotes.
- `DesignConfigs`:
  - the profiles and the dispatch (`Classify`);
  - the per-branch L2 builders and the entry for one name (`EntryFor`);
  - the loop as a fold (`Fold`, `BuildTable`);
  - the loop itself as a method (`MakeDesignConfigs`), proved to compute
    `BuildTable`.

The three membership tests in the dispatch are written
`key in ("csm, csm_par")`, `key in ("ator")` and `key in ("ator_par")`.
The parentheses make no tuples, so each is a substring test against one
string. The error message at design_configs.py:110 lists csm, csm_par,
ATOR, ATOR_Par and ATOR_P as the supported names, which suggests exact
membership was meant; the model follows the code as written.
The lemmas below prove the consequences:
- the empty name, blank names and fragments such as "a", "p" and "par" are
  csm designs;
- "ator_p" is an ator_par design;
- the parser's readings of "ator" (0) and "ator_p" (1) are never used.
  Only `ator_<digits>p` names reach the priority branch.

## Model

| member | source | states |
|---|---|---|
| Buckets.Repeat | design_configs.py:16 | `[x] * n` has `max(n, 0)` elements, each equal to `x` |
| Buckets.TwoBucket | design_configs.py:12-16 | fails with the resolved `f` exactly when `f` is outside [0, assoc]; otherwise returns `assoc` ways, the first `f` holding the fast value and the rest the slow value |
| Buckets.ThreeBucket | design_configs.py:21-26 | fails exactly when `f` is outside [0, assoc]; otherwise `min(priorities, f)` ways of the difference, then fast ways up to `f`, then slow ways, `assoc` in all |
| Buckets.ThreeBucketWithoutPriorities | design_configs.py:21-26 | with no priority ways three_bucket returns what two_bucket returns, errors included |
| Buckets.ThreeBucketAgreesPastPriorities | design_configs.py:25-26 | past the first `min(priorities, f)` ways, three_bucket and two_bucket agree way by way |
| Buckets.TwoBucketBoundaries | design_configs.py:13-16 | `fast_ways = 0` makes every way slow and `fast_ways = assoc` every way fast, neither an error |
| Buckets.RepeatIsUniform | design_configs.py:72-73 | `[x] * assoc` is `x` in every one of the `assoc` ways |
| Text.LeadingSpaces | design_configs.py:30 | the length of the whitespace run that starts the string: all of it whitespace, followed by a non-space or the end |
| Text.TrailingSpaces | design_configs.py:30 | the length of the whitespace run that ends the string, preceded by a non-space or the start |
| Text.Strip | design_configs.py:30 | `strip()` leaves no whitespace at either end and leaves an already stripped string unchanged |
| Text.StripPadded | design_configs.py:49 | `strip()` removes any amount of surrounding whitespace: padding a name changes nothing |
| Text.Lower | design_configs.py:49 | `lower()` keeps the length, leaves no ASCII capital, keeps every other character in place, and turns each capital into its lower-case letter |
| Text.LowerIdempotent | design_configs.py:30 | lower-casing an already lower-cased key changes nothing |
| Text.StripLower | design_configs.py:30 | stripping and lower-casing commute |
| Text.NormalizeIdempotent | design_configs.py:30 | the parser's own `strip().lower()` of the already normalised key changes nothing |
| Text.NormalizeIgnoresCaseAndPadding | design_configs.py:49 | the normalised key ignores ASCII case and surrounding whitespace |
| Text.NotContainedLonger | design_configs.py:64 | a key longer than the tested string is no substring of it |
| Text.NotContainsMissingChar | design_configs.py:51 | a string holding a character the haystack lacks is no substring of it |
| Text.DecimalRoundTrip | design_configs.py:35 | `int()` of the decimal rendering of `n` is `n` |
| AtorPriority.ParseAtorPriorityMeaning | design_configs.py:28-36 | the parser returns `level` exactly when the normalised key is "ator" (0), "ator_p" (1) or `ator_<digits>p` (the digits' value), and None exactly when it is none of these |
| AtorPriority.ParseDigitForm | design_configs.py:33-35 | every `ator_<digits>p`, leading zeros included, parses to the digits' decimal value |
| AtorPriority.ParsePriorityRoundTrip | design_configs.py:29 | parsing `ator_<N>p` gives N back for every N |
| AtorPriority.ParseIgnoresCaseAndPadding | design_configs.py:30 | the parser ignores ASCII case and surrounding whitespace |
| AtorPriority.ParseUpperCaseAtor | design_configs.py:30-32 | "ATOR" parses to 0 |
| AtorPriority.ParseRejectsOtherWord | design_configs.py:33-36 | "banana" is no ATOR key |
| AtorPriority.ParseAtorP | design_configs.py:33-35 | "ator_p" parses to 1, the digit group not taking part |
| AtorPriority.ParseAtorZeroP | design_configs.py:35 | "ator_0p" parses to 0: the matched "0" is kept by `group(1) or 1` |
| AtorPriority.ParseUpperCaseDigitForm | design_configs.py:30-35 | "ator_2P" is lower-cased and parses to 2 |
| DesignConfigs.MakeDesignConfigs | design_configs.py:47-111 | the loop returns exactly the table, or the error, that the fold `BuildTable` describes |
| DesignConfigs.FoldSucceeds | design_configs.py:47-52 | the loop returns a table exactly when every name's step succeeds; its keys are the names given, each mapped to its step's result |
| DesignConfigs.FoldFirstFailure | design_configs.py:48 | when the first failing step is at position k, the loop ends with that error |
| DesignConfigs.FoldStopsAt | design_configs.py:48 | a loop that has succeeded on the first i names and fails on the next ends with that failure |
| DesignConfigs.FoldAppend | design_configs.py:48-52 | one more name extends the loop by one write, made last |
| DesignConfigs.FoldSingle | design_configs.py:48-52 | the loop over one name writes its entry or raises its error |
| DesignConfigs.BuildTableSucceeds | design_configs.py:47-53 | a table is returned exactly when every name has an entry; the keys are the original names and each maps to the entry built for it |
| DesignConfigs.BuildTableFirstFailure | design_configs.py:109-111 | the first name without an entry decides the error, and no table is returned |
| DesignConfigs.BuildTableLastWriteWins | design_configs.py:48-52 | a later name, duplicate or not, overwrites what the table held for it and changes nothing else |
| DesignConfigs.ClassifyCsmNames | design_configs.py:51 | "csm" and "csm_par" take the csm branch |
| DesignConfigs.ClassifyAtorName | design_configs.py:64 | "ator" takes the ator branch |
| DesignConfigs.ClassifyAtorParNames | design_configs.py:77 | "ator_par" and "ator_p" take the ator_par branch |
| DesignConfigs.ClassifySubstringQuirks | design_configs.py:51 | "", "a", "p" and "par" take the csm branch |
| DesignConfigs.BlankNameIsCsm | design_configs.py:49-51 | an empty or all-whitespace name normalises to "" and takes the csm branch |
| DesignConfigs.DigitKeyMatchesNoFixedName | design_configs.py:51-77 | a key holding a digit passes none of the three substring tests |
| DesignConfigs.ClassifyPriorityIff | design_configs.py:49-90 | a name reaches the priority branch with level N exactly when it normalises to `ator_<digits>p` with digits of value N |
| DesignConfigs.CsmEntry | design_configs.py:51-62 | a csm entry is the base L1D and an L2 of tag 10, data 10, lists split at `f` (23/45, 6/10, 11/22, 3/5), or the fast-ways error |
| DesignConfigs.AtorEntry | design_configs.py:64-88 | ator and ator_par entries are equal: tag 6, data 10, data lists split at `f` (23/45, 6/10), tag lists 11 and 3 in every way, or the fast-ways error |
| DesignConfigs.PriorityEntry | design_configs.py:90-108 | a level above `f_cap` raises first, then an invalid `f`; otherwise the level is at most `f`, so both clamps are no-ops, and the data lists hold the level's ways of 12 and 3 before the 23/45 and 6/10 split |
| DesignConfigs.NegativeFastWaysFailsOnCapacity | design_configs.py:91-96 | with a negative `fast_ways` a priority name raises the capacity error, not the fast-ways error |
| DesignConfigs.UnknownEntry | design_configs.py:109-110 | an unmatched name raises UnknownDesign naming the original string |
| DesignConfigs.EntryShape | design_configs.py:38-45 | every entry built has the base L1D profile and four L2 lists of length `assoc`, and exists only when `f` is in [0, assoc] |
| DesignConfigs.InvalidFastWaysRejectsEveryName | design_configs.py:13-15 | with `f` outside [0, assoc] every name raises |
| DesignConfigs.TableEntriesShape | design_configs.py:38-53 | every entry of a returned table has the base L1D profile and L2 lists of length `assoc` |
| DesignConfigs.FastWaysCheckedLazily | design_configs.py:12-15 | with `f` outside [0, assoc] the call returns a table exactly for the empty list of names |
| DesignConfigs.CsmExample | design_configs.py:51-62 | `["CSM"]`, 8 ways, default split: the csm entry with 4 fast and 4 slow ways in every list |
| DesignConfigs.AtorExample | design_configs.py:64-75 | `["ator"]`, 4 ways, 2 fast: data lists split 2/2, tag lists uniform |
| DesignConfigs.CapacityExample | design_configs.py:90-96 | `["ator_3p"]`, 4 ways, 1 fast: level 3 exceeds the capacity 1 and the call raises |
| DesignConfigs.UnknownExample | design_configs.py:109-110 | `["foo"]` raises UnknownDesign("foo") |

## Left out

- Non-ASCII digits: Python's `\d` and `int()` also accept them. The model
  reads ASCII digits only, so a name such as "ator_" followed by an
  Arabic-Indic digit and "p" is an unknown design here but a priority
  design in Python.
- Full Unicode `lower()`: the model lower-cases ASCII letters only. The
  non-ASCII letters whose lower case is ASCII (the Kelvin sign, and the
  dotted capital I, which becomes "i" plus a combining dot) lower-case to
  letters that occur in none of the tested strings. So the dispatch
  reaches the same branch either way.
- The text of the `ValueError` messages: errors are kinds carrying the
  values the messages name.
- The insertion order of the returned dict: a `map` keeps the keys and the
  last write to each.
- The shallow copy `dict(base_l1d)`, whose inner lists are shared between
  entries: nothing mutates them, and Dafny sequences are values.
- Type hints, `designs` as an arbitrary iterable (modelled as a sequence
  read once, in order), and arguments of other types than `int`
  (booleans, floats) and `str`.
- Text.DecimalValue: reads digit strings of any length. CPython 3.11 and
  later (and the security releases of 3.7 to 3.10) make `int()` raise
  `ValueError` for a string of more than 4300 digits, leading zeros
  included, so a name such as `ator_` followed by 4301 digits and `p`
  makes the Python call raise, while the model gives it a priority entry.
  The limit is a run-time setting of the interpreter, not part of the
  function, and is not modelled.
- AtorPriority.ParseDigitForm and AtorPriority.ParsePriorityRoundTrip:
  hold for digit strings of every length in the model; under the `int()`
  limit above, Python agrees only up to 4300 digits.
- Buckets.ThreeBucket: for a negative `priorities` it states only the
  list's length, `assoc - priorities`, not its contents. The dispatcher
  only passes levels of at least 0.
