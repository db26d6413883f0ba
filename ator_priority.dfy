/** `parse_ator_priority`: recognises the priority ATOR design names and
    reads their priority level. */
module AtorPriority {
  import opened Errors
  import opened Text

  /** `re.fullmatch(r"ator_(?:(\d+)p|p)", s)` followed by
      `int(m.group(1) or 1)`, with `\d` read as an ASCII digit: `ator_p` gives
      1 (the group did not take part), `ator_<digits>p` the digits' value. */
  function MatchPriorityPattern(s: string): Option<nat> {
    if |s| >= 6 && s[..5] == "ator_" && s[|s| - 1] == 'p' then
      var digits := s[5..|s| - 1];
      if digits == [] then Some(1)
      else if AllDigits(digits) then Some(DecimalValue(digits))
      else None
    else
      None
  }

  /** `parse_ator_priority(key)`: normalise, then "ator" is priority 0 and
      the pattern above gives the rest; None when the key is no ATOR key. */
  function ParseAtorPriority(key: string): Option<nat> {
    var s := Normalize(key);
    if s == "ator" then Some(0) else MatchPriorityPattern(s)
  }

  /** The grammar `ator(_(\d+)?p)?` with the level each form denotes. */
  ghost predicate IsPriorityKey(s: string, level: nat) {
    || (s == "ator" && level == 0)
    || (s == "ator_p" && level == 1)
    || exists ds :: |ds| > 0 && AllDigits(ds) && s == "ator_" + ds + "p" && DecimalValue(ds) == level
  }

  /** The parser returns `level` exactly when the normalised key is a word of
      the grammar denoting `level`, and None exactly when it is no word of it. */
  lemma {:induction false} ParseAtorPriorityMeaning(key: string, level: nat)
    ensures ParseAtorPriority(key) == Some(level) <==> IsPriorityKey(Normalize(key), level)
    ensures ParseAtorPriority(key).None? <==> forall n: nat :: !IsPriorityKey(Normalize(key), n)
  {
    var s := Normalize(key);
    if IsPriorityKey(s, level) {
      GrammarWordParses(s, level);
    }
    if ParseAtorPriority(key).Some? {
      ParsedIsGrammarWord(s);
    }
    forall n: nat | IsPriorityKey(s, n)
      ensures ParseAtorPriority(key) == Some(n)
    {
      GrammarWordParses(s, n);
    }
  }

  /** Every word of the grammar is recognised, with the level it denotes. */
  lemma {:induction false} GrammarWordParses(s: string, level: nat)
    requires IsPriorityKey(s, level)
    ensures (if s == "ator" then Some(0) else MatchPriorityPattern(s)) == Some(level)
  {
    if s != "ator" && s != "ator_p" {
      var ds :| |ds| > 0 && AllDigits(ds) && s == "ator_" + ds + "p" && DecimalValue(ds) == level;
      assert s[..5] == "ator_";
      assert s[5..|s| - 1] == ds;
    }
  }

  /** Whatever is recognised is a word of the grammar, denoting the level returned. */
  lemma {:induction false} ParsedIsGrammarWord(s: string)
    requires (if s == "ator" then Some(0) else MatchPriorityPattern(s)).Some?
    ensures IsPriorityKey(s, (if s == "ator" then Some(0) else MatchPriorityPattern(s)).value)
  {
    if s != "ator" {
      var digits := s[5..|s| - 1];
      assert s == s[..5] + digits + [s[|s| - 1]];
      if digits == [] {
        assert s == "ator_p";
      } else {
        assert s == "ator_" + digits + "p";
      }
    }
  }

  /** Every `ator_<digits>p`, leading zeros included, parses to the digits' value. */
  lemma {:induction false} ParseDigitForm(ds: string)
    requires |ds| > 0 && AllDigits(ds)
    ensures ParseAtorPriority("ator_" + ds + "p") == Some(DecimalValue(ds))
  {
    var s := "ator_" + ds + "p";
    DigitFormIsNormal(ds);
    assert IsPriorityKey(s, DecimalValue(ds));
    GrammarWordParses(s, DecimalValue(ds));
  }

  /** `ator_<digits>p` is already stripped and lower case. */
  lemma {:induction false} DigitFormIsNormal(ds: string)
    requires AllDigits(ds)
    ensures Normalize("ator_" + ds + "p") == "ator_" + ds + "p"
  {
    var s := "ator_" + ds + "p";
    assert s[0] == 'a' && s[|s| - 1] == 'p';
    NormalizeStripped(s);
    forall i | 0 <= i < |s| ensures LowerChar(s[i]) == s[i] {
      if 5 <= i < |s| - 1 {
        assert s[i] == ds[i - 5];
      }
    }
    LowerFixed(s);
  }

  /** Rendering a level as `ator_<N>p` and parsing it gives the level back. */
  lemma {:induction false} ParsePriorityRoundTrip(level: nat)
    ensures ParseAtorPriority("ator_" + Decimal(level) + "p") == Some(level)
  {
    DecimalRoundTrip(level);
    ParseDigitForm(Decimal(level));
  }

  /** The parser ignores the ASCII case of the key and whitespace around it. */
  lemma {:induction false} ParseIgnoresCaseAndPadding(key: string, other: string, pad: string, pad': string)
    requires Lower(key) == Lower(other)
    requires AllSpaces(pad) && AllSpaces(pad')
    ensures ParseAtorPriority(pad + key + pad') == ParseAtorPriority(other)
  {
    NormalizeIgnoresCaseAndPadding(key, other, pad, pad');
  }

  /** The parser ignores case in "ATOR". */
  lemma {:induction false} ParseUpperCaseAtor(key: string)
    requires key == "ATOR"
    ensures ParseAtorPriority(key) == Some(0)
  {
    NormalizeStripped(key);
    assert Lower(key) == "ator";
  }

  /** A word outside the grammar is no priority key. */
  lemma {:induction false} ParseRejectsOtherWord(key: string)
    requires key == "banana"
    ensures ParseAtorPriority(key) == None
  {
    NormalizeStripped(key);
    LowerFixed(key);
    assert key[..5][0] == 'b';
  }

  /** `ator_p` reads 1: the digit group did not take part in the match. */
  lemma {:induction false} ParseAtorP(key: string)
    requires key == "ator_p"
    ensures ParseAtorPriority(key) == Some(1)
  {
    NormalizeStripped(key);
    LowerFixed(key);
    GrammarWordParses(key, 1);
  }

  /** `ator_0p` reads 0: the matched digits "0" are a non-empty string,
      which `m.group(1) or 1` keeps. */
  lemma {:induction false} ParseAtorZeroP(key: string)
    requires key == "ator_0p"
    ensures ParseAtorPriority(key) == Some(0)
  {
    assert key == "ator_" + "0" + "p";
    assert DecimalValue("0") == 0 by { assert "0"[..0] == ""; }
    ParseDigitForm("0");
  }

  /** Upper-case letters in the digit form are lower-cased before matching. */
  lemma {:induction false} ParseUpperCaseDigitForm(key: string)
    requires key == "ator_2P"
    ensures ParseAtorPriority(key) == Some(2)
  {
    NormalizeStripped(key);
    var s := Lower(key);
    assert s == "ator_" + "2" + "p";
    assert DecimalValue("2") == 2 by { assert "2"[..0] == ""; }
    DigitFormIsNormal("2");
    GrammarWordParses(s, 2);
  }
}
