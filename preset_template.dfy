/**
 * History-preset templates: the company placeholders a preset description
 * may carry, replaced by the company's names when a title is filled in.
 */
module PresetTemplate {
  import opened Common

  /** The two company names a template can refer to. */
  datatype CompanyNames = CompanyNames(fantasyName: Option<string>, socialReason: Option<string>)

  datatype Preset = Preset(description: Option<string>)

  /** A case-insensitive match of the lower-case pattern `pat` at the start of `s`. */
  predicate MatchesHere(s: string, pat: string)
  {
    |pat| <= |s| && Lower(s[..|pat|]) == pat
  }

  /**
   * `s.replace(/pat/gi, rep)`: scans left to right, replaces every
   * non-overlapping case-insensitive match, and never rescans replaced text.
   */
  function ReplaceAllCI(s: string, pat: string, rep: string): string
    requires |pat| > 0
    decreases |s|
  {
    if |s| < |pat| then s
    else if MatchesHere(s, pat) then rep + ReplaceAllCI(s[|pat|..], pat, rep)
    else [s[0]] + ReplaceAllCI(s[1..], pat, rep)
  }

  /** Lower-casing commutes with slicing. */
  lemma LowerSlice(s: string, i: nat, j: nat)
    requires i <= j <= |s|
    ensures Lower(s[i..j]) == Lower(s)[i..j]
  {
    var l, r := Lower(s[i..j]), Lower(s)[i..j];
    assert |l| == |r|;
    forall k | 0 <= k < |l| ensures l[k] == r[k] {
      calc {
        l[k];
        LowerChar(s[i..j][k]);
        LowerChar(s[i + k]);
        Lower(s)[i + k];
        r[k];
      }
    }
  }

  /** A string whose lower-cased form never contains the pattern comes back unchanged. */
  lemma {:induction false} ReplaceWithoutOccurrence(s: string, pat: string, rep: string)
    requires |pat| > 0 && !Contains(Lower(s), pat)
    ensures ReplaceAllCI(s, pat, rep) == s
    decreases |s|
  {
    if |s| >= |pat| {
      LowerSlice(s, 0, |pat|);
      assert !MatchesHere(s, pat);
      LowerSlice(s, 1, |s|);
      assert Lower(s)[1..] == Lower(s[1..]);
      ReplaceWithoutOccurrence(s[1..], pat, rep);
      assert [s[0]] + s[1..] == s;
    }
  }

  /** Every case-insensitive match in the input is replaced: a string that is one match becomes the replacement. */
  lemma {:induction false} ReplaceWholeMatch(s: string, pat: string, rep: string, tail: string)
    requires |pat| > 0 && |s| >= |pat| && Lower(s[..|pat|]) == pat && tail == s[|pat|..]
    ensures ReplaceAllCI(s, pat, rep) == rep + ReplaceAllCI(tail, pat, rep)
  {
  }

  /** Lower-casing never produces an '@' from anything else. */
  lemma {:induction false} LowerKeepsNoAt(s: string)
    requires '@' !in s
    ensures '@' !in Lower(s)
  {
    forall i | 0 <= i < |s| ensures Lower(s)[i] != '@' {
      assert s[i] != '@';
    }
  }

  /** A pattern starting with '@' never matches text that has no '@'. */
  lemma {:induction false} ReplaceNoAt(s: string, pat: string, rep: string)
    requires |pat| > 0 && pat[0] == '@' && '@' !in s
    ensures ReplaceAllCI(s, pat, rep) == s
  {
    LowerKeepsNoAt(s);
    ContainsAt(Lower(s), pat);
    ReplaceWithoutOccurrence(s, pat, rep);
  }

  /** `replacePresetVariables` as a value: the four replacements in order, then the trim. */
  function PresetText(template: string, company: Option<CompanyNames>): (r: string)
    ensures template == "" ==> r == ""
    ensures company.None? ==> r == Trim(template)
    ensures r == [] || (!IsSpace(r[0]) && !IsSpace(r[|r| - 1]))
  {
    if template == "" then ""
    else
      var result :=
        if company.None? then template
        else
          var fantasy := OrEmpty(company.value.fantasyName);
          var social := OrEmpty(company.value.socialReason);
          ReplaceAllCI(ReplaceAllCI(ReplaceAllCI(ReplaceAllCI(template, "@nome_fantasia", fantasy),
            "@empresa", fantasy), "@razao_social", fantasy), "@empresa_npme", social);
      TrimmedEnds(result);
      Trim(result)
  }

  /** `replacePresetVariables`: `result` reassigned by each replacement in turn. */
  method ReplacePresetVariables(template: string, company: Option<CompanyNames>) returns (r: string)
    ensures r == PresetText(template, company)
  {
    if template == "" {
      return "";
    }
    var result := template;
    if company.Some? {
      var fantasy := OrEmpty(company.value.fantasyName);
      var social := OrEmpty(company.value.socialReason);
      result := ReplaceAllCI(result, "@nome_fantasia", fantasy);
      result := ReplaceAllCI(result, "@empresa", fantasy);
      result := ReplaceAllCI(result, "@razao_social", fantasy);
      result := ReplaceAllCI(result, "@empresa_npme", social);
    }
    r := Trim(result);
  }

  /** A template without any '@' is only trimmed, with or without a company. */
  lemma NoPlaceholderOnlyTrims(template: string, company: Option<CompanyNames>)
    requires '@' !in template
    ensures PresetText(template, company) == Trim(template)
  {
    if company.Some? {
      var fantasy := OrEmpty(company.value.fantasyName);
      var social := OrEmpty(company.value.socialReason);
      ReplaceNoAt(template, "@nome_fantasia", fantasy);
      ReplaceNoAt(template, "@empresa", fantasy);
      ReplaceNoAt(template, "@razao_social", fantasy);
      ReplaceNoAt(template, "@empresa_npme", social);
    }
  }

  /**
   * `@empresa` is replaced before `@empresa_npme` is looked for, so a
   * template spelling `@empresa_npme` (in any case) gets the fantasy name
   * followed by its own `_npme`, never the social reason.
   */
  lemma EmpresaNpmeGetsFantasyName(template: string, company: CompanyNames)
    requires Lower(template) == "@empresa_npme"
    requires '@' !in OrEmpty(company.fantasyName)
    ensures PresetText(template, Some(company)) == Trim(OrEmpty(company.fantasyName) + template[8..])
  {
    var fantasy := OrEmpty(company.fantasyName);
    var social := OrEmpty(company.socialReason);
    var tail := template[8..];
    var stepOne := ReplaceAllCI(template, "@nome_fantasia", fantasy);
    assert |template| == 13;
    assert stepOne == template;
    EmpresaStep(template, fantasy);
    var stepTwo := ReplaceAllCI(stepOne, "@empresa", fantasy);
    assert stepTwo == fantasy + tail;
    ReplaceNoAt(stepTwo, "@razao_social", fantasy);
    ReplaceNoAt(stepTwo, "@empresa_npme", social);
    assert template != "";
  }

  /** The `@empresa` step on a template spelling `@empresa_npme`: the name, then the untouched `_npme`. */
  lemma EmpresaStep(template: string, fantasy: string)
    requires Lower(template) == "@empresa_npme"
    requires '@' !in fantasy
    ensures |template| == 13
    ensures ReplaceAllCI(template, "@empresa", fantasy) == fantasy + template[8..]
    ensures '@' !in fantasy + template[8..]
  {
    var tail := template[8..];
    LowerSlice(template, 0, 8);
    ReplaceWholeMatch(template, "@empresa", fantasy, tail);
    assert ReplaceAllCI(tail, "@empresa", fantasy) == tail;
    LowerSlice(template, 8, 13);
    assert Lower(tail) == "_npme";
  }

  /** A string whose only '@' is its first character, when the pattern does not match there, comes back unchanged. */
  lemma LeadingAtNoMatch(s: string, pat: string, rep: string)
    requires |pat| > 0 && pat[0] == '@' && s != [] && '@' !in s[1..] && !MatchesHere(s, pat)
    ensures ReplaceAllCI(s, pat, rep) == s
  {
    if |s| >= |pat| {
      ReplaceNoAt(s[1..], pat, rep);
      assert [s[0]] + s[1..] == s;
    }
  }

  /** A template spelling the 13-character placeholder `word` has its only '@' in front. */
  lemma PlaceholderShape(template: string, word: string)
    requires Lower(template) == word && |word| == 13 && word[0] == '@' && '@' !in word[1..]
    ensures |template| == 13 && template != [] && '@' !in template[1..]
  {
    forall i | 1 <= i < |template| ensures template[i] != '@' {
      assert Lower(template)[i] == word[1..][i - 1];
    }
  }

  /** No placeholder other than the one spelt matches at the front of a 13-character placeholder. */
  lemma OtherPlaceholderMisses(template: string, word: string, pat: string)
    requires Lower(template) == word && |word| == 13 && |pat| <= 13 && word[..|pat|] != pat
    ensures !MatchesHere(template, pat)
  {
    LowerSlice(template, 0, |pat|);
  }

  /**
   * As written, `@razao_social` is replaced by the fantasy name: a template
   * spelling it (in any case) becomes the trade name, not the legal name.
   */
  lemma RazaoSocialGetsFantasyName(template: string, company: CompanyNames)
    requires Lower(template) == "@razao_social"
    requires '@' !in OrEmpty(company.fantasyName)
    ensures PresetText(template, Some(company)) == Trim(OrEmpty(company.fantasyName))
  {
    var fantasy := OrEmpty(company.fantasyName);
    var social := OrEmpty(company.socialReason);
    PlaceholderShape(template, "@razao_social");
    var stepOne := ReplaceAllCI(template, "@nome_fantasia", fantasy);
    assert stepOne == template;
    OtherPlaceholderMisses(template, "@razao_social", "@empresa");
    LeadingAtNoMatch(template, "@empresa", fantasy);
    var stepTwo := ReplaceAllCI(stepOne, "@empresa", fantasy);
    assert stepTwo == template;
    RazaoSocialStep(template, fantasy);
    var stepThree := ReplaceAllCI(stepTwo, "@razao_social", fantasy);
    assert stepThree == fantasy;
    ReplaceNoAt(fantasy, "@empresa_npme", social);
    assert template != "";
  }

  /** A template spelling `@razao_social` is one whole match of it. */
  lemma RazaoSocialStep(template: string, rep: string)
    requires Lower(template) == "@razao_social"
    ensures ReplaceAllCI(template, "@razao_social", rep) == rep
  {
    PlaceholderShape(template, "@razao_social");
    LowerSlice(template, 0, 13);
    assert template[..13] == template;
    ReplaceWholeMatch(template, "@razao_social", rep, template[13..]);
    assert template[13..] == [];
  }

  /**
   * `replacePresetVariables` with the evident intent: `@razao_social` gives
   * the legal name, and `@empresa_npme` is replaced before `@empresa` so
   * that it can still be found.
   */
  function PresetTextCorrected(template: string, company: Option<CompanyNames>): (r: string)
    ensures template == "" ==> r == ""
    ensures company.None? ==> r == Trim(template)
    ensures r == [] || (!IsSpace(r[0]) && !IsSpace(r[|r| - 1]))
  {
    if template == "" then ""
    else
      var result :=
        if company.None? then template
        else
          var fantasy := OrEmpty(company.value.fantasyName);
          var social := OrEmpty(company.value.socialReason);
          ReplaceAllCI(ReplaceAllCI(ReplaceAllCI(ReplaceAllCI(template, "@nome_fantasia", fantasy),
            "@empresa_npme", social), "@empresa", fantasy), "@razao_social", social);
      TrimmedEnds(result);
      Trim(result)
  }

  /** With the intended order, `@empresa_npme` gives the legal name. */
  lemma CorrectedEmpresaNpmeGetsSocialReason(template: string, company: CompanyNames)
    requires Lower(template) == "@empresa_npme"
    requires '@' !in OrEmpty(company.socialReason)
    ensures PresetTextCorrected(template, Some(company)) == Trim(OrEmpty(company.socialReason))
  {
    var fantasy := OrEmpty(company.fantasyName);
    var social := OrEmpty(company.socialReason);
    PlaceholderShape(template, "@empresa_npme");
    var stepOne := ReplaceAllCI(template, "@nome_fantasia", fantasy);
    assert stepOne == template;
    EmpresaNpmeStep(template, social);
    var stepTwo := ReplaceAllCI(stepOne, "@empresa_npme", social);
    assert stepTwo == social;
    ReplaceNoAt(social, "@empresa", fantasy);
    ReplaceNoAt(social, "@razao_social", social);
    assert template != "";
  }

  /** A template spelling `@empresa_npme` is one whole match of it. */
  lemma EmpresaNpmeStep(template: string, rep: string)
    requires Lower(template) == "@empresa_npme"
    ensures ReplaceAllCI(template, "@empresa_npme", rep) == rep
  {
    PlaceholderShape(template, "@empresa_npme");
    LowerSlice(template, 0, 13);
    assert template[..13] == template;
    ReplaceWholeMatch(template, "@empresa_npme", rep, template[13..]);
    assert template[13..] == [];
  }

  /** The first three corrected replacements leave a template spelling `@razao_social` alone. */
  lemma RazaoSocialSurvivesCorrectedSteps(template: string, fantasy: string, social: string)
    requires Lower(template) == "@razao_social"
    ensures ReplaceAllCI(ReplaceAllCI(ReplaceAllCI(template, "@nome_fantasia", fantasy),
      "@empresa_npme", social), "@empresa", fantasy) == template
  {
    PlaceholderShape(template, "@razao_social");
    assert ReplaceAllCI(template, "@nome_fantasia", fantasy) == template;
    OtherPlaceholderMisses(template, "@razao_social", "@empresa_npme");
    LeadingAtNoMatch(template, "@empresa_npme", social);
    OtherPlaceholderMisses(template, "@razao_social", "@empresa");
    LeadingAtNoMatch(template, "@empresa", fantasy);
  }

  /** With the intended mapping, `@razao_social` gives the legal name. */
  lemma CorrectedRazaoSocialGetsSocialReason(template: string, company: CompanyNames)
    requires Lower(template) == "@razao_social"
    requires '@' !in OrEmpty(company.socialReason)
    ensures PresetTextCorrected(template, Some(company)) == Trim(OrEmpty(company.socialReason))
  {
    var fantasy := OrEmpty(company.fantasyName);
    var social := OrEmpty(company.socialReason);
    RazaoSocialSurvivesCorrectedSteps(template, fantasy, social);
    RazaoSocialStep(template, social);
    assert |template| == 13;
  }

  /** `applyPresetToTitle`: '' without a preset or description, else the description with the company's names. */
  function ApplyPresetToTitle(preset: Option<Preset>, company: Option<CompanyNames>): (r: string)
    ensures preset.None? || !Truthy(preset.value.description) ==> r == ""
    ensures preset.Some? && Truthy(preset.value.description) ==>
      r == PresetText(preset.value.description.value, company)
    ensures r == [] || (!IsSpace(r[0]) && !IsSpace(r[|r| - 1]))
  {
    if preset.None? || !Truthy(preset.value.description) then ""
    else PresetText(preset.value.description.value, company)
  }
}
