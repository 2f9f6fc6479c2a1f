/** Input validation and normalisation (app/utils/validation.py): allowlist
    filtering, length bounds and whitespace collapsing for the plant and city
    fields, control-character removal for the question, coercion of the
    care-context select, and HTML-escaped short display strings. */
module Validation {
  import opened Common
  import opened Text
  import Markup

  const MaxPlantLen: nat := 80
  const MaxCityLen: nat := 80
  const MaxQuestionLen: nat := 1200
  const MaxDisplayLen: nat := 240
  const Ellipsis: string := "…"

  const CareContextChoices: set<string> := {"indoor_potted", "outdoor_potted", "outdoor_bed"}
  const DefaultCareContext: string := "indoor_potted"

  const QuestionRequired: string := "Question is required and must be under 1200 characters."

  /** Characters `_SAFE_CHARS_PATTERN` lets through: ASCII letters and digits,
      whitespace, and `- . , ' ( ) / &`. */
  predicate SafeChar(c: char) {
    IsLetter(c) || IsDigit(c) || IsSpace(c) || c in "-.,'()/&"
  }

  /** The control characters the question filter removes. */
  predicate IsControl(c: char) {
    ('\0' <= c <= '\U{8}') || c == '\U{b}' || c == '\U{c}' || ('\U{e}' <= c <= '\U{1f}') || c == '\U{7f}'
  }

  /** The character runs that get collapsed: `\s{2,}` for names, `[ \t]{2,}`
      for the question. */
  datatype RunClass = AnySpace | SpaceOrTab {
    predicate Has(c: char) {
      match this
      case AnySpace => IsSpace(c)
      case SpaceOrTab => c == ' ' || c == '\t'
    }
  }

  /** The character sets the filters keep. */
  datatype CharSet = Safe | NotControl | OutsideRun(run: RunClass) | SafeVisible | NotControlVisible {
    predicate Admits(c: char) {
      match this
      case Safe => SafeChar(c)
      case NotControl => !IsControl(c)
      case OutsideRun(k) => !k.Has(c)
      case SafeVisible => SafeChar(c) && !IsSpace(c)
      case NotControlVisible => !IsControl(c) && !SpaceOrTab.Has(c)
    }
  }

  /** Removing every character outside `cs` (a regex `sub` with ""). */
  function Filter(s: string, cs: CharSet): (r: string)
    ensures |r| <= |s|
    ensures forall i :: 0 <= i < |r| ==> cs.Admits(r[i])
    decreases |s|
  {
    if |s| == 0 then "" else (if cs.Admits(s[0]) then [s[0]] else "") + Filter(s[1..], cs)
  }

  lemma {:induction false} FilterAppend(a: string, b: string, cs: CharSet)
    ensures Filter(a + b, cs) == Filter(a, cs) + Filter(b, cs)
    decreases |a|
  {
    if |a| > 0 {
      assert (a + b)[1..] == a[1..] + b;
      FilterAppend(a[1..], b, cs);
    } else {
      assert a + b == b;
    }
  }

  /** A string made only of admitted characters passes the filter unchanged. */
  lemma {:induction false} FilterKeepsAdmitted(s: string, cs: CharSet)
    requires forall i :: 0 <= i < |s| ==> cs.Admits(s[i])
    ensures Filter(s, cs) == s
    decreases |s|
  {
    if |s| > 0 {
      FilterKeepsAdmitted(s[1..], cs);
      assert [s[0]] + s[1..] == s;
    }
  }

  /** Filtering twice is filtering by both sets at once. */
  lemma {:induction false} FilterTwice(s: string, first: CharSet, second: CharSet, both: CharSet)
    requires forall c: char :: both.Admits(c) <==> first.Admits(c) && second.Admits(c)
    ensures Filter(Filter(s, first), second) == Filter(s, both)
    decreases |s|
  {
    if |s| > 0 {
      var head := if first.Admits(s[0]) then [s[0]] else "";
      FilterAppend(head, Filter(s[1..], first), second);
      FilterTwice(s[1..], first, second, both);
      if first.Admits(s[0]) {
        assert Filter(head, second) == Filter([s[0]][1..], second) + (if second.Admits(s[0]) then [s[0]] else "");
      }
    }
  }

  // ---------------------------------------------------------------------
  // run collapsing

  /** Length of the run of `k` characters at the front of `s`. */
  function LeadingRun(s: string, k: RunClass): (n: nat)
    ensures n <= |s|
    ensures forall i :: 0 <= i < n ==> k.Has(s[i])
    ensures n < |s| ==> !k.Has(s[n])
    decreases |s|
  {
    if |s| > 0 && k.Has(s[0]) then 1 + LeadingRun(s[1..], k) else 0
  }

  /** No two adjacent characters both belong to the run class. */
  predicate NoDoubleRun(s: string, k: RunClass)
    decreases |s|
  {
    |s| < 2 || (!(k.Has(s[0]) && k.Has(s[1])) && NoDoubleRun(s[1..], k))
  }

  /** `re.sub(<run>{2,}, " ", s)`: each maximal run of two or more class
      characters becomes one space; single class characters stay as they are. */
  function Collapse(s: string, k: RunClass): (r: string)
    ensures |r| <= |s|
    ensures |r| > 0 <==> |s| > 0
    ensures |r| > 0 ==> (k.Has(r[0]) <==> k.Has(s[0]))
    ensures NoDoubleRun(r, k)
    decreases |s|
  {
    if |s| == 0 then ""
    else
      var n := LeadingRun(s, k);
      if n >= 2 then " " + Collapse(s[n..], k)
      else [s[0]] + Collapse(s[1..], k)
  }

  /** Collapsing never changes the characters outside the run class, nor their
      order: only runs are shortened. */
  lemma {:induction false} CollapseKeepsVisible(s: string, k: RunClass)
    ensures Filter(Collapse(s, k), OutsideRun(k)) == Filter(s, OutsideRun(k))
    decreases |s|
  {
    if |s| > 0 {
      var n := LeadingRun(s, k);
      if n >= 2 {
        CollapseKeepsVisible(s[n..], k);
        RunStepKeepsVisible(s, k, n);
      } else {
        CollapseKeepsVisible(s[1..], k);
        OneStepKeepsVisible(s, k);
      }
    }
  }

  /** A run of two or more becomes one space, which the filter drops just as
      it drops the run. */
  lemma RunStepKeepsVisible(s: string, k: RunClass, n: nat)
    requires |s| > 0 && n == LeadingRun(s, k) && n >= 2
    requires Filter(Collapse(s[n..], k), OutsideRun(k)) == Filter(s[n..], OutsideRun(k))
    ensures Filter(Collapse(s, k), OutsideRun(k)) == Filter(s, OutsideRun(k))
  {
    var rest := Collapse(s[n..], k);
    assert Collapse(s, k) == " " + rest;
    SpaceFiltersAway(rest, k);
    RunPrefixFiltersAway(s, k, n);
  }

  /** The space a run becomes is dropped by the filter. */
  lemma SpaceFiltersAway(t: string, k: RunClass)
    ensures Filter(" " + t, OutsideRun(k)) == Filter(t, OutsideRun(k))
  {
    assert k.Has(' ');
    assert (" " + t)[1..] == t;
  }

  /** A leading run is dropped by the filter. */
  lemma RunPrefixFiltersAway(s: string, k: RunClass, n: nat)
    requires n <= |s|
    requires forall i :: 0 <= i < n ==> k.Has(s[i])
    ensures Filter(s, OutsideRun(k)) == Filter(s[n..], OutsideRun(k))
  {
    var run, after := s[..n], s[n..];
    forall i | 0 <= i < |run| ensures k.Has(run[i]) {
      assert run[i] == s[i];
    }
    RunFiltersAway(run, k);
    FilterAppend(run, after, OutsideRun(k));
    assert run + after == s;
  }

  /** A character that does not start a long run is kept as it is. */
  lemma OneStepKeepsVisible(s: string, k: RunClass)
    requires |s| > 0 && LeadingRun(s, k) < 2
    requires Filter(Collapse(s[1..], k), OutsideRun(k)) == Filter(s[1..], OutsideRun(k))
    ensures Filter(Collapse(s, k), OutsideRun(k)) == Filter(s, OutsideRun(k))
  {
    var rest := Collapse(s[1..], k);
    assert Collapse(s, k) == [s[0]] + rest;
    FilterAppend([s[0]], rest, OutsideRun(k));
    FilterAppend([s[0]], s[1..], OutsideRun(k));
    assert [s[0]] + s[1..] == s;
  }

  lemma {:induction false} RunFiltersAway(s: string, k: RunClass)
    requires forall i :: 0 <= i < |s| ==> k.Has(s[i])
    ensures Filter(s, OutsideRun(k)) == ""
    decreases |s|
  {
    if |s| > 0 {
      RunFiltersAway(s[1..], k);
    }
  }

  /** Every character of the collapsed text is a space or comes from the
      input. */
  lemma {:induction false} CollapseChars(s: string, k: RunClass)
    ensures forall i :: 0 <= i < |Collapse(s, k)| ==> Collapse(s, k)[i] == ' ' || Collapse(s, k)[i] in s
    decreases |s|
  {
    if |s| > 0 {
      var n := LeadingRun(s, k);
      var rest := if n >= 2 then s[n..] else s[1..];
      CollapseChars(rest, k);
      forall c | c in rest ensures c in s {
        var j :| 0 <= j < |rest| && rest[j] == c;
        assert s[|s| - |rest| + j] == c;
      }
    }
  }

  /** Text without doubled runs is left unchanged. */
  lemma {:induction false} CollapseNoop(s: string, k: RunClass)
    requires NoDoubleRun(s, k)
    ensures Collapse(s, k) == s
    decreases |s|
  {
    if |s| > 0 {
      assert LeadingRun(s, k) <= 1 by {
        if |s| > 1 && k.Has(s[0]) {
          assert LeadingRun(s[1..], k) == 0;
        }
      }
      CollapseNoop(s[1..], k);
      assert [s[0]] + s[1..] == s;
    }
  }

  /** Collapsing is idempotent. */
  lemma CollapseIdempotent(s: string, k: RunClass)
    ensures Collapse(Collapse(s, k), k) == Collapse(s, k)
  {
    CollapseNoop(Collapse(s, k), k);
  }

  // ---------------------------------------------------------------------
  // the field sanitisers

  /** `t[:max_len]`. */
  function Take(s: string, n: nat): string {
    if n < |s| then s[..n] else s
  }

  /** `_soft_sanitize`: strip, cut to `maxLen`, drop characters outside the
      allowlist, collapse whitespace runs. */
  function SoftSanitize(text: string, maxLen: nat): (r: string)
    ensures |r| <= maxLen
    ensures forall i :: 0 <= i < |r| ==> SafeChar(r[i])
    ensures NoDoubleRun(r, AnySpace)
    ensures Strip(text) == "" ==> r == ""
  {
    var t := Strip(text);
    if t == "" then ""
    else
      var u := Filter(Take(t, maxLen), Safe);
      CollapseChars(u, AnySpace);
      Collapse(u, AnySpace)
  }

  /** What survives `_soft_sanitize`: exactly the allowlisted, non-whitespace
      characters of the stripped and cut input, in their original order. */
  lemma SoftSanitizeKeeps(text: string, maxLen: nat)
    ensures Filter(SoftSanitize(text, maxLen), OutsideRun(AnySpace))
         == Filter(Take(Strip(text), maxLen), SafeVisible)
  {
    var t := Take(Strip(text), maxLen);
    if Strip(text) != "" {
      CollapseKeepsVisible(Filter(t, Safe), AnySpace);
      FilterTwice(t, Safe, OutsideRun(AnySpace), SafeVisible);
    }
  }

  /** `_soft_sanitize_question`: strip, cut to `maxLen`, drop control
      characters, collapse runs of spaces and tabs. */
  function SoftSanitizeQuestion(text: string, maxLen: nat): (r: string)
    ensures |r| <= maxLen
    ensures forall i :: 0 <= i < |r| ==> !IsControl(r[i])
    ensures NoDoubleRun(r, SpaceOrTab)
    ensures Strip(text) == "" ==> r == ""
  {
    var t := Strip(text);
    if t == "" then ""
    else
      var u := Filter(Take(t, maxLen), NotControl);
      var r := Collapse(u, SpaceOrTab);
      CollapseChars(u, SpaceOrTab);
      r
  }

  /** What survives `_soft_sanitize_question`: exactly the non-control
      characters other than spaces and tabs, in their original order. */
  lemma SoftSanitizeQuestionKeeps(text: string, maxLen: nat)
    ensures Filter(SoftSanitizeQuestion(text, maxLen), OutsideRun(SpaceOrTab))
         == Filter(Take(Strip(text), maxLen), NotControlVisible)
  {
    var t := Take(Strip(text), maxLen);
    if Strip(text) != "" {
      CollapseKeepsVisible(Filter(t, NotControl), SpaceOrTab);
      FilterTwice(t, NotControl, OutsideRun(SpaceOrTab), NotControlVisible);
    }
  }

  /** `normalize_context`: the trimmed, lower-cased value when it is one of
      the three choices, the default otherwise. */
  function NormalizeContext(value: Option<string>): (r: string)
    ensures r in CareContextChoices
    ensures Lower(Strip(value.GetOr(""))) in CareContextChoices ==> r == Lower(Strip(value.GetOr("")))
    ensures Lower(Strip(value.GetOr(""))) !in CareContextChoices ==> r == DefaultCareContext
  {
    var v := Lower(Strip(value.GetOr("")));
    if v in CareContextChoices then v else DefaultCareContext
  }

  /** Normalising an already normalised value changes nothing. */
  lemma NormalizeContextIdempotent(value: Option<string>)
    ensures NormalizeContext(Some(NormalizeContext(value))) == NormalizeContext(value)
  {
    ChoiceIsNormal(NormalizeContext(value));
  }

  /** Each choice is already trimmed and lower-case. */
  lemma ChoiceIsNormal(c: string)
    requires c in CareContextChoices
    ensures Lower(Strip(c)) == c
  {
    IndoorPottedIsNormal();
    OutdoorPottedIsNormal();
    OutdoorBedIsNormal();
  }

  lemma IndoorPottedIsNormal()
    ensures Lower(Strip("indoor_potted")) == "indoor_potted"
  {
    WordIsNormal("indoor_potted");
  }

  lemma OutdoorPottedIsNormal()
    ensures Lower(Strip("outdoor_potted")) == "outdoor_potted"
  {
    WordIsNormal("outdoor_potted");
  }

  lemma OutdoorBedIsNormal()
    ensures Lower(Strip("outdoor_bed")) == "outdoor_bed"
  {
    WordIsNormal("outdoor_bed");
  }

  /** Lower-case ASCII letters and underscores. */
  predicate LowerWord(s: string) {
    |s| == 0 || (('a' <= s[0] <= 'z' || s[0] == '_') && LowerWord(s[1..]))
  }

  lemma {:induction false} WordIsNormal(s: string)
    requires LowerWord(s)
    ensures Lower(Strip(s)) == s
  {
    WordChars(s);
    StripNoop(s);
    assert Lower(s) == s;
  }

  lemma {:induction false} WordChars(s: string)
    requires LowerWord(s)
    ensures forall i :: 0 <= i < |s| ==> 'a' <= s[i] <= 'z' || s[i] == '_'
    decreases |s|
  {
    if |s| > 0 {
      WordChars(s[1..]);
      assert forall i :: 1 <= i < |s| ==> s[i] == s[1..][i - 1];
    }
  }

  /** `display_sanitize_short`: HTML-escaped, cut to 240 characters with an
      ellipsis when longer. */
  function DisplaySanitizeShort(text: string): (r: string)
    ensures text == "" ==> r == ""
    ensures '<' !in r && '>' !in r
    ensures |r| <= MaxDisplayLen + 1
    ensures |Markup.Escape(text, true)| > MaxDisplayLen <==> (|r| == MaxDisplayLen + 1 && r[MaxDisplayLen..] == Ellipsis)
    ensures |Markup.Escape(text, true)| > MaxDisplayLen ==> r[..MaxDisplayLen] == Markup.Escape(text, true)[..MaxDisplayLen]
  {
    if text == "" then ""
    else
      var t := Markup.Escape(text, true);
      if |t| > MaxDisplayLen then t[..MaxDisplayLen] + Ellipsis else t
  }

  /** A display string that was not cut unescapes back to the input. */
  lemma DisplaySanitizeShortRoundTrip(text: string)
    requires |Markup.Escape(text, true)| <= MaxDisplayLen
    ensures Markup.Unescape(DisplaySanitizeShort(text)) == text
  {
    Markup.UnescapeEscape(text, true);
  }

  /** A form field as `form.get(name, "")` reads it. */
  function Field(form: map<string, string>, name: string): string {
    if name in form then form[name] else ""
  }

  /** The payload of a valid form: the dictionary with the keys `plant`,
      `city`, `question` and `care_context`, one field per key. */
  datatype FormPayload = FormPayload(plant: string, city: string, question: string, careContext: string)

  /** The four sanitised fields: each text within its own limit and free of
      the characters its sanitiser removes, a blank field left empty, and the
      care context one of the allowed choices. */
  function Payload(form: map<string, string>): (p: FormPayload)
    ensures |p.plant| <= MaxPlantLen && |p.city| <= MaxCityLen && |p.question| <= MaxQuestionLen
    ensures forall i :: 0 <= i < |p.plant| ==> SafeChar(p.plant[i])
    ensures forall i :: 0 <= i < |p.city| ==> SafeChar(p.city[i])
    ensures forall i :: 0 <= i < |p.question| ==> !IsControl(p.question[i])
    ensures Strip(Field(form, "plant")) == "" ==> p.plant == ""
    ensures Strip(Field(form, "city")) == "" ==> p.city == ""
    ensures p.careContext in CareContextChoices
  {
    FormPayload(
      SoftSanitize(Field(form, "plant"), MaxPlantLen),
      SoftSanitize(Field(form, "city"), MaxCityLen),
      SoftSanitizeQuestion(Field(form, "question"), MaxQuestionLen),
      NormalizeContext(Some(Field(form, "care_context"))))
  }

  /** `validate_inputs`: an error and no payload (the source's empty
      dictionary) exactly when the sanitised question is empty; otherwise no
      error and the sanitised payload. */
  function ValidateInputs(form: map<string, string>): (out: (Option<FormPayload>, Option<string>))
    ensures out.1.Some? <==> SoftSanitizeQuestion(Field(form, "question"), MaxQuestionLen) == ""
    ensures out.1.Some? ==> out.0.None? && out.1.value == QuestionRequired
    ensures out.1.None? ==> out.0 == Some(Payload(form)) && out.0.value.question != ""
    ensures Strip(Field(form, "question")) == "" ==> out.1 == Some(QuestionRequired)
  {
    var question := SoftSanitizeQuestion(Field(form, "question"), MaxQuestionLen);
    if question == "" then (None, Some(QuestionRequired))
    else (Some(Payload(form)), None)
  }
}
