/** Version normalization of the release gate: mapping first, then the default form. */
module VersionTemplate {
  import opened Common
  import opened Templates

  /** The outcome of compiling a pattern and matching it: None when the pattern is invalid or does
      not match, otherwise the whole match followed by the capture groups. */
  type Regex = (string, string) -> Option<seq<string>>

  datatype VersionMapping = VersionMapping(pattern: string, template: string)

  // ---- the default form -------------------------------------------------------------------

  function LowerChar(c: char): char {
    if 'A' <= c <= 'Z' then ((c as int) + 32) as char else c
  }

  /** strings.ToLower and SQL LOWER on ASCII text. */
  function ToLower(s: string): (r: string)
    ensures |r| == |s| && forall i :: 0 <= i < |s| ==> r[i] == LowerChar(s[i])
  {
    seq(|s|, i requires 0 <= i < |s| => LowerChar(s[i]))
  }

  function TrimPrefix(s: string, c: char): string {
    if s != [] && s[0] == c then s[1..] else s
  }

  function NormalizeDefault(raw: string): string {
    ToLower(TrimPrefix(TrimPrefix(raw, 'v'), 'V'))
  }

  /** SQL TRIM(LEADING c FROM s) removes every leading c. */
  function TrimLeading(s: string, c: char): (r: string)
    ensures |r| <= |s|
  {
    if s != [] && s[0] == c then TrimLeading(s[1..], c) else s
  }

  function SqlNormalize(raw: string): string {
    ToLower(TrimLeading(TrimLeading(raw, 'V'), 'v'))
  }

  predicate IsV(c: char) { c == 'v' || c == 'V' }

  predicate StartsWithTwoVs(s: string) { |s| >= 2 && IsV(s[0]) && IsV(s[1]) }

  /** TrimLeading stops at once when the first character differs, and otherwise goes on behind it. */
  lemma TrimLeadingStep(s: string, c: char)
    ensures s == [] || s[0] != c ==> TrimLeading(s, c) == s
    ensures s != [] && s[0] == c ==> TrimLeading(s, c) == TrimLeading(s[1..], c) && |TrimLeading(s, c)| < |s|
  {
  }

  lemma StrippedForms(raw: string)
    ensures var go, sql := TrimPrefix(TrimPrefix(raw, 'v'), 'V'), TrimLeading(TrimLeading(raw, 'V'), 'v');
            if StartsWithTwoVs(raw) then |go| != |sql| else go == sql
  {
    TrimLeadingStep(raw, 'V');
    if raw == [] || !IsV(raw[0]) {
      TrimLeadingStep(raw, 'v');
    } else if raw[0] == 'V' {
      TrimLeadingStep(raw[1..], 'V');
      TrimLeadingStep(raw[1..], 'v');
    } else {
      TrimLeadingStep(raw, 'v');
      TrimLeadingStep(raw[1..], 'v');
    }
  }

  /** The Go default form and the SQL form agree on exactly the versions that do not start with two
      v/V letters. */
  lemma GoMatchesSqlIff(raw: string)
    ensures NormalizeDefault(raw) == SqlNormalize(raw) <==> !StartsWithTwoVs(raw)
  {
    StrippedForms(raw);
    var go, sql := TrimPrefix(TrimPrefix(raw, 'v'), 'V'), TrimLeading(TrimLeading(raw, 'V'), 'v');
    assert |ToLower(go)| == |go| && |ToLower(sql)| == |sql|;
  }

  /** What the default form strips never leaves a v/V in front, except for these versions. */
  predicate Restrippable(raw: string) {
    StartsWithTwoVs(raw) && !(raw[0] == 'v' && raw[1] == 'V' && (|raw| == 2 || !IsV(raw[2])))
  }

  /** The default form is idempotent on exactly the versions that are not restrippable; in particular
      on every version that does not start with two v/V letters. */
  lemma IdempotentIff(raw: string)
    ensures NormalizeDefault(NormalizeDefault(raw)) == NormalizeDefault(raw) <==> !Restrippable(raw)
    ensures !StartsWithTwoVs(raw) ==> NormalizeDefault(NormalizeDefault(raw)) == NormalizeDefault(raw)
  {
    var n := NormalizeDefault(raw);
    var stripped := TrimPrefix(TrimPrefix(raw, 'v'), 'V');
    if Restrippable(raw) {
      assert IsV(stripped[0]) && n[0] == 'v';
      assert |NormalizeDefault(n)| < |n|;
    } else {
      assert n == [] || n[0] != 'v';
      assert forall i :: 0 <= i < |n| ==> LowerChar(n[i]) == n[i];
      assert n == [] || n[0] != 'V';
      assert NormalizeDefault(n) == ToLower(n) == n;
    }
  }

  /** The agent links a listed release to the semantic release of a target version when their
      default forms agree (internal/agent/orchestrator.go). */
  predicate Linked(release: string, target: string) {
    NormalizeDefault(release) == NormalizeDefault(target)
  }

  /** Take a gate row whose version is the default form of some raw version. Every listed release that
      normalizes to that row is linked to the row's semantic release, exactly when the raw version
      is not restrippable. */
  lemma LinkedIff(raw: string, release: string)
    requires NormalizeDefault(release) == NormalizeDefault(raw)
    ensures Linked(release, NormalizeDefault(raw)) <==> !Restrippable(raw)
  {
    IdempotentIff(raw);
  }

  // ---- the whole normalization ------------------------------------------------------------

  function NormalizeVersion(raw: string, mapping: Option<VersionMapping>, regex: Regex): string {
    if mapping.Some? && mapping.value.pattern != "" then
      var m := regex(mapping.value.pattern, raw);
      if m.Some? && |m.value| > 1 then
        var result := ReplaceFrom(mapping.value.template, m.value, 1);
        if result != "" then result else NormalizeDefault(raw)
      else NormalizeDefault(raw)
    else NormalizeDefault(raw)
  }

  function NormalizeVersionForSource(raw: string, source: string, mappings: map<string, VersionMapping>,
      regex: Regex): string {
    NormalizeVersion(raw, if source in mappings then Some(mappings[source]) else None, regex)
  }

  // ---- what it means -----------------------------------------------------------------------

  /** v is what raw holds behind its first `from` characters, in lower case. */
  ghost predicate LoweredFrom(raw: string, from: nat, v: string)
    requires from <= |raw|
  {
    |v| == |raw| - from && forall i :: 0 <= i < |v| ==>
      if 'A' <= raw[from + i] <= 'Z' then v[i] as int == raw[from + i] as int + 32 else v[i] == raw[from + i]
  }

  /** v is raw without one leading v, then without one leading V, and in lower case. */
  ghost predicate DefaultFormIs(raw: string, v: string) {
    var skip := if raw != [] && raw[0] == 'v' then 1 else 0;
    var from := if |raw| > skip && raw[skip] == 'V' then skip + 1 else skip;
    LoweredFrom(raw, from, v)
  }

  /** v is the version of the row a release goes to. A mapping of this source whose pattern matches with at
      least one group fills its template: all placeholders at once, if the captures hold no dollar and the
      template is unambiguous, and else one after the other. In every other case, and when nothing is left of
      the template, v is the default form. */
  ghost predicate NormalFormIs(raw: string, source: string, mappings: map<string, VersionMapping>, regex: Regex,
      v: string)
  {
    if source in mappings && mappings[source].pattern != "" && regex(mappings[source].pattern, raw).Some?
       && |regex(mappings[source].pattern, raw).value| > 1
    then
      var template, captures := mappings[source].template, regex(mappings[source].pattern, raw).value;
      var filled := if DollarFreeGroups(captures) && Unambiguous(template, |captures| - 1)
                    then Substitute(template, captures, |captures|) else ReplaceFrom(template, captures, 1);
      if filled != "" then v == filled else DefaultFormIs(raw, v)
    else DefaultFormIs(raw, v)
  }

  lemma DefaultFormIff(raw: string, v: string)
    ensures DefaultFormIs(raw, v) <==> v == NormalizeDefault(raw)
  {
    var skip := if raw != [] && raw[0] == 'v' then 1 else 0;
    var from := if |raw| > skip && raw[skip] == 'V' then skip + 1 else skip;
    assert TrimPrefix(TrimPrefix(raw, 'v'), 'V') == raw[from..];
    LowerIff(raw, from, v);
  }

  lemma LowerIff(raw: string, from: nat, v: string)
    requires from <= |raw|
    ensures v == ToLower(raw[from..]) <==> LoweredFrom(raw, from, v)
  {
    var n := ToLower(raw[from..]);
    forall i | 0 <= i < |n| && i < |v|
      ensures (if 'A' <= raw[from + i] <= 'Z' then v[i] as int == raw[from + i] as int + 32 else v[i] == raw[from + i])
              <==> v[i] == n[i]
    {
      assert n[i] == LowerChar(raw[from..][i]);
      LowerCharIff(raw[from + i], v[i]);
    }
  }

  lemma LowerCharIff(c: char, d: char)
    ensures (if 'A' <= c <= 'Z' then d as int == c as int + 32 else d == c) <==> d == LowerChar(c)
  {
  }

  /** The normalization gives each release the version NormalFormIs describes, and that determines it. */
  lemma NormalFormIff(raw: string, source: string, mappings: map<string, VersionMapping>, regex: Regex, v: string)
    ensures NormalFormIs(raw, source, mappings, regex, v)
            <==> v == NormalizeVersionForSource(raw, source, mappings, regex)
  {
    DefaultFormIff(raw, v);
    if source in mappings && mappings[source].pattern != "" {
      var m := regex(mappings[source].pattern, raw);
      if m.Some? && |m.value| > 1 { FilledByLoop(mappings[source].template, m.value); }
    }
  }

  lemma FilledByLoop(template: string, captures: seq<string>)
    requires |captures| >= 1
    ensures (if DollarFreeGroups(captures) && Unambiguous(template, |captures| - 1)
             then Substitute(template, captures, |captures|) else ReplaceFrom(template, captures, 1))
            == ReplaceFrom(template, captures, 1)
  {
    if DollarFreeGroups(captures) && Unambiguous(template, |captures| - 1) { LoopIsSimultaneous(template, captures); }
  }

  /** The mappings of other sources do not matter. */
  lemma OnlyOwnMapping(raw: string, source: string, mappings: map<string, VersionMapping>,
      others: map<string, VersionMapping>, regex: Regex)
    requires source in mappings <==> source in others
    requires source in mappings ==> mappings[source] == others[source]
    ensures NormalizeVersionForSource(raw, source, mappings, regex)
            == NormalizeVersionForSource(raw, source, others, regex)
  {
    NormalFormIff(raw, source, mappings, regex, NormalizeVersionForSource(raw, source, mappings, regex));
  }
}
