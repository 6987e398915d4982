/** Version parsing and the agent rules that depend on it. */
module AgentRules {
  import opened Common
  import opened Templates
  import opened VersionTemplate

  const MAX_INT64: int := 0x7FFF_FFFF_FFFF_FFFF
  const MAX_UINT64: int := 0xFFFF_FFFF_FFFF_FFFF

  // ---- strings and numbers -----------------------------------------------------------------------

  datatype Parsed = Value(n: nat) | BadSyntax | OutOfRange

  /** strconv.ParseUint in base 10: the first bad character or the first overflow decides. */
  function ParseUint(s: string, acc: nat): Parsed
    decreases |s|
  {
    if s == [] then Value(acc)
    else if !IsDigit(s[0]) then BadSyntax
    else if acc * 10 + DigitValue(s[0]) > MAX_UINT64 then OutOfRange
    else ParseUint(s[1..], acc * 10 + DigitValue(s[0]))
  }

  /** The value strconv.Atoi returns, its error ignored: 0 for bad syntax, the nearest int64 when out
      of range. */
  function Atoi(s: string): int {
    var signed := s != [] && (s[0] == '+' || s[0] == '-');
    var neg := signed && s[0] == '-';
    var body := if signed then s[1..] else s;
    if body == [] then 0
    else
      match ParseUint(body, 0)
      case BadSyntax => 0
      case OutOfRange => Clamp(neg, MAX_UINT64)
      case Value(n) => Clamp(neg, n)
  }

  /** The int64 nearest to n or, when negative, to -n. */
  function Clamp(neg: bool, n: int): int {
    if neg then (if n > MAX_INT64 + 1 then -MAX_INT64 - 1 else -n)
    else if n > MAX_INT64 then MAX_INT64 else n
  }

  /** strings.SplitN for a one-character separator. */
  function SplitN(s: string, sep: char, n: nat): (parts: seq<string>)
    requires n >= 1
    ensures 1 <= |parts| <= n
    decreases n
  {
    if n == 1 || sep !in s then [s]
    else
      var i := IndexOf(s, sep);
      [s[..i]] + SplitN(s[i + 1..], sep, n - 1)
  }

  function IndexOf(s: string, c: char): (i: nat)
    requires c in s
    ensures i < |s| && s[i] == c && c !in s[..i]
  {
    if s[0] == c then 0
    else
      var j := IndexOf(s[1..], c);
      assert s[..j + 1] == [s[0]] + s[1..][..j];
      j + 1
  }

  datatype Version = Version(major: int, minor: int, patch: int)

  function ParseVersion(raw: string): Version {
    var parts := SplitN(TrimPrefix(raw, 'v'), '.', 3);
    Version(Atoi(parts[0]),
            if |parts| >= 2 then Atoi(parts[1]) else 0,
            if |parts| >= 3 then Atoi(SplitN(parts[2], '-', 2)[0]) else 0)
  }

  // ---- parsing inverts printing ------------------------------------------------------------------

  ghost predicate AllDigits(s: string) { forall i :: 0 <= i < |s| ==> IsDigit(s[i]) }

  /** The value of digits read from left to right after a value acc. */
  function ValueFrom(s: string, acc: nat): (n: nat)
    requires AllDigits(s)
    ensures n >= acc
    decreases |s|
  {
    if s == [] then acc else ValueFrom(s[1..], acc * 10 + DigitValue(s[0]))
  }

  lemma {:induction false} ValueOfLast(s: string, c: char, acc: nat)
    requires AllDigits(s) && IsDigit(c)
    ensures AllDigits(s + [c]) && ValueFrom(s + [c], acc) == ValueFrom(s, acc) * 10 + DigitValue(c)
    decreases |s|
  {
    if s == [] {
      assert ([c])[1..] == [] && s + [c] == [c];
    } else {
      ValueOfLast(s[1..], c, acc * 10 + DigitValue(s[0]));
      assert (s + [c])[1..] == s[1..] + [c];
    }
  }

  lemma {:induction false} DecimalDigits(n: nat)
    ensures AllDigits(Decimal(n)) && ValueFrom(Decimal(n), 0) == n
    decreases n
  {
    if n < 10 {
      assert Decimal(n)[1..] == [];
    } else {
      DecimalDigits(n / 10);
      ValueOfLast(Decimal(n / 10), Digit(n % 10), 0);
    }
  }

  /** ParseUint reads any digits, unless their value is out of range. */
  lemma {:induction false} ScanDigits(s: string, acc: nat)
    requires AllDigits(s) && acc <= MAX_UINT64
    ensures ParseUint(s, acc) == if ValueFrom(s, acc) <= MAX_UINT64 then Value(ValueFrom(s, acc)) else OutOfRange
    decreases |s|
  {
    if s != [] {
      var next := acc * 10 + DigitValue(s[0]);
      if next <= MAX_UINT64 { ScanDigits(s[1..], next); } else { assert ValueFrom(s, acc) >= next; }
    }
  }

  /** The int64 nearest to a natural number. */
  function Nearest(n: nat): nat { if n > MAX_INT64 then MAX_INT64 else n }

  lemma AtoiInvertsDecimal(n: nat)
    ensures Atoi(Decimal(n)) == Nearest(n)
  {
    DecimalDigits(n);
    var s := Decimal(n);
    assert IsDigit(s[0]);
    ScanDigits(s, 0);
  }

  lemma {:induction false} IndexAfter(a: string, c: char, b: string)
    requires c !in a
    ensures c in a + [c] + b && IndexOf(a + [c] + b, c) == |a|
    decreases |a|
  {
    var s := a + [c] + b;
    assert s[|a|] == c;
    if a != [] {
      IndexAfter(a[1..], c, b);
      assert s[1..] == a[1..] + [c] + b;
      assert s[0] == a[0];
    }
  }

  lemma SplitAfter(a: string, c: char, b: string, n: nat)
    requires n >= 2 && c !in a
    ensures SplitN(a + [c] + b, c, n) == [a] + SplitN(b, c, n - 1)
  {
    var s := a + [c] + b;
    IndexAfter(a, c, b);
    assert s[..|a|] == a && s[|a| + 1..] == b;
  }

  lemma NotInDigits(s: string, c: char)
    requires AllDigits(s) && !IsDigit(c)
    ensures c !in s
  {
  }

  /** A version as it is printed: an optional v, three numbers, and a suffix. */
  function Print(v: bool, major: nat, minor: nat, patch: nat, suffix: string): string {
    (if v then ['v'] else []) + (Decimal(major) + ['.'] + (Decimal(minor) + ['.'] + (Decimal(patch) + suffix)))
  }

  lemma PatchPart(c: string, suffix: string)
    requires AllDigits(c) && (suffix == [] || suffix[0] == '-')
    ensures SplitN(c + suffix, '-', 2)[0] == c
  {
    NotInDigits(c, '-');
    if suffix == [] {
      assert c + suffix == c;
    } else {
      assert c + suffix == c + ['-'] + suffix[1..];
      SplitAfter(c, '-', suffix[1..], 2);
    }
  }

  lemma ThreeParts(a: string, b: string, rest: string)
    requires AllDigits(a) && AllDigits(b)
    ensures SplitN(a + ['.'] + (b + ['.'] + rest), '.', 3) == [a, b, rest]
  {
    NotInDigits(a, '.');
    NotInDigits(b, '.');
    SplitAfter(a, '.', b + ['.'] + rest, 3);
    SplitAfter(b, '.', rest, 2);
  }

  lemma OptionalV(v: bool, body: string)
    requires body != [] && IsDigit(body[0])
    ensures TrimPrefix((if v then ['v'] else []) + body, 'v') == body
  {
    assert [] + body == body && (['v'] + body)[1..] == body;
  }

  /** ParseVersion inverts printing: with or without a leading v, and for every suffix that is empty or
      starts with a dash. Numbers from 2^63 on are read as the largest int64. */
  lemma ParseInvertsPrint(v: bool, major: nat, minor: nat, patch: nat, suffix: string)
    requires suffix == [] || suffix[0] == '-'
    ensures ParseVersion(Print(v, major, minor, patch, suffix))
            == Version(Nearest(major), Nearest(minor), Nearest(patch))
  {
    var a, b, c := Decimal(major), Decimal(minor), Decimal(patch);
    DecimalDigits(major);
    DecimalDigits(minor);
    DecimalDigits(patch);
    var body := a + ['.'] + (b + ['.'] + (c + suffix));
    assert body[0] == a[0];
    OptionalV(v, body);
    ThreeParts(a, b, c + suffix);
    PatchPart(c, suffix);
    AtoiInvertsDecimal(major);
    AtoiInvertsDecimal(minor);
    AtoiInvertsDecimal(patch);
  }

  /** Below 2^63 the numbers come back exactly. */
  lemma ParseIsExact(v: bool, major: nat, minor: nat, patch: nat, suffix: string)
    requires (suffix == [] || suffix[0] == '-')
             && major < 0x8000_0000_0000_0000 && minor < 0x8000_0000_0000_0000 && patch < 0x8000_0000_0000_0000
    ensures ParseVersion(Print(v, major, minor, patch, suffix)) == Version(major, minor, patch)
  {
    ParseInvertsPrint(v, major, minor, patch, suffix);
  }

  /** Every number above the int64 range saturates instead of being rejected. */
  lemma HugeNumbersSaturate(n: nat)
    requires MAX_INT64 < n
    ensures Atoi(Decimal(n)) == MAX_INT64 == 9_223_372_036_854_775_807
  {
    AtoiInvertsDecimal(n);
  }

  // ---- the rules ---------------------------------------------------------------------------------

  datatype Rules = Rules(onMajor: bool, onMinor: bool, onSecurity: bool, pattern: string)

  predicate ContainsText(s: string, t: string) {
    t <= s || (s != [] && ContainsText(s[1..], t))
  }

  predicate IsSecurityPatch(version: string) {
    var lower := ToLower(version);
    ContainsText(lower, "security") || ContainsText(lower, "cve") || ContainsText(lower, "vuln")
  }

  predicate MajorFires(newV: string, oldV: string) {
    ParseVersion(newV).major > ParseVersion(oldV).major
  }

  predicate MinorFires(newV: string, oldV: string) {
    var n, o := ParseVersion(newV), ParseVersion(oldV);
    n.major > o.major || n.minor > o.minor
  }

  /** `matches` stands for regexp.MatchString; an invalid pattern does not match. */
  predicate CheckAgentRules(rules: Option<Rules>, newV: string, oldV: string, matches: (string, string) -> bool) {
    rules.Some? &&
    var r := rules.value;
    || (r.onMajor && MajorFires(newV, oldV))
    || (r.onMinor && MinorFires(newV, oldV))
    || (r.onSecurity && IsSecurityPatch(newV))
    || (r.pattern != "" && matches(r.pattern, newV))
  }

  /** (a1, a2) is lexicographically above (b1, b2). */
  predicate PairAbove(a1: int, a2: int, b1: int, b2: int) { a1 > b1 || (a1 == b1 && a2 > b2) }

  /** For printed versions the minor rule alone fires exactly when (major, minor) strictly increases, if
      and only if it is not a fall of the major number with a rise of the minor number. In particular it is
      exact whenever the new pair is not below the old one. Numbers count as the nearest int64. */
  lemma MinorRuleExactIff(v: bool, a1: nat, a2: nat, a3: nat, sa: string, w: bool, b1: nat, b2: nat, b3: nat,
      sb: string, matches: (string, string) -> bool)
    requires (sa == [] || sa[0] == '-') && (sb == [] || sb[0] == '-')
    ensures var fires := CheckAgentRules(Some(Rules(false, true, false, "")),
                                         Print(v, a1, a2, a3, sa), Print(w, b1, b2, b3, sb), matches);
      var x1, x2, y1, y2 := Nearest(a1), Nearest(a2), Nearest(b1), Nearest(b2);
      && ((fires <==> PairAbove(x1, x2, y1, y2)) <==> !(x1 < y1 && x2 > y2))
      && (!PairAbove(y1, y2, x1, x2) ==> (fires <==> PairAbove(x1, x2, y1, y2)))
  {
    ParseInvertsPrint(v, a1, a2, a3, sa);
    ParseInvertsPrint(w, b1, b2, b3, sb);
  }

  // ---- all the rules -----------------------------------------------------------------------------

  /** The word stands at i in s, in any mixture of cases. */
  ghost predicate MentionedAt(s: string, word: string, i: nat) {
    i + |word| <= |s| && forall j :: 0 <= j < |word| ==>
      word[j] == s[i + j] || ('A' <= s[i + j] <= 'Z' && word[j] as int == s[i + j] as int + 32)
  }

  ghost predicate Mentions(s: string, word: string) { exists i: nat :: MentionedAt(s, word, i) }

  ghost predicate StandsAt(s: string, t: string, i: nat) { i + |t| <= |s| && s[i..i + |t|] == t }

  lemma {:induction false} ContainsIff(s: string, t: string)
    ensures ContainsText(s, t) <==> exists i: nat :: StandsAt(s, t, i)
    decreases |s|
  {
    assert t <= s <==> StandsAt(s, t, 0);
    if s == [] {
      assert forall i: nat :: StandsAt(s, t, i) ==> t <= s;
    } else {
      ContainsIff(s[1..], t);
      forall i: nat ensures StandsAt(s[1..], t, i) <==> StandsAt(s, t, i + 1) {
        if i + |t| <= |s[1..]| { assert s[1..][i..i + |t|] == s[i + 1..i + 1 + |t|]; }
      }
      if i: nat :| StandsAt(s, t, i) {
        if i > 0 { assert StandsAt(s[1..], t, i - 1); }
      }
      if i: nat :| StandsAt(s[1..], t, i) { assert StandsAt(s, t, i + 1); }
    }
  }

  ghost predicate Lower(word: string) { forall j :: 0 <= j < |word| ==> 'a' <= word[j] <= 'z' }

  lemma MentionedIff(s: string, word: string, i: nat)
    requires Lower(word)
    ensures MentionedAt(s, word, i) <==> StandsAt(ToLower(s), word, i)
  {
    if i + |word| <= |s| {
      var part := ToLower(s)[i..i + |word|];
      forall j | 0 <= j < |word|
        ensures part[j] == word[j] <==>
                word[j] == s[i + j] || ('A' <= s[i + j] <= 'Z' && word[j] as int == s[i + j] as int + 32)
      {
        assert part[j] == LowerChar(s[i + j]);
        LowerCharIff(s[i + j], word[j]);
      }
    }
  }

  lemma MentionsIff(s: string, word: string)
    requires Lower(word)
    ensures Mentions(s, word) <==> ContainsText(ToLower(s), word)
  {
    ContainsIff(ToLower(s), word);
    forall i: nat ensures MentionedAt(s, word, i) <==> StandsAt(ToLower(s), word, i) { MentionedIff(s, word, i); }
  }

  lemma SecurityIff(version: string)
    ensures IsSecurityPatch(version) <==>
            Mentions(version, "security") || Mentions(version, "cve") || Mentions(version, "vuln")
  {
    MentionsIff(version, "security");
    MentionsIff(version, "cve");
    MentionsIff(version, "vuln");
  }

  /** When the rules fire for a printed version after another printed one. */
  lemma RulesIff(rules: Rules, v: bool, a1: nat, a2: nat, a3: nat, sa: string, w: bool, b1: nat, b2: nat, b3: nat,
      sb: string, matches: (string, string) -> bool)
    requires (sa == [] || sa[0] == '-') && (sb == [] || sb[0] == '-')
    ensures var newV, oldV := Print(v, a1, a2, a3, sa), Print(w, b1, b2, b3, sb);
      var x1, x2, y1, y2 := Nearest(a1), Nearest(a2), Nearest(b1), Nearest(b2);
      CheckAgentRules(Some(rules), newV, oldV, matches) <==>
        || (rules.onMajor && x1 > y1)
        || (rules.onMinor && (x1 > y1 || x2 > y2))
        || (rules.onSecurity && (Mentions(newV, "security") || Mentions(newV, "cve") || Mentions(newV, "vuln")))
        || (rules.pattern != "" && matches(rules.pattern, newV))
  {
    ParseInvertsPrint(v, a1, a2, a3, sa);
    ParseInvertsPrint(w, b1, b2, b3, sb);
    SecurityIff(Print(v, a1, a2, a3, sa));
  }

  lemma EmptyVersion()
    ensures ParseVersion("") == Version(0, 0, 0)
  {
    assert SplitN("", '.', 3) == [""] && Atoi("") == 0;
  }

  /** The same for the first version of a source, which is compared with the empty string. */
  lemma FirstRulesIff(rules: Rules, v: bool, a1: nat, a2: nat, a3: nat, sa: string,
      matches: (string, string) -> bool)
    requires sa == [] || sa[0] == '-'
    ensures var newV := Print(v, a1, a2, a3, sa);
      CheckAgentRules(Some(rules), newV, "", matches) <==>
        || (rules.onMajor && a1 > 0)
        || (rules.onMinor && (a1 > 0 || a2 > 0))
        || (rules.onSecurity && (Mentions(newV, "security") || Mentions(newV, "cve") || Mentions(newV, "vuln")))
        || (rules.pattern != "" && matches(rules.pattern, newV))
  {
    ParseInvertsPrint(v, a1, a2, a3, sa);
    SecurityIff(Print(v, a1, a2, a3, sa));
    EmptyVersion();
  }
}
