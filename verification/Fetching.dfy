/** Where the results of ingestion come from: strings decoded from JSON, release by release and tag by
    tag. What the decoder yields is always valid UTF-8, so fetched batches can be ingested again. */
module Fetching {
  import opened Common
  import opened Ingestion

  // ---- JSON strings ----------------------------------------------------------------------------

  type CodeUnit = u: nat | u < 0x1_0000

  /** A JSON string between its quotes: a character (as such or by a short escape), a backslash-u escape of
      one UTF-16 code unit, or a byte that is not valid UTF-8. */
  datatype Unit = Raw(c: char) | Escaped(u: CodeUnit) | Invalid(byte: nat)

  const REPLACEMENT: char := '\U{FFFD}'

  predicate IsHigh(u: CodeUnit) { 0xD800 <= u < 0xDC00 }

  predicate IsLow(u: CodeUnit) { 0xDC00 <= u < 0xE000 }

  function Combined(high: CodeUnit, low: CodeUnit): (c: char)
    requires IsHigh(high) && IsLow(low)
    ensures c as int >= 0x1_0000
  {
    (0x1_0000 + (high - 0xD800) * 0x400 + (low - 0xDC00)) as char
  }

  /** What encoding/json makes of it: invalid bytes and unpaired surrogates become U+FFFD. */
  function Unquote(us: seq<Unit>): Text
    decreases |us|
  {
    if us == [] then []
    else
      match us[0]
      case Raw(c) => [Valid(c)] + Unquote(us[1..])
      case Invalid(_) => [Valid(REPLACEMENT)] + Unquote(us[1..])
      case Escaped(u) =>
        if IsHigh(u) && |us| > 1 && us[1].Escaped? && IsLow(us[1].u)
            then [Valid(Combined(u, us[1].u))] + Unquote(us[2..])
        else if IsHigh(u) || IsLow(u) then [Valid(REPLACEMENT)] + Unquote(us[1..])
        else [Valid(u as char)] + Unquote(us[1..])
  }

  lemma {:induction false} DecodedIsUtf8(us: seq<Unit>)
    ensures Utf8(Unquote(us))
    decreases |us|
  {
    if us != [] {
      DecodedIsUtf8(us[1..]);
      if |us| > 1 { DecodedIsUtf8(us[2..]); }
    }
  }

  /** A character in UTF-16: one code unit, or a surrogate pair. */
  function Utf16(c: char): seq<CodeUnit> {
    var n := c as int;
    if n < 0x1_0000 then [n] else [0xD800 + (n - 0x1_0000) / 0x400, 0xDC00 + (n - 0x1_0000) % 0x400]
  }

  /** The text with every code unit written as an escape. */
  function EscapedText(s: string): seq<Unit> {
    if s == [] then []
    else
      var us := Utf16(s[0]);
      seq(|us|, i requires 0 <= i < |us| => Escaped(us[i])) + EscapedText(s[1..])
  }

  lemma UnquoteChar(c: char, rest: seq<Unit>)
    ensures var us := Utf16(c);
      Unquote(seq(|us|, i requires 0 <= i < |us| => Escaped(us[i])) + rest) == [Valid(c)] + Unquote(rest)
  {
    var us, n := Utf16(c), c as int;
    var units := seq(|us|, i requires 0 <= i < |us| => Escaped(us[i])) + rest;
    if n < 0x1_0000 {
      assert units[0] == Escaped(n) && units[1..] == rest;
      assert !IsHigh(n) && !IsLow(n);
    } else {
      var m := n - 0x1_0000;
      assert m == (m / 0x400) * 0x400 + m % 0x400 && m / 0x400 < 0x400;
      assert units[0] == Escaped(us[0]) && units[1] == Escaped(us[1]) && units[2..] == rest;
      assert IsHigh(us[0]) && IsLow(us[1]) && Combined(us[0], us[1]) == c;
    }
  }

  /** Any text comes back from its escapes, surrogate pairs included. */
  lemma {:induction false} UnquoteInvertsEscapes(s: string)
    ensures Unquote(EscapedText(s)) == TextOf(s)
  {
    if s != [] {
      UnquoteChar(s[0], EscapedText(s[1..]));
      UnquoteInvertsEscapes(s[1..]);
      assert TextOf(s) == [Valid(s[0])] + TextOf(s[1..]);
    }
  }

  function TextOf(s: string): Text { seq(|s|, i requires 0 <= i < |s| => Valid(s[i])) }

  function QuotedUnit(r: Rune): Unit {
    match r
    case Bad(_) => Escaped(0xFFFD)
    case Valid(c) =>
      if c == '<' || c == '>' || c == '&' || c == '\U{2028}' || c == '\U{2029}' then Escaped(c as int) else Raw(c)
  }

  /** json.Marshal of a Go string. */
  function Quote(t: Text): seq<Unit> {
    if t == [] then [] else [QuotedUnit(t[0])] + Quote(t[1..])
  }

  /** Reading back what was written gives Marshalled, and gives the text itself exactly when it was valid
      UTF-8. */
  lemma {:induction false} UnquoteInvertsQuote(t: Text)
    ensures Unquote(Quote(t)) == Marshalled(t)
    ensures Unquote(Quote(t)) == t <==> Utf8(t)
    decreases |t|
  {
    MarshalledIff(t);
    if t != [] {
      UnquoteInvertsQuote(t[1..]);
      QuotedRune(t[0], Quote(t[1..]));
      assert Marshalled(t) == Marshalled([t[0]]) + Marshalled(t[1..]);
      assert Quote(t) == [QuotedUnit(t[0])] + Quote(t[1..]);
    }
  }

  lemma QuotedRune(r: Rune, rest: seq<Unit>)
    ensures Unquote([QuotedUnit(r)] + rest) == Marshalled([r]) + Unquote(rest)
  {
    var us := [QuotedUnit(r)] + rest;
    assert us[0] == QuotedUnit(r) && us[1..] == rest;
  }

  // ---- fetched results -------------------------------------------------------------------------

  /** The changelog was decoded from a response, or the provider has none. */
  ghost predicate Fetched(r: Result) {
    exists us :: r.changelog == Unquote(us)
  }

  ghost predicate AllFetched(rs: seq<Result>) { forall i :: 0 <= i < |rs| ==> Fetched(rs[i]) }

  lemma FetchedIsClean(r: Result)
    requires Fetched(r)
    ensures Clean(r)
  {
    var us :| r.changelog == Unquote(us);
    DecodedIsUtf8(us);
  }

  /** Two passes over the beginnings of a fetched batch leave what the longer one leaves alone. */
  lemma TwoPasses(db: Db, source: string, rs: seq<Result>, n: nat, m: nat)
    requires DistinctVersions(rs) && AllFetched(rs) && n <= |rs| && m <= |rs|
    ensures IngestAll(IngestAll(db, source, rs[..n]), source, rs[..m])
            == IngestAll(db, source, rs[..if n <= m then m else n])
  {
    forall i | 0 <= i < |rs| ensures Clean(rs[i]) { FetchedIsClean(rs[i]); }
    if n <= m {
      assert rs[..m][..n] == rs[..n];
      PrefixAgain(db, source, rs[..m], n);
    } else {
      var db1 := IngestAll(db, source, rs[..n]);
      Settles(db, source, rs[..n]);
      assert Settled(db1, source, rs[..m]) by {
        assert forall i :: 0 <= i < m ==> rs[..m][i] == rs[..n][i];
      }
      SecondPass(db1, source, rs[..m]);
      NothingRenotifiedIff(source, rs[..m]);
      assert db1.ledger + [] == db1.ledger;
    }
  }

  /** Any number of passes over one batch, each with its own faults. */
  function Passes(db: Db, source: string, rs: seq<Result>, runs: seq<seq<Fault>>): Db
    requires forall f :: f in runs ==> |f| == |rs|
  {
    if runs == [] then db
    else Pass(Passes(db, source, rs, runs[..|runs| - 1]), source, rs, runs[|runs| - 1])
  }

  /** How far the pass got that got furthest. */
  function Furthest(rs: seq<Result>, runs: seq<seq<Fault>>): (n: nat)
    requires forall f :: f in runs ==> |f| == |rs|
    ensures n <= |rs|
  {
    if runs == [] then 0
    else
      var before, last := Furthest(rs, runs[..|runs| - 1]), Applied(rs, runs[|runs| - 1]);
      if before <= last then last else before
  }

  /** After any passes over a fetched batch, rows and jobs are those of a single pass as far as the furthest
      of them got, which is never beyond the first result the table cannot hold. */
  lemma {:induction false} FetchedPasses(db: Db, source: string, rs: seq<Result>, runs: seq<seq<Fault>>)
    requires DistinctVersions(rs) && AllFetched(rs) && forall f :: f in runs ==> |f| == |rs|
    ensures Passes(db, source, rs, runs) == IngestAll(db, source, rs[..Furthest(rs, runs)])
    ensures Furthest(rs, runs) <= Reach(rs)
    decreases |runs|
  {
    if runs != [] {
      var before, last := runs[..|runs| - 1], runs[|runs| - 1];
      FetchedPasses(db, source, rs, before);
      AppliedWithinReach(rs, last);
      TwoPasses(db, source, rs, Furthest(rs, before), Applied(rs, last));
    }
  }

  /** A fetched batch that meets any faults, any number of times, and is then run undisturbed leaves the same
      rows and the same jobs as one undisturbed pass. */
  lemma FetchedRerun(db: Db, source: string, rs: seq<Result>, runs: seq<seq<Fault>>)
    requires DistinctVersions(rs) && AllFetched(rs) && forall f :: f in runs ==> |f| == |rs|
    ensures Pass(Passes(db, source, rs, runs), source, rs, Undisturbed(rs)) == Pass(db, source, rs, Undisturbed(rs))
  {
    FetchedPasses(db, source, rs, runs);
    AppliedWithinReach(rs, Undisturbed(rs));
    TwoPasses(db, source, rs, Furthest(rs, runs), Reach(rs));
  }

  /** Fetching and ingesting again what an undisturbed pass has ingested changes nothing, no row and no job,
      however often it is done and wherever it fails. */
  lemma FetchedAgain(db: Db, source: string, rs: seq<Result>, runs: seq<seq<Fault>>)
    requires DistinctVersions(rs) && AllFetched(rs) && forall f :: f in runs ==> |f| == |rs|
    ensures var once := Pass(db, source, rs, Undisturbed(rs)); Passes(once, source, rs, runs) == once
  {
    var once := Pass(db, source, rs, Undisturbed(rs));
    FetchedPasses(once, source, rs, runs);
    AppliedWithinReach(rs, Undisturbed(rs));
    TwoPasses(db, source, rs, Reach(rs), Furthest(rs, runs));
  }

  // ---- releases and tags of a repository ---------------------------------------------------------

  datatype GhRelease = GhRelease(tagName: string, body: seq<Unit>, url: Text, draft: bool, prerelease: bool,
                                 publishedAt: int)

  datatype GhTag = GhTag(name: string, url: Text, committedAt: int)

  predicate Listed(rel: GhRelease) { !rel.draft && rel.tagName != "" }

  function OfRelease(rel: GhRelease): Result {
    Result(rel.tagName, Unquote(rel.body),
           map["release_url" := rel.url, "prerelease" := TextOf(if rel.prerelease then "true" else "false")],
           rel.publishedAt)
  }

  function OfTag(tag: GhTag): Result {
    Result(tag.name, [], map["release_url" := tag.url, "source_kind" := TextOf("tag")], tag.committedAt)
  }

  /** The provider lists no tag twice among its published releases. */
  ghost predicate DistinctTags(releases: seq<GhRelease>) {
    forall i, j :: 0 <= i < j < |releases| && Listed(releases[i]) && Listed(releases[j]) ==>
      releases[i].tagName != releases[j].tagName
  }

  /** The text is this string. */
  ghost predicate Reads(t: Text, s: string) { |t| == |s| && forall i :: 0 <= i < |s| ==> t[i] == Valid(s[i]) }

  /** r is what is ingested for a release: its tag, its decoded body, its page and pre-release flag, its date. */
  ghost predicate ResultOf(rel: GhRelease, r: Result) {
    && r.version == rel.tagName && r.changelog == Unquote(rel.body) && r.timestamp == rel.publishedAt
    && r.metadata.Keys == {"release_url", "prerelease"} && r.metadata["release_url"] == rel.url
    && Reads(r.metadata["prerelease"], if rel.prerelease then "true" else "false")
  }

  /** And for a tag: no changelog, its page and its kind, the date of its commit. */
  ghost predicate TagResultOf(tag: GhTag, r: Result) {
    && r.version == tag.name && r.changelog == [] && r.timestamp == tag.committedAt
    && r.metadata.Keys == {"release_url", "source_kind"} && r.metadata["release_url"] == tag.url
    && Reads(r.metadata["source_kind"], "tag")
  }

  /** The results are those of the releases at these positions, which are all that are published and have a
      tag, in the order of the list. */
  ghost predicate InOrder(results: seq<Result>, releases: seq<GhRelease>, at: seq<nat>) {
    && |at| == |results|
    && (forall i :: 0 <= i < |at| ==>
          at[i] < |releases| && !releases[at[i]].draft && releases[at[i]].tagName != ""
          && ResultOf(releases[at[i]], results[i]))
    && (forall i, j :: 0 <= i < j < |at| ==> at[i] < at[j])
    && (forall n :: 0 <= n < |releases| && !releases[n].draft && releases[n].tagName != "" ==> n in at)
  }

  lemma OneMoreRelease(results: seq<Result>, releases: seq<GhRelease>, i: nat, at: seq<nat>)
    requires i < |releases| && InOrder(results, releases[..i], at)
    ensures if releases[i].draft || releases[i].tagName == "" then InOrder(results, releases[..i + 1], at)
            else InOrder(results + [OfRelease(releases[i])], releases[..i + 1], at + [i])
  {
    assert forall n :: 0 <= n < i ==> releases[..i + 1][n] == releases[..i][n];
    assert releases[..i + 1][i] == releases[i];
  }

  /** Some published release has this tag. */
  ghost predicate Published(releases: seq<GhRelease>, v: string) {
    v != "" && exists n :: 0 <= n < |releases| && !releases[n].draft && releases[n].tagName == v
  }

  lemma OrderedIsFetched(results: seq<Result>, releases: seq<GhRelease>, at: seq<nat>)
    requires InOrder(results, releases, at)
    ensures AllFetched(results)
    ensures DistinctTags(releases) ==> DistinctVersions(results)
  {
    forall i | 0 <= i < |results| ensures Fetched(results[i]) {
      assert results[i].changelog == Unquote(releases[at[i]].body);
    }
    if DistinctTags(releases) {
      forall i, j | 0 <= i < j < |results| ensures results[i].version != results[j].version {
        assert Listed(releases[at[i]]) && Listed(releases[at[j]]);
      }
    }
  }

  lemma OrderedVersions(results: seq<Result>, releases: seq<GhRelease>, at: seq<nat>, v: string)
    requires InOrder(results, releases, at)
    ensures v in (set r | r in results :: r.version) <==> Published(releases, v)
  {
    var versions := set r | r in results :: r.version;
    if v in versions {
      var i :| 0 <= i < |results| && results[i].version == v;
      assert releases[at[i]].tagName == v;
    }
    if Published(releases, v) {
      var n :| 0 <= n < |releases| && !releases[n].draft && releases[n].tagName == v;
      var i :| 0 <= i < |at| && at[i] == n;
      assert results[i] in results && results[i].version == v;
    }
  }

  // ---- tags behind the releases ------------------------------------------------------------------

  ghost predicate Covers(more: seq<Result>, v: string) { exists i :: 0 <= i < |more| && more[i].version == v }

  /** The results are those of the tags at these positions: named, and not the tag of a published release. */
  ghost predicate OwnTags(more: seq<Result>, releases: seq<GhRelease>, tags: seq<GhTag>, at: seq<nat>) {
    |at| == |more| && forall i :: 0 <= i < |at| ==>
      at[i] < |tags| && tags[at[i]].name != "" && !Published(releases, tags[at[i]].name)
      && TagResultOf(tags[at[i]], more[i])
  }

  /** In the order of the list, and every name among the first n tags is covered by a release or by one of
      these. */
  ghost predicate TagsInOrder(more: seq<Result>, releases: seq<GhRelease>, tags: seq<GhTag>, n: nat, at: seq<nat>) {
    && n <= |tags| && OwnTags(more, releases, tags, at)
    && (forall i :: 0 <= i < |at| ==> at[i] < n) && (forall i, j :: 0 <= i < j < |at| ==> at[i] < at[j])
    && (forall m :: 0 <= m < n && tags[m].name != "" ==>
          Published(releases, tags[m].name) || Covers(more, tags[m].name))
  }

  lemma SkipTag(more: seq<Result>, releases: seq<GhRelease>, tags: seq<GhTag>, n: nat, at: seq<nat>)
    requires n < |tags| && TagsInOrder(more, releases, tags, n, at)
    requires tags[n].name == "" || Published(releases, tags[n].name) || Covers(more, tags[n].name)
    ensures TagsInOrder(more, releases, tags, n + 1, at)
  {
  }

  lemma AddTag(more: seq<Result>, releases: seq<GhRelease>, tags: seq<GhTag>, n: nat, at: seq<nat>)
    requires n < |tags| && TagsInOrder(more, releases, tags, n, at)
    requires tags[n].name != "" && !Published(releases, tags[n].name)
    ensures TagsInOrder(more + [OfTag(tags[n])], releases, tags, n + 1, at + [n])
  {
    var t := tags[n];
    var all := more + [OfTag(t)];
    assert TagResultOf(t, OfTag(t));
    forall v ensures Covers(all, v) <==> Covers(more, v) || v == t.name { CoversAppend(more, OfTag(t), v); }
  }

  lemma CoversAppend(more: seq<Result>, r: Result, v: string)
    ensures Covers(more + [r], v) <==> Covers(more, v) || v == r.version
  {
    assert (more + [r])[|more|] == r;
    if Covers(more, v) {
      var i :| 0 <= i < |more| && more[i].version == v;
      assert (more + [r])[i].version == v;
    }
  }

  class GitHubSource {
    const releasesOnly: bool

    constructor (releasesOnly: bool)
      ensures this.releasesOnly == releasesOnly
    {
      this.releasesOnly := releasesOnly;
    }

    /** Drafts and releases without a tag are skipped. */
    method FetchReleases(releases: seq<GhRelease>) returns (results: seq<Result>, seen: set<string>, ghost at: seq<nat>)
      ensures InOrder(results, releases, at) && AllFetched(results)
      ensures seen == set r | r in results :: r.version
      ensures DistinctTags(releases) ==> DistinctVersions(results)
    {
      results, seen, at := [], {}, [];
      var i := 0;
      while i < |releases|
        invariant 0 <= i <= |releases| && InOrder(results, releases[..i], at)
        invariant seen == set r | r in results :: r.version
      {
        var rel := releases[i];
        OneMoreRelease(results, releases, i, at);
        if !rel.draft && rel.tagName != "" {
          VersionsAppend(results, OfRelease(rel));
          seen := seen + {rel.tagName};
          results, at := results + [OfRelease(rel)], at + [i];
        }
        i := i + 1;
      }
      assert releases[..i] == releases;
      OrderedIsFetched(results, releases, at);
    }

    static lemma VersionsAppend(results: seq<Result>, r: Result)
      ensures (set x | x in results + [r] :: x.version) == (set x | x in results :: x.version) + {r.version}
    {
      assert forall x :: x in results + [r] <==> x in results || x == r;
    }

    /** Releases, then the tags no release covers, each name once. The batch is as FetchedRerun needs it. */
    method FetchNewReleases(releases: seq<GhRelease>, tags: seq<GhTag>)
      returns (results: seq<Result>, ghost at: seq<nat>, ghost tagAt: seq<nat>)
      ensures AllFetched(results) && (DistinctTags(releases) ==> DistinctVersions(results))
      ensures |at| <= |results| && InOrder(results[..|at|], releases, at)
      ensures if releasesOnly then |results| == |at|
              else TagsInOrder(results[|at|..], releases, tags, |tags|, tagAt)
    {
      var seen;
      results, seen, at := FetchReleases(releases);
      tagAt := [];
      ghost var published := results;
      assert results[..|at|] == results;
      if releasesOnly { return; }
      ghost var more;
      results, more, tagAt := FollowWithTags(releases, tags, results, seen, at);
      assert results[..|at|] == published && results[|at|..] == more;
    }

    /** The loop over the tags. */
    method FollowWithTags(ghost releases: seq<GhRelease>, tags: seq<GhTag>, published: seq<Result>,
        covered: set<string>, ghost at: seq<nat>)
      returns (results: seq<Result>, ghost more: seq<Result>, ghost tagAt: seq<nat>)
      requires InOrder(published, releases, at) && AllFetched(published)
      requires covered == set r | r in published :: r.version
      requires DistinctTags(releases) ==> DistinctVersions(published)
      ensures results == published + more && TagsInOrder(more, releases, tags, |tags|, tagAt)
      ensures AllFetched(results) && (DistinctTags(releases) ==> DistinctVersions(results))
    {
      var seen := covered;
      results, more, tagAt := published, [], [];
      var i := 0;
      while i < |tags|
        invariant 0 <= i <= |tags| && results == published + more
        invariant Followed(releases, tags, i, results, more, tagAt, seen)
      {
        var t := tags[i];
        NextTag(releases, tags, i, published, more, at, tagAt, seen);
        if t.name != "" && t.name !in seen {
          seen := seen + {t.name};
          assert published + (more + [OfTag(t)]) == results + [OfTag(t)];
          results, more, tagAt := results + [OfTag(t)], more + [OfTag(t)], tagAt + [i];
        }
        i := i + 1;
      }
    }

    /** Where the loop is after n tags. */
    static ghost predicate Followed(releases: seq<GhRelease>, tags: seq<GhTag>, n: nat, results: seq<Result>,
        more: seq<Result>, tagAt: seq<nat>, seen: set<string>)
    {
      && AllFetched(results) && TagsInOrder(more, releases, tags, n, tagAt)
      && seen == (set r | r in results :: r.version) && (DistinctTags(releases) ==> DistinctVersions(results))
    }

    static lemma NextTag(releases: seq<GhRelease>, tags: seq<GhTag>, n: nat, published: seq<Result>, more: seq<Result>,
        at: seq<nat>, tagAt: seq<nat>, seen: set<string>)
      requires n < |tags| && InOrder(published, releases, at)
      requires Followed(releases, tags, n, published + more, more, tagAt, seen)
      ensures var t := tags[n];
        if t.name != "" && t.name !in seen
        then Followed(releases, tags, n + 1, published + more + [OfTag(t)], more + [OfTag(t)], tagAt + [n],
                      seen + {t.name})
        else Followed(releases, tags, n + 1, published + more, more, tagAt, seen)
    {
      var t := tags[n];
      SeenIff(published, more, releases, at, t.name);
      if t.name != "" && t.name !in seen {
        AppendTag(published + more, t);
        AddTag(more, releases, tags, n, tagAt);
      } else {
        SkipTag(more, releases, tags, n, tagAt);
      }
    }

    static lemma SeenIff(published: seq<Result>, more: seq<Result>, releases: seq<GhRelease>, at: seq<nat>, v: string)
      requires InOrder(published, releases, at)
      ensures v in (set r | r in published + more :: r.version) <==> Published(releases, v) || Covers(more, v)
    {
      OrderedVersions(published, releases, at, v);
      assert forall r :: r in published + more <==> r in published || r in more;
    }

    static lemma AppendTag(results: seq<Result>, t: GhTag)
      requires AllFetched(results) && forall r :: r in results ==> r.version != t.name
      ensures AllFetched(results + [OfTag(t)])
      ensures DistinctVersions(results) ==> DistinctVersions(results + [OfTag(t)])
      ensures (set r | r in results + [OfTag(t)] :: r.version) == (set r | r in results :: r.version) + {t.name}
    {
      assert OfTag(t).changelog == Unquote([]);
      VersionsAppend(results, OfTag(t));
      assert forall k :: 0 <= k < |results| ==> results[k] in results;
    }
  }
}
