/**
 * The audit results view (components/url-audit/AuditResults.tsx): the domain
 * shown for a competitor, the ranked competitor list, the SEO and GEO check
 * lists with their pass/fail filters and counts, and the three requests the
 * view issues once per URL and keywords.
 */
module AuditResults {
  import opened Wrappers
  import opened Text
  import opened Outcomes
  import opened Seqs
  import opened Sorting
  import opened Api
  import SEOCheckItem
  import FAQView

  // ---------------------------------------------------------------------------
  // extractDomain
  // ---------------------------------------------------------------------------

  /**
   * The host name the WHATWG URL parser gives a URL, or `None` where
   * `new URL(url)` throws. The parser is outside this model and enters every
   * function below as this parameter.
   */
  type HostParser = string -> Option<string>

  /** `pat` occurs in `s` at index `k`. */
  predicate OccursAt(s: string, pat: string, k: nat) {
    k + |pat| <= |s| && s[k..k + |pat|] == pat
  }

  /** The index of the first occurrence of `pat` in `s`, if any (`indexOf`, with -1 as `None`). */
  function FindSub(s: string, pat: string): (i: Option<nat>)
    ensures i.Some? ==> OccursAt(s, pat, i.value)
    decreases |s|
  {
    if |s| < |pat| then None
    else if s[..|pat|] == pat then Some(0)
    else
      match FindSub(s[1..], pat)
      case None => None
      case Some(j) =>
        assert s[1..][j..j + |pat|] == s[j + 1..j + 1 + |pat|];
        Some(j + 1)
  }

  /** `FindSub` finds the leftmost occurrence, and finds nothing only when there is none. */
  lemma {:induction false} FindSubLeftmost(s: string, pat: string)
    ensures FindSub(s, pat).Some? ==> forall k: nat :: k < FindSub(s, pat).value ==> !OccursAt(s, pat, k)
    ensures FindSub(s, pat).None? ==> forall k: nat :: !OccursAt(s, pat, k)
    decreases |s|
  {
    if |s| >= |pat| && s[..|pat|] != pat {
      FindSubLeftmost(s[1..], pat);
      assert !OccursAt(s, pat, 0) by {
        assert s[0..|pat|] == s[..|pat|];
      }
      forall k: nat | OccursAt(s, pat, k)
        ensures 1 <= k && OccursAt(s[1..], pat, k - 1)
      {
        assert s[1..][k - 1..k - 1 + |pat|] == s[k..k + |pat|];
      }
    }
  }

  /** `s.replace(pat, rep)` with a string pattern: only the first occurrence is replaced. */
  function ReplaceFirst(s: string, pat: string, rep: string): (r: string)
    ensures FindSub(s, pat).None? ==> r == s
    ensures FindSub(s, pat).Some? ==>
      var i := FindSub(s, pat).value; r == s[..i] + rep + s[i + |pat|..]
  {
    match FindSub(s, pat)
    case None => s
    case Some(i) => s[..i] + rep + s[i + |pat|..]
  }

  /** A leading "www." removed, and nothing else. */
  function StripLeadingWww(host: string): (r: string)
    ensures host == r || host == "www." + r
    ensures StartsWith(host, "www.") ==> host == "www." + r
    ensures !StartsWith(host, "www.") ==> r == host
  {
    if StartsWith(host, "www.") then host[4..] else host
  }

  /** The index of the first character that is not '/', or `|s|`. */
  function FirstNonSlash(s: string): (p: nat)
    ensures p <= |s|
    ensures p < |s| ==> s[p] != '/'
    ensures forall k :: 0 <= k < p ==> s[k] == '/'
  {
    if s == [] || s[0] != '/' then 0 else 1 + FirstNonSlash(s[1..])
  }

  /** The longest run of characters other than '/' starting at `i`: what `([^\/]+)` takes greedily. */
  function RunFrom(s: string, i: nat): (run: string)
    requires i <= |s|
    ensures i + |run| <= |s| && run == s[i..i + |run|]
    ensures forall k :: 0 <= k < |run| ==> run[k] != '/'
    ensures i + |run| == |s| || s[i + |run|] == '/'
    decreases |s| - i
  {
    if i == |s| || s[i] == '/' then [] else [s[i]] + RunFrom(s, i + 1)
  }

  /** The length of an `https?://` at `p`: 8, 7, or 0 when there is none. */
  function SchemeLength(s: string, p: nat): (n: nat)
    requires p <= |s|
    ensures n == 8 ==> StartsWith(s[p..], "https://")
    ensures n == 7 ==> StartsWith(s[p..], "http://")
    ensures n == 0 || n == 7 || n == 8
  {
    if StartsWith(s[p..], "https://") then 8
    else if StartsWith(s[p..], "http://") then 7
    else 0
  }

  /**
   * `(?:www\.)?([^\/]+)` at `q`, with backtracking: the "www." is taken when a
   * non-empty run follows it, otherwise the run starts at `q`; `None` when no
   * run can start at `q`.
   */
  function CaptureFrom(s: string, q: nat): (c: Option<string>)
    requires q <= |s|
    ensures c.None? <==> q == |s| || s[q] == '/'
    ensures c.Some? ==> c.value != [] && '/' !in c.value
  {
    if StartsWith(s[q..], "www.") && q + 4 < |s| && s[q + 4] != '/' then Some(RunFrom(s, q + 4))
    else if q < |s| && s[q] != '/' then Some(RunFrom(s, q))
    else None
  }

  /**
   * The capture group of `url.match(/(?:https?:\/\/)?(?:www\.)?([^\/]+)/)`.
   * The pattern is not anchored: the leftmost match starts at the first
   * character that is not '/', where the optional scheme is taken when
   * something can still be captured after it.
   */
  function RegexHost(s: string): (c: Option<string>)
    ensures c.None? <==> forall k :: 0 <= k < |s| ==> s[k] == '/'
    ensures c.Some? ==> c.value != [] && '/' !in c.value
  {
    var p := FirstNonSlash(s);
    if p == |s| then None
    else
      var n := SchemeLength(s, p);
      if n > 0 && CaptureFrom(s, p + n).Some? then CaptureFrom(s, p + n)
      else CaptureFrom(s, p)
  }

  /** The regular-expression branch of `extractDomain`: the capture, or the URL itself when nothing matches. */
  function DomainFallback(url: string): (domain: string)
    ensures RegexHost(url).Some? ==> domain == RegexHost(url).value
    ensures RegexHost(url).None? ==> domain == url
  {
    match RegexHost(url)
    case Some(c) => c
    case None => url
  }

  /** The greedy run from `i` is exactly `host` when `host` has no '/' and a '/' or the end follows it. */
  lemma {:induction false} RunOfHost(s: string, i: nat, host: string, rest: string)
    requires i <= |s| && s[i..] == host + rest
    requires '/' !in host && (rest == [] || rest[0] == '/')
    ensures RunFrom(s, i) == host
    decreases |host|
  {
    if host == [] {
      assert s[i..] == rest;
      assert i == |s| || s[i] == rest[0];
    } else {
      assert s[i] == s[i..][0] == host[0];
      assert s[i + 1..] == s[i..][1..] == host[1..] + rest;
      RunOfHost(s, i + 1, host[1..], rest);
      assert host == [host[0]] + host[1..];
    }
  }

  /** At a "www." followed by a host, the capture is the host without the "www.". */
  lemma CaptureOfWwwHost(s: string, q: nat, host: string, rest: string)
    requires q <= |s| && s[q..] == "www." + host + rest
    requires host != [] && '/' !in host && (rest == [] || rest[0] == '/')
    ensures CaptureFrom(s, q) == Some(host)
  {
    assert s[q..][..4] == "www.";
    assert s[q + 4] == s[q..][4] == host[0];
    assert s[q + 4..] == s[q..][4..] == host + rest;
    RunOfHost(s, q + 4, host, rest);
  }

  /** At a host not starting with "www.", the capture is the host. */
  lemma CaptureOfBareHost(s: string, q: nat, host: string, rest: string)
    requires q <= |s| && s[q..] == host + rest
    requires host != [] && '/' !in host && (rest == [] || rest[0] == '/')
    requires !StartsWith(host, "www.")
    ensures CaptureFrom(s, q) == Some(host)
  {
    assert s[q] == s[q..][0] == host[0];
    if |host| >= 4 {
      assert s[q..][..4] == host[..4];
    } else if StartsWith(s[q..], "www.") {
      assert s[q..][|host|] == "www."[|host|];
      assert s[q..][|host|] == rest[0];
    }
    RunOfHost(s, q, host, rest);
  }

  /**
   * A URL `scheme + body`, where `body` does not itself start with "http://"
   * or "https://" when `scheme` is empty, has its match start at 0 and its
   * scheme of length `|scheme|`.
   */
  lemma SchemeOf(s: string, scheme: string, body: string)
    requires scheme == "" || scheme == "http://" || scheme == "https://"
    requires s == scheme + body && body != [] && body[0] != '/'
    requires scheme == "" ==> !StartsWith(body, "http://") && !StartsWith(body, "https://")
    ensures FirstNonSlash(s) == 0
    ensures SchemeLength(s, 0) == |scheme|
    ensures s[|scheme|..] == body
  {
    assert s[0..] == s;
    if scheme == "" {
      assert s == body;
    } else if scheme == "http://" {
      assert s[0] == 'h';
      assert s[4] == ':';
      assert s[..7] == scheme;
    } else {
      assert s[0] == 'h';
      assert s[..8] == scheme;
    }
  }

  /** A match that starts at 0 with a scheme of length `n` captures what follows the scheme. */
  lemma RegexHostAfterScheme(s: string, n: nat, host: string)
    requires s != [] && FirstNonSlash(s) == 0 && SchemeLength(s, 0) == n
    requires n <= |s| && CaptureFrom(s, n) == Some(host)
    ensures DomainFallback(s) == host
  {
  }

  /**
   * The fallback drops an `http://` or `https://` and a "www.", and keeps the
   * host up to the first '/'.
   */
  lemma FallbackStripsSchemeAndWww(scheme: string, host: string, rest: string)
    requires scheme == "" || scheme == "http://" || scheme == "https://"
    requires host != [] && '/' !in host
    requires rest == [] || rest[0] == '/'
    ensures DomainFallback(scheme + "www." + host + rest) == host
  {
    var body := "www." + host + rest;
    var s := scheme + "www." + host + rest;
    assert s == scheme + body;
    assert body[0] == 'w';
    assert !StartsWith(body, "http://") && !StartsWith(body, "https://") by {
      assert |body| >= 7 ==> body[..7][0] == 'w';
    }
    SchemeOf(s, scheme, body);
    CaptureOfWwwHost(s, |scheme|, host, rest);
    RegexHostAfterScheme(s, |scheme|, host);
  }

  /**
   * Without a "www.", the fallback keeps the host after the scheme; with no
   * scheme, the host is kept as it is unless the URL itself begins with
   * "http://" or "https://", where the optional scheme group would take it.
   */
  lemma FallbackKeepsBareHost(scheme: string, host: string, rest: string)
    requires scheme == "" || scheme == "http://" || scheme == "https://"
    requires host != [] && '/' !in host && !StartsWith(host, "www.")
    requires scheme == "" ==> !StartsWith(host + rest, "http://") && !StartsWith(host + rest, "https://")
    requires rest == [] || rest[0] == '/'
    ensures DomainFallback(scheme + host + rest) == host
  {
    var s := scheme + host + rest;
    var body := host + rest;
    assert s == scheme + body;
    SchemeOf(s, scheme, body);
    CaptureOfBareHost(s, |scheme|, host, rest);
    RegexHostAfterScheme(s, |scheme|, host);
  }

  /** A URL of slashes only (or the empty URL) matches nothing and is returned as it is. */
  lemma FallbackOfSlashes(url: string)
    requires forall k :: 0 <= k < |url| ==> url[k] == '/'
    ensures DomainFallback(url) == url
  {
  }

  /** `extractDomain` as written: the host with its first "www." removed wherever it occurs, else the fallback. */
  function ExtractDomainAsWritten(url: string, hostOf: HostParser): (domain: string)
    ensures hostOf(url).Some? ==> domain == ReplaceFirst(hostOf(url).value, "www.", "")
    ensures hostOf(url).None? ==> domain == DomainFallback(url)
  {
    match hostOf(url)
    case Some(host) => ReplaceFirst(host, "www.", "")
    case None => DomainFallback(url)
  }

  /** `extractDomain` as intended: only a leading "www." is dropped from the parsed host. */
  function ExtractDomain(url: string, hostOf: HostParser): (domain: string)
    ensures hostOf(url).Some? ==> domain == StripLeadingWww(hostOf(url).value)
    ensures hostOf(url).Some? ==> hostOf(url).value == domain || hostOf(url).value == "www." + domain
    ensures hostOf(url).None? ==> domain == DomainFallback(url)
  {
    match hostOf(url)
    case Some(host) => StripLeadingWww(host)
    case None => DomainFallback(url)
  }

  /**
   * The two agree on every host whose only "www." (if any) is at the start,
   * but a host with "www." inside it loses those four characters as written:
   * "awww.example.com" becomes "aexample.com".
   */
  lemma ReplaceCutsInnerWww(host: string)
    requires host == "awww.example.com"
    ensures ReplaceFirst(host, "www.", "") == "aexample.com"
    ensures StripLeadingWww(host) == host
  {
    assert host[..4] != "www." by { assert host[0] == 'a'; }
    assert host[1..][..4] == "www.";
    assert FindSub(host, "www.") == Some(1) by {
      assert FindSub(host[1..], "www.") == Some(0);
    }
    assert host[..1] + "" + host[5..] == "aexample.com";
  }

  /** Where the host has no "www." past its start, the written and intended versions agree. */
  lemma AsWrittenAgreesOnLeadingWww(url: string, hostOf: HostParser)
    requires hostOf(url).Some?
    requires forall k: nat :: 1 <= k ==> !OccursAt(hostOf(url).value, "www.", k)
    ensures ExtractDomainAsWritten(url, hostOf) == ExtractDomain(url, hostOf)
  {
    var host := hostOf(url).value;
    match FindSub(host, "www.")
    case None =>
    case Some(i) =>
      assert i == 0;
      assert host[..0] + "" + host[4..] == host[4..];
  }

  // ---------------------------------------------------------------------------
  // Competitors: filter, map, sort by SEO score, renumber
  // ---------------------------------------------------------------------------

  /** Only entries the backend could fetch are kept (`item.fetchResponse === true`). */
  predicate Fetched(item: CompetitorApiResponse) {
    item.fetchResponse
  }

  /** The competitor built for the `index`-th kept entry: position `index + 1`, its domain, the rest copied. */
  function FromApi(item: CompetitorApiResponse, index: nat, hostOf: HostParser): (c: Competitor)
    ensures c.position == index + 1 && c.domain == ExtractDomainAsWritten(item.url, hostOf)
    ensures c.url == item.url && c.seoScore == item.seoScore && c.geoScore == item.geoScore
  {
    Competitor(index + 1, ExtractDomainAsWritten(item.url, hostOf), item.url, item.seoScore, item.geoScore)
  }

  /** A competitor with its position blanked out: what the list holds apart from its numbering. */
  function Unranked(c: Competitor): Competitor
  {
    c.(position := 0)
  }

  /** The competitor an entry becomes, apart from its position. */
  function Entry(item: CompetitorApiResponse, hostOf: HostParser): Competitor
  {
    Competitor(0, ExtractDomainAsWritten(item.url, hostOf), item.url, item.seoScore, item.geoScore)
  }

  function EntryOf(hostOf: HostParser): CompetitorApiResponse -> Competitor
  {
    item => Entry(item, hostOf)
  }

  /** The competitors the response should give, unnumbered and in arrival order. */
  function Entries(response: seq<CompetitorApiResponse>, hostOf: HostParser): seq<Competitor>
  {
    Map(EntryOf(hostOf), Filter(Fetched, response))
  }

  /** The sort key: `(a, b) => b.seoScore - a.seoScore` sorts non-increasing in the SEO score. */
  function SeoKey(c: Competitor): real
  {
    c.seoScore
  }

  /** `response.filter(...).map((item, index) => ...)`: the kept entries numbered in arrival order. */
  function Ranked(response: seq<CompetitorApiResponse>, hostOf: HostParser): (r: seq<Competitor>)
    ensures |r| == |Filter(Fetched, response)|
    ensures forall i :: 0 <= i < |r| ==> r[i] == FromApi(Filter(Fetched, response)[i], i, hostOf)
  {
    var kept := Filter(Fetched, response);
    seq(|kept|, i requires 0 <= i < |kept| => FromApi(kept[i], i, hostOf))
  }

  /** Positions 1..N in list order; nothing else about an entry changes. */
  function Renumber(s: seq<Competitor>): (r: seq<Competitor>)
    ensures |r| == |s|
    ensures forall i :: 0 <= i < |r| ==> r[i].position == i + 1 && Unranked(r[i]) == Unranked(s[i])
  {
    seq(|s|, i requires 0 <= i < |s| => s[i].(position := i + 1))
  }

  /** The competitor list the view stores. */
  function Normalize(response: seq<CompetitorApiResponse>, hostOf: HostParser): seq<Competitor>
  {
    Renumber(SortDesc(Ranked(response, hostOf), SeoKey))
  }

  /**
   * The filter and map, then `filteredCompetitors.sort(...)` in place and the
   * `forEach` that rewrites each position to its index plus one.
   */
  method NormalizeCompetitors(response: seq<CompetitorApiResponse>, hostOf: HostParser)
    returns (competitors: seq<Competitor>)
    ensures competitors == Normalize(response, hostOf)
  {
    var ranked := Ranked(response, hostOf);
    var a := new Competitor[|ranked|](k requires 0 <= k < |ranked| => ranked[k]);
    assert a[..] == ranked;
    SortInPlace(a, SeoKey);
    RenumberInPlace(a);
    competitors := a[..];
  }

  /** `forEach((competitor, index) => { competitor.position = index + 1; })`. */
  method RenumberInPlace(a: array<Competitor>)
    modifies a
    ensures a[..] == Renumber(old(a[..]))
  {
    var i := 0;
    while i < a.Length
      invariant 0 <= i <= a.Length
      invariant forall k :: 0 <= k < i ==> a[k] == old(a[k]).(position := k + 1)
      invariant forall k :: i <= k < a.Length ==> a[k] == old(a[k])
    {
      a[i] := a[i].(position := i + 1);
      i := i + 1;
    }
  }

  /** `Map` with a function that keeps the sort key commutes with taking the entries of one key. */
  lemma {:induction false} WithKeyMap<T>(f: T -> T, s: seq<T>, key: T -> real, k: real)
    requires forall x :: key(f(x)) == key(x)
    ensures WithKey(Map(f, s), key, k) == Map(f, WithKey(s, key, k))
    decreases |s|
  {
    if s != [] {
      var init := s[..|s| - 1];
      var last := s[|s| - 1];
      assert Map(f, s) == Map(f, init) + [f(last)];
      WithKeyMap(f, init, key, k);
      MapAppend(f, WithKey(init, key, k), if key(last) == k then [last] else []);
    }
  }

  /**
   * The stored competitor list holds exactly the fetched entries, each with
   * its domain and its URL and scores copied (a permutation of `Entries` once
   * positions are set aside); it is non-increasing in SEO score, entries with
   * equal scores keep their arrival order, and positions run 1..N.
   */
  lemma CompetitorListSpec(response: seq<CompetitorApiResponse>, hostOf: HostParser, score: real)
    ensures var list := Normalize(response, hostOf);
      multiset(Map(Unranked, list)) == multiset(Entries(response, hostOf))
    ensures SortedDesc(Normalize(response, hostOf), SeoKey)
    ensures WithKey(Map(Unranked, Normalize(response, hostOf)), SeoKey, score)
         == WithKey(Entries(response, hostOf), SeoKey, score)
    ensures forall i :: 0 <= i < |Normalize(response, hostOf)| ==> Normalize(response, hostOf)[i].position == i + 1
  {
    var ranked := Ranked(response, hostOf);
    var sorted := SortDesc(ranked, SeoKey);
    var list := Normalize(response, hostOf);
    SortPermutation(ranked, SeoKey);
    SortSorted(ranked, SeoKey);
    SortStable(ranked, SeoKey, score);
    assert Map(Unranked, list) == Map(Unranked, sorted);
    assert Map(Unranked, ranked) == Entries(response, hostOf);
    MapPermutation(Unranked, sorted, ranked);
    WithKeyMap(Unranked, sorted, SeoKey, score);
    WithKeyMap(Unranked, ranked, SeoKey, score);
  }

  // ---------------------------------------------------------------------------
  // SEO and GEO checks: partition, order, rows, filters, counts
  // ---------------------------------------------------------------------------

  /** The two check lists the insights tab draws: SEO (`seoCheck`) and GEO (`geoCheck`). */
  datatype Part = Seo | Geo

  predicate InPart(part: Part, c: Check) {
    match part
    case Seo => c.seoCheck
    case Geo => c.geoCheck
  }

  function InPartOf(part: Part): Check -> bool
  {
    c => InPart(part, c)
  }

  /** The part's own severity field. */
  function PartSeverity(part: Part, c: Check): Option<string>
  {
    match part
    case Seo => c.seoSeverity
    case Geo => c.geoSeverity
  }

  /** `getStatus`: passed exactly when the check passed; the severity plays no part. */
  function GetStatus(pass: bool, severity: Option<string>): (status: SEOCheckItem.Status)
    ensures status == SEOCheckItem.Passed <==> pass
    ensures status == SEOCheckItem.Failed <==> !pass
  {
    if pass then SEOCheckItem.Passed else SEOCheckItem.Failed
  }

  /** One row of a check list as handed to `SEOCheckItem`. */
  datatype CheckRow = CheckRow(status: SEOCheckItem.Status, title: string, description: string, severity: Option<string>)

  /**
   * The row for a check: its status, its title, its description or "", and
   * the part's severity, falling back to the general one when that is
   * missing or empty.
   */
  function ToRow(part: Part, c: Check): (row: CheckRow)
    ensures row.status == SEOCheckItem.Passed <==> c.pass
    ensures row.title == c.title && row.description == OrElse(c.description, "")
    ensures Truthy(PartSeverity(part, c)) ==> row.severity == PartSeverity(part, c)
    ensures !Truthy(PartSeverity(part, c)) ==> row.severity == c.severity
  {
    var severity := if Truthy(PartSeverity(part, c)) then PartSeverity(part, c) else c.severity;
    CheckRow(GetStatus(c.pass, PartSeverity(part, c)), c.title, OrElse(c.description, ""), severity)
  }

  function RowOf(part: Part): Check -> CheckRow
  {
    c => ToRow(part, c)
  }

  /** `(a, b) => a.order - b.order` sorts non-decreasing in `order`: non-increasing in its negation. */
  function OrderKey(c: Check): real
  {
    -c.order
  }

  /** The checks of one part, in the response's order. */
  function PartChecks(part: Part, checks: seq<Check>): seq<Check>
  {
    Filter(InPartOf(part), checks)
  }

  /** The checks of one part, ascending by `order`. */
  function SortedChecks(part: Part, checks: seq<Check>): seq<Check>
  {
    SortDesc(PartChecks(part, checks), OrderKey)
  }

  /** Every row of one part before the pass/fail filter. */
  function AllRows(part: Part, checks: seq<Check>): seq<CheckRow>
  {
    Map(RowOf(part), SortedChecks(part, checks))
  }

  /**
   * A part's list holds exactly that part's checks, ascending by `order`
   * (checks with equal order in their response order), each row made from
   * its check.
   */
  lemma SortedChecksSpec(part: Part, checks: seq<Check>, order: real)
    ensures multiset(SortedChecks(part, checks)) == multiset(PartChecks(part, checks))
    ensures forall c :: c in SortedChecks(part, checks) <==> c in checks && InPart(part, c)
    ensures forall i, j :: 0 <= i < j < |SortedChecks(part, checks)| ==>
              SortedChecks(part, checks)[i].order <= SortedChecks(part, checks)[j].order
    ensures WithKey(SortedChecks(part, checks), OrderKey, order) == WithKey(PartChecks(part, checks), OrderKey, order)
    ensures |AllRows(part, checks)| == |PartChecks(part, checks)|
    ensures forall i :: 0 <= i < |AllRows(part, checks)| ==> AllRows(part, checks)[i] == ToRow(part, SortedChecks(part, checks)[i])
  {
    var kept := PartChecks(part, checks);
    var sorted := SortedChecks(part, checks);
    SortPermutation(kept, OrderKey);
    SortSorted(kept, OrderKey);
    SortStable(kept, OrderKey, order);
    forall c ensures c in sorted <==> c in checks && InPart(part, c) {
      assert c in sorted <==> c in multiset(sorted);
      assert c in kept <==> c in multiset(kept);
    }
    forall i, j | 0 <= i < j < |sorted| ensures sorted[i].order <= sorted[j].order {
      assert OrderKey(sorted[i]) >= OrderKey(sorted[j]);
    }
  }

  /** The pass/fail toggles, both on at first. */
  datatype Filters = Filters(passed: bool, failed: bool)

  const AllShown := Filters(true, true)

  /** A row is shown exactly when the toggle for its status is on. */
  predicate Visible(filters: Filters, row: CheckRow) {
    if row.status == SEOCheckItem.Passed then filters.passed else filters.failed
  }

  function VisibleTo(filters: Filters): CheckRow -> bool
  {
    row => Visible(filters, row)
  }

  /** `seoChecks` and `geoChecks`: the part's rows that the toggles let through, in order. */
  function Rows(part: Part, checks: seq<Check>, filters: Filters): seq<CheckRow>
  {
    Filter(VisibleTo(filters), AllRows(part, checks))
  }

  /** A row is listed iff it is one of the part's rows and its status' toggle is on. */
  lemma RowsVisibleIff(part: Part, checks: seq<Check>, filters: Filters, row: CheckRow)
    ensures row in Rows(part, checks, filters) <==> row in AllRows(part, checks) && Visible(filters, row)
  {
    var all := AllRows(part, checks);
    if row in all && Visible(filters, row) {
      var i :| 0 <= i < |all| && all[i] == row;
    }
  }

  /** With both toggles off the list is empty. */
  lemma BothOffShowsNothing(part: Part, checks: seq<Check>)
    ensures Rows(part, checks, Filters(false, false)) == []
  {
    FilterNone(VisibleTo(Filters(false, false)), AllRows(part, checks));
  }

  /** With both toggles on every row of the part is listed. */
  lemma AllOnShowsEverything(part: Part, checks: seq<Check>)
    ensures Rows(part, checks, AllShown) == AllRows(part, checks)
  {
    FilterAll(VisibleTo(AllShown), AllRows(part, checks));
  }

  /** The "Passed" button. */
  function TogglePassed(f: Filters): (g: Filters)
    ensures g.passed == !f.passed && g.failed == f.failed
  {
    f.(passed := !f.passed)
  }

  /** The "Issue" button. */
  function ToggleFailed(f: Filters): (g: Filters)
    ensures g.failed == !f.failed && g.passed == f.passed
  {
    f.(failed := !f.failed)
  }

  /** Pressing the same toggle twice restores the filters, and the two toggles commute. */
  lemma ToggleTwiceRestores(f: Filters)
    ensures TogglePassed(TogglePassed(f)) == f
    ensures ToggleFailed(ToggleFailed(f)) == f
    ensures TogglePassed(ToggleFailed(f)) == ToggleFailed(TogglePassed(f))
  {
  }

  /** The passed and failed counts beside the toggles. */
  datatype Counts = Counts(passed: nat, failed: nat)

  predicate Passes(c: Check) {
    c.pass
  }

  predicate Fails(c: Check) {
    !c.pass
  }

  /** `seoCounts` and `geoCounts`: over the part's checks, whatever the toggles. */
  function PartCounts(part: Part, checks: seq<Check>): Counts
  {
    var kept := PartChecks(part, checks);
    Counts(Count(Passes, kept), Count(Fails, kept))
  }

  /** Every check of the part is counted once: as passed or as failed. */
  lemma CountsCoverPart(part: Part, checks: seq<Check>)
    ensures PartCounts(part, checks).passed + PartCounts(part, checks).failed == |PartChecks(part, checks)|
  {
    CountComplement(Passes, Fails, PartChecks(part, checks));
  }

  /**
   * The counts are the lengths of the lists shown with only the "Passed" or
   * only the "Issue" toggle on.
   */
  lemma CountsMatchRows(part: Part, checks: seq<Check>)
    ensures PartCounts(part, checks).passed == |Rows(part, checks, Filters(true, false))|
    ensures PartCounts(part, checks).failed == |Rows(part, checks, Filters(false, true))|
  {
    var kept := PartChecks(part, checks);
    var sorted := SortedChecks(part, checks);
    SortPermutation(kept, OrderKey);
    CountPermutation(Passes, sorted, kept);
    CountPermutation(Fails, sorted, kept);
    CountMap(VisibleTo(Filters(true, false)), RowOf(part), Passes, sorted);
    CountMap(VisibleTo(Filters(false, true)), RowOf(part), Fails, sorted);
  }

  // ---------------------------------------------------------------------------
  // The three requests issued once per URL and keywords
  // ---------------------------------------------------------------------------

  const CompetitorsFailed := "Failed to fetch competitors"
  const FaqsFailed := "Failed to fetch FAQs"
  const EvaluationFailed := "Failed to evaluate page"

  /** The view's properties the requests read. */
  datatype Inputs = Inputs(url: string, geoRegion: string, primaryKeyword: string, secondaryKeyword: string)

  /** One request's state: its data, loading flag and error, and its "fetched" ref. */
  datatype Request<T> = Request(data: T, loading: bool, error: Option<string>, fetched: bool)

  /** A request not yet issued, holding its initial data. */
  function Idle<T>(data: T): Request<T>
  {
    Request(data, false, None, false)
  }

  /** The guard: the URL and both keywords non-empty as given (not trimmed), and the ref not set. */
  predicate MayFetch<T>(inputs: Inputs, r: Request<T>) {
    inputs.url != "" && inputs.primaryKeyword != "" && inputs.secondaryKeyword != "" && !r.fetched
  }

  /**
   * The effect up to the await: nothing unless the guard holds; then loading
   * starts, the error is cleared and the ref is set before the call is made.
   */
  function Begin<T>(inputs: Inputs, r: Request<T>): (t: Request<T>)
    ensures !MayFetch(inputs, r) ==> t == r
    ensures MayFetch(inputs, r) ==> t.loading && t.error == None && t.fetched && t.data == r.data
  {
    if MayFetch(inputs, r) then r.(loading := true, error := None, fetched := true) else r
  }

  /**
   * The rest: a result replaces the data; a failure records the message, or
   * the fallback, and clears the ref so that the next run may retry. Loading
   * ends either way.
   */
  function Finish<T>(r: Request<T>, outcome: Outcome<T>, fallback: string): (t: Request<T>)
    ensures !t.loading
    ensures outcome.Resolved? ==> t.data == outcome.value && t.error == r.error && t.fetched == r.fetched
    ensures outcome.Rejected? ==> t.data == r.data && t.error == Some(ErrorText(outcome.thrown, fallback))
    ensures outcome.Rejected? ==> !t.fetched
  {
    match outcome
    case Resolved(v) => r.(data := v, loading := false)
    case Rejected(thrown) => r.(error := Some(ErrorText(thrown, fallback)), fetched := false, loading := false)
  }

  /**
   * A request is issued at most once per success: while it is under way, and
   * after it succeeded, the guard stays closed whatever the inputs; after a
   * failure the guard opens again for the same inputs.
   */
  lemma FetchOnceUnlessFailed<T>(inputs: Inputs, later: Inputs, r: Request<T>, outcome: Outcome<T>, fallback: string)
    requires MayFetch(inputs, r)
    ensures Begin(later, Begin(inputs, r)) == Begin(inputs, r)
    ensures outcome.Resolved? ==> Begin(later, Finish(Begin(inputs, r), outcome, fallback))
                                  == Finish(Begin(inputs, r), outcome, fallback)
    ensures outcome.Rejected? ==> MayFetch(inputs, Finish(Begin(inputs, r), outcome, fallback))
  {
  }

  /** A result wrapped as present: `setFaqs(response)` into a state that starts as `null`. */
  function Present<T>(outcome: Outcome<T>): (p: Outcome<Option<T>>)
    ensures p.Resolved? <==> outcome.Resolved?
    ensures p.Resolved? ==> p.value == Some(outcome.value)
    ensures p.Rejected? ==> p.thrown == outcome.thrown
  {
    match outcome
    case Resolved(v) => Resolved(Some(v))
    case Rejected(thrown) => Rejected(thrown)
  }

  /** The payload of the competitor and FAQ calls: the trimmed URL and keywords. */
  function SeoPayload(inputs: Inputs): SEOIssuesRequest
  {
    SEOIssuesRequest(Trim(inputs.url), Trim(inputs.primaryKeyword), Trim(inputs.secondaryKeyword))
  }

  /** The payload of the evaluation call: fixed page type and industry, "India" when no region is given, no content. */
  function EvaluationPayload(inputs: Inputs): EvaluatePageRequest
  {
    EvaluatePageRequest(
      PageContext(Trim(inputs.url), "Informational", Trim(inputs.primaryKeyword),
                  if inputs.geoRegion == "" then "India" else inputs.geoRegion, "Financial Services"),
      "")
  }

  /**
   * The competitor and FAQ calls send the same URL and primary keyword as the
   * evaluation call. A field with no surrounding white space is sent as it is,
   * and no sent field starts or ends with white space.
   */
  lemma SeoPayloadSpec(inputs: Inputs)
    ensures SeoPayload(inputs).url == EvaluationPayload(inputs).pageContext.url
    ensures SeoPayload(inputs).primaryKeyword == EvaluationPayload(inputs).pageContext.primaryKeyword
    ensures Trim(inputs.url) == inputs.url ==> SeoPayload(inputs).url == inputs.url
    ensures var u := SeoPayload(inputs).url;
      u == [] || (!IsWhitespace(u[0]) && !IsWhitespace(u[|u| - 1]))
    ensures var k := SeoPayload(inputs).secondaryKeyword;
      k == [] || (!IsWhitespace(k[0]) && !IsWhitespace(k[|k| - 1]))
  {
    TrimCutsOnlyWhitespace(inputs.url);
    TrimCutsOnlyWhitespace(inputs.secondaryKeyword);
  }

  /**
   * The evaluation payload always names a region: the given one, or "India"
   * when none is given; a URL and keyword with no surrounding whitespace are
   * sent as they are.
   */
  lemma EvaluationPayloadSpec(inputs: Inputs)
    ensures EvaluationPayload(inputs).pageContext.geoContext != ""
    ensures inputs.geoRegion != "" ==> EvaluationPayload(inputs).pageContext.geoContext == inputs.geoRegion
    ensures Trim(inputs.url) == inputs.url ==> EvaluationPayload(inputs).pageContext.url == inputs.url
    ensures EvaluationPayload(inputs).pageContent == ""
  {
  }

  /** The competitor request settles with the normalised list, or the failure. */
  function SettleCompetitors(r: Request<seq<Competitor>>, outcome: Outcome<seq<CompetitorApiResponse>>, hostOf: HostParser)
    : (t: Request<seq<Competitor>>)
    ensures outcome.Resolved? ==> t == Finish(r, Resolved(Normalize(outcome.value, hostOf)), CompetitorsFailed)
    ensures outcome.Rejected? ==> t == Finish(r, Rejected(outcome.thrown), CompetitorsFailed)
  {
    match outcome
    case Resolved(response) => Finish(r, Resolved(Normalize(response, hostOf)), CompetitorsFailed)
    case Rejected(thrown) => Finish(r, Rejected(thrown), CompetitorsFailed)
  }

  /** What the FAQ tab is given: both lists, `[]` while there is no response. */
  function FaqProps(r: Request<Option<FAQResponse>>): (props: FAQView.FAQViewProps)
    ensures props.isLoading == r.loading && props.error == r.error
    ensures r.data.None? ==> props.extractedFaqs == [] && props.generatedFaqs == []
    ensures r.data.Some? ==> props.extractedFaqs == r.data.value.extractedFaqs
    ensures r.data.Some? ==> props.generatedFaqs == r.data.value.generatedFaqs
  {
    match r.data
    case None => FAQView.FAQViewProps([], [], r.loading, r.error)
    case Some(faqs) => FAQView.FAQViewProps(faqs.extractedFaqs, faqs.generatedFaqs, r.loading, r.error)
  }

  /**
   * While the FAQ request is under way the tab shows the spinner; after a
   * failure with a non-empty message it shows that message.
   */
  lemma FaqRequestScreens(inputs: Inputs, r: Request<Option<FAQResponse>>, thrown: Thrown,
                          openExtracted: Option<nat>, openGenerated: Option<nat>)
    requires MayFetch(inputs, r)
    requires ErrorText(thrown, FaqsFailed) != ""
    ensures FAQView.Render(FaqProps(Begin(inputs, r)), openExtracted, openGenerated) == FAQView.Loading
    ensures FAQView.Render(FaqProps(Finish(Begin(inputs, r), Present(Rejected(thrown)), FaqsFailed)),
                           openExtracted, openGenerated)
         == FAQView.ErrorBanner(ErrorText(thrown, FaqsFailed))
  {
  }

  /** The view's filters and its three requests, held in fields as React holds them. */
  class View {
    var filters: Filters
    var competitors: Request<seq<Competitor>>
    var faqs: Request<Option<FAQResponse>>
    var evaluation: Request<Option<EvaluatePageResponse>>

    /** Both toggles on, no competitors, no FAQs, no evaluation, nothing fetched. */
    constructor ()
      ensures filters == AllShown
      ensures competitors == Idle([]) && faqs == Idle(None) && evaluation == Idle(None)
    {
      filters := AllShown;
      competitors := Idle([]);
      faqs := Idle(None);
      evaluation := Idle(None);
    }

    /** The "Passed" button, on either list; the requests are untouched. */
    method PressPassed()
      modifies this
      ensures filters == TogglePassed(old(filters))
      ensures competitors == old(competitors) && faqs == old(faqs) && evaluation == old(evaluation)
    {
      filters := filters.(passed := !filters.passed);
    }

    /** The "Issue" button, on either list. */
    method PressFailed()
      modifies this
      ensures filters == ToggleFailed(old(filters))
      ensures competitors == old(competitors) && faqs == old(faqs) && evaluation == old(evaluation)
    {
      filters := filters.(failed := !filters.failed);
    }

    /** The reset button: both toggles on. */
    method ResetFilters()
      modifies this
      ensures filters == AllShown
      ensures competitors == old(competitors) && faqs == old(faqs) && evaluation == old(evaluation)
    {
      filters := Filters(true, true);
    }

    /** `fetchCompetitors` up to the await: the payload sent, or nothing when the guard is closed. */
    method StartCompetitors(inputs: Inputs) returns (request: Option<SEOIssuesRequest>)
      modifies this
      ensures competitors == Begin(inputs, old(competitors))
      ensures request == if MayFetch(inputs, old(competitors)) then Some(SeoPayload(inputs)) else None
      ensures filters == old(filters) && faqs == old(faqs) && evaluation == old(evaluation)
    {
      if MayFetch(inputs, competitors) {
        competitors := competitors.(loading := true, error := None, fetched := true);
        request := Some(SeoPayload(inputs));
      } else {
        request := None;
      }
    }

    /** The competitor response, normalised in place, or the failure; then the `finally`. */
    method CompetitorsSettled(outcome: Outcome<seq<CompetitorApiResponse>>, hostOf: HostParser)
      modifies this
      ensures competitors == SettleCompetitors(old(competitors), outcome, hostOf)
      ensures filters == old(filters) && faqs == old(faqs) && evaluation == old(evaluation)
    {
      match outcome {
        case Resolved(response) =>
          var list := NormalizeCompetitors(response, hostOf);
          competitors := competitors.(data := list);
        case Rejected(thrown) =>
          competitors := competitors.(error := Some(ErrorText(thrown, CompetitorsFailed)), fetched := false);
      }
      competitors := competitors.(loading := false);
    }

    /** `fetchFAQs` up to the await. */
    method StartFaqs(inputs: Inputs) returns (request: Option<SEOIssuesRequest>)
      modifies this
      ensures faqs == Begin(inputs, old(faqs))
      ensures request == if MayFetch(inputs, old(faqs)) then Some(SeoPayload(inputs)) else None
      ensures filters == old(filters) && competitors == old(competitors) && evaluation == old(evaluation)
    {
      if MayFetch(inputs, faqs) {
        faqs := faqs.(loading := true, error := None, fetched := true);
        request := Some(SeoPayload(inputs));
      } else {
        request := None;
      }
    }

    /** The FAQ response or the failure; then the `finally`. */
    method FaqsSettled(outcome: Outcome<FAQResponse>)
      modifies this
      ensures faqs == Finish(old(faqs), Present(outcome), FaqsFailed)
      ensures filters == old(filters) && competitors == old(competitors) && evaluation == old(evaluation)
    {
      match outcome {
        case Resolved(response) =>
          faqs := faqs.(data := Some(response));
        case Rejected(thrown) =>
          faqs := faqs.(error := Some(ErrorText(thrown, FaqsFailed)), fetched := false);
      }
      faqs := faqs.(loading := false);
    }

    /** `fetchEvaluation` up to the await. */
    method StartEvaluation(inputs: Inputs) returns (request: Option<EvaluatePageRequest>)
      modifies this
      ensures evaluation == Begin(inputs, old(evaluation))
      ensures request == if MayFetch(inputs, old(evaluation)) then Some(EvaluationPayload(inputs)) else None
      ensures filters == old(filters) && competitors == old(competitors) && faqs == old(faqs)
    {
      if MayFetch(inputs, evaluation) {
        evaluation := evaluation.(loading := true, error := None, fetched := true);
        request := Some(EvaluationPayload(inputs));
      } else {
        request := None;
      }
    }

    /** The evaluation or the failure; then the `finally`. */
    method EvaluationSettled(outcome: Outcome<EvaluatePageResponse>)
      modifies this
      ensures evaluation == Finish(old(evaluation), Present(outcome), EvaluationFailed)
      ensures filters == old(filters) && competitors == old(competitors) && faqs == old(faqs)
    {
      match outcome {
        case Resolved(response) =>
          evaluation := evaluation.(data := Some(response));
        case Rejected(thrown) =>
          evaluation := evaluation.(error := Some(ErrorText(thrown, EvaluationFailed)), fetched := false);
      }
      evaluation := evaluation.(loading := false);
    }
  }
}
