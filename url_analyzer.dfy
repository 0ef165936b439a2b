/** The URL analyzer: normalises a URL string, runs nine fixed heuristic
    checks on it, and reports a risk score clamped to [0, 100] together with
    the ordered list of checks, one warning per failed check, and the raw
    signals behind them.

    The host's URL parser (`new URL(...)`) is foreign code; it enters the
    model as a parameter `parse`, whose `None` stands for the parser throwing. */
module UrlAnalyzer {
  import opened Text

  datatype Status = Safe | Warning | Danger

  datatype Check = Check(name: string, status: Status, description: string)

  datatype Details = Details(
    protocol: string,
    isHttps: bool,
    hasIpAddress: bool,
    isUrlShortener: bool,
    suspiciousTld: bool,
    typosquatting: Option<string>,
    excessiveSubdomains: bool,
    suspiciousKeywords: seq<string>,
    encodedCharacters: bool,
    unusualPort: bool)

  datatype UrlAnalysisResult = UrlAnalysisResult(
    url: string,
    domain: string,
    overallScore: int,
    checks: seq<Check>,
    warnings: seq<string>,
    details: Details)

  /** What the host's URL parser reports for a string it accepts: the
      protocol with its trailing colon, the host name, and the port (empty
      when absent or the scheme's default). */
  datatype ParsedUrl = ParsedUrl(protocol: string, hostname: string, port: string)

  type UrlParser = string -> Option<ParsedUrl>

  // ---------------------------------------------------------------------
  // Constant tables

  const UrlShorteners: seq<string> := [
    "bit.ly", "tinyurl.com", "goo.gl", "t.co", "ow.ly", "is.gd", "buff.ly",
    "adf.ly", "j.mp", "tr.im", "cli.gs", "short.to", "budurl.com", "ping.fm",
    "post.ly", "just.as", "bkite.com", "snipr.com", "fic.kr", "loopt.us",
    "doiop.com", "twitthis.com", "htxt.it", "ak.im", "yep.it", "posted.at",
    "bit.do", "cutt.ly", "rb.gy", "shorturl.at"
  ]

  const SuspiciousTlds: seq<string> := [
    ".xyz", ".tk", ".ml", ".ga", ".cf", ".gq", ".top", ".work", ".click",
    ".link", ".info", ".online", ".site", ".website", ".space", ".pw",
    ".cc", ".buzz", ".rest", ".fit", ".life", ".live", ".mom", ".lol",
    ".surf", ".icu", ".monster", ".cam"
  ]

  /** A brand name and the misspellings of it that give a phishing domain away. */
  datatype Brand = Brand(name: string, typos: seq<string>)

  /** In the order the analyzer visits them. */
  const TargetBrands: seq<Brand> := [
    Brand("google", ["g00gle", "googl", "gooogle", "googie", "g0ogle", "qoogle"]),
    Brand("facebook", ["faceb00k", "facebok", "faceboook", "fecebook", "facbook"]),
    Brand("amazon", ["amaz0n", "amazn", "amazone", "amazonn", "arnazon"]),
    Brand("paypal", ["paypa1", "paypai", "paypol", "paypaI", "poypal"]),
    Brand("microsoft", ["micros0ft", "microsofl", "mircosoft", "microsft"]),
    Brand("apple", ["app1e", "appie", "applle", "aple", "aaple"]),
    Brand("netflix", ["netf1ix", "netfIix", "netfiix", "nettflix"]),
    Brand("instagram", ["1nstagram", "instagran", "instgram", "lnstagram"]),
    Brand("twitter", ["tw1tter", "twtter", "tvvitter", "twltter"]),
    Brand("linkedin", ["linked1n", "linkdin", "linkedln", "linkeden"]),
    Brand("dropbox", ["dr0pbox", "dropb0x", "drpbox", "dropbax"]),
    Brand("chase", ["chas3", "chasse", "chasee", "chace"]),
    Brand("wellsfargo", ["we11sfargo", "wellsfarg0", "welsfargo"]),
    Brand("bankofamerica", ["bank0famerica", "bankofamer1ca", "bankofamerlca"]),
    Brand("citibank", ["c1tibank", "citibenk", "citlbank"])
  ]

  const PhishingKeywords: seq<string> := [
    "login", "signin", "sign-in", "account", "verify", "verification",
    "secure", "security", "update", "confirm", "password", "credential",
    "banking", "wallet", "suspend", "locked", "urgent", "alert",
    "authenticate", "validation", "recover", "restore", "unlock",
    "webscr", "customer", "client", "support", "service", "helpdesk"
  ]

  const NormalPorts: seq<string> := ["80", "443", "8080", "8443"]

  // ---------------------------------------------------------------------
  // Normalisation and domain extraction

  /** Prefixes `https://` unless the string already starts with `http`. */
  function WithScheme(url: string): string
  {
    if StartsWith(url, "http") then url else "https://" + url
  }

  /** The URL the analysis reports: the trimmed input, with a scheme added when it lacks one. */
  function Normalize(inputUrl: string): string
  {
    WithScheme(Trim(inputUrl))
  }

  /** The reported URL always starts with `http`; it is the trimmed input
      itself exactly when that already starts with `http`, and otherwise the
      trimmed input behind `https://`. */
  lemma NormalizeSpec(inputUrl: string)
    ensures StartsWith(Normalize(inputUrl), "http")
    ensures Normalize(inputUrl) == Trim(inputUrl) <==> StartsWith(Trim(inputUrl), "http")
    ensures !StartsWith(Trim(inputUrl), "http") ==> Normalize(inputUrl) == "https://" + Trim(inputUrl)
  {
    var t := Trim(inputUrl);
    if !StartsWith(t, "http") {
      assert |"https://" + t| != |t|;
      assert ("https://" + t)[..4] == "http";
    }
  }

  /** Normalising a normalised URL changes nothing. */
  lemma NormalizeIdempotent(inputUrl: string)
    ensures Normalize(Normalize(inputUrl)) == Normalize(inputUrl)
  {
    var t := Trim(inputUrl);
    var n := Normalize(inputUrl);
    TrimSpec(inputUrl);
    NormalizeSpec(inputUrl);
    if n != t {
      assert n == "https://" + t;
      assert n[0] == 'h';
      assert |t| > 0 ==> n[|n| - 1] == t[|t| - 1];
    }
    TrimOfTrimmed(n);
  }

  /** `extractDomain`: the parsed host name in lower case, or the whole
      string in lower case when the parser rejects it. */
  function ExtractDomain(url: string, parse: UrlParser): string
  {
    match parse(WithScheme(url))
    case Some(p) => Lower(p.hostname)
    case None => Lower(url)
  }

  /** The domain is always in lower case; it is the host name the parser
      reports, or, when the parser rejects the URL, the whole string. */
  lemma ExtractDomainSpec(url: string, parse: UrlParser)
    ensures forall k :: 0 <= k < |ExtractDomain(url, parse)| ==> !IsUpperLetter(ExtractDomain(url, parse)[k])
    ensures parse(WithScheme(url)).None? ==> ExtractDomain(url, parse) == Lower(url)
    ensures parse(WithScheme(url)).Some? ==> |ExtractDomain(url, parse)| == |parse(WithScheme(url)).value.hostname|
  {
    var d := ExtractDomain(url, parse);
    forall k | 0 <= k < |d|
      ensures !IsUpperLetter(d[k])
    {
      match parse(WithScheme(url))
      case Some(p) => assert d[k] == LowerChar(p.hostname[k]);
      case None => assert d[k] == LowerChar(url[k]);
    }
  }

  // ---------------------------------------------------------------------
  // IP literal: /\d{1,3}\.\d{1,3}\.\d{1,3}\.\d{1,3}/

  /** From `i` on, `groups` groups of one to three digits, separated by dots. */
  predicate IpGroupsAt(s: string, i: nat, groups: nat)
    requires groups >= 1
    decreases groups, 1
  {
    IpGroupOfLength(s, i, groups, 1) || IpGroupOfLength(s, i, groups, 2) || IpGroupOfLength(s, i, groups, 3)
  }

  /** The first of those groups has exactly `n` digits. */
  predicate IpGroupOfLength(s: string, i: nat, groups: nat, n: nat)
    requires groups >= 1
    decreases groups, 0
  {
    && i + n <= |s| && AllDigits(s[i..i + n])
    && (groups == 1 || (i + n < |s| && s[i + n] == '.' && IpGroupsAt(s, i + n + 1, groups - 1)))
  }

  /** `hasIpAddress`: a dotted quad of one-to-three-digit groups occurs somewhere. */
  predicate HasIpAddress(s: string)
  {
    exists i: nat :: i < |s| && IpGroupsAt(s, i, 4)
  }

  predicate IsDigitGroup(g: string)
  {
    1 <= |g| <= 3 && AllDigits(g)
  }

  /** One group `x` of digits starts at `i`, followed by `rest`. */
  lemma GroupAt(s: string, i: nat, groups: nat, x: string, rest: string)
    requires groups >= 1 && IsDigitGroup(x)
    requires i <= |s| && s[i..] == x + rest
    requires groups == 1 || (|rest| > 0 && rest[0] == '.' && IpGroupsAt(s, i + |x| + 1, groups - 1))
    ensures IpGroupsAt(s, i, groups)
  {
    assert s[i..i + |x|] == s[i..][..|x|] == x;
    if groups > 1 {
      assert s[i + |x|] == s[i..][|x|] == rest[0];
    }
    assert IpGroupOfLength(s, i, groups, |x|);
  }

  /** Groups written one after another with a dot between each two. */
  function Dotted(gs: seq<string>): string
    requires |gs| >= 1
  {
    if |gs| == 1 then gs[0] else gs[0] + "." + Dotted(gs[1..])
  }

  /** Digit groups joined by dots match `IpGroupsAt`, whatever follows them. */
  lemma {:induction false} GroupsFrom(s: string, i: nat, gs: seq<string>, post: string)
    requires |gs| >= 1 && forall k :: 0 <= k < |gs| ==> IsDigitGroup(gs[k])
    requires i <= |s| && s[i..] == Dotted(gs) + post
    ensures IpGroupsAt(s, i, |gs|)
    decreases |gs|
  {
    if |gs| == 1 {
      GroupAt(s, i, 1, gs[0], post);
    } else {
      var rest := Dotted(gs[1..]) + post;
      assert s[i..] == gs[0] + ("." + rest);
      assert s[i + |gs[0]| + 1..] == s[i..][|gs[0]| + 1..] == rest;
      GroupsFrom(s, i + |gs[0]| + 1, gs[1..], post);
      GroupAt(s, i, |gs|, gs[0], "." + rest);
    }
  }

  /** Any dotted quad with one to three digits per group is detected,
      wherever it stands in the URL. */
  lemma DottedQuadDetected(pre: string, a: string, b: string, c: string, d: string, post: string)
    requires IsDigitGroup(a) && IsDigitGroup(b) && IsDigitGroup(c) && IsDigitGroup(d)
    ensures HasIpAddress(pre + (a + "." + b + "." + c + "." + d) + post)
  {
    var gs := [a, b, c, d];
    assert Dotted(gs[3..]) == d;
    assert Dotted(gs[2..]) == c + "." + d;
    assert Dotted(gs[1..]) == b + "." + c + "." + d;
    assert Dotted(gs) == a + "." + b + "." + c + "." + d;
    var s := pre + (a + "." + b + "." + c + "." + d) + post;
    assert s[|pre|..] == Dotted(gs) + post;
    GroupsFrom(s, |pre|, gs, post);
    assert |pre| < |s| && IpGroupsAt(s, |pre|, 4);
  }

  /** A match starts with a digit, so a URL without digits never has an IP literal. */
  lemma NoDigitNoIp(s: string)
    requires forall k :: 0 <= k < |s| ==> !IsDigit(s[k])
    ensures !HasIpAddress(s)
  {
    forall i: nat | i < |s|
      ensures !IpGroupsAt(s, i, 4)
    {
      if i + 1 <= |s| { assert s[i..i + 1][0] == s[i]; }
      if i + 2 <= |s| { assert s[i..i + 2][0] == s[i]; }
      if i + 3 <= |s| { assert s[i..i + 3][0] == s[i]; }
    }
  }

  // ---------------------------------------------------------------------
  // Shorteners, top-level domains, subdomains

  /** `isUrlShortener`: the domain is a listed shortener or a subdomain of one. */
  predicate IsUrlShortener(domain: string)
  {
    exists e :: e in UrlShorteners && DomainOrSubdomain(domain, e)
  }

  /** `domain === e || domain.endsWith('.' + e)` */
  predicate DomainOrSubdomain(domain: string, e: string)
  {
    domain == e || EndsWith(domain, "." + e)
  }

  /** A subdomain of `e` or of one of its subdomains is a subdomain of `e`. */
  lemma SubdomainOf(host: string, domain: string, e: string)
    requires DomainOrSubdomain(domain, e)
    ensures DomainOrSubdomain(host + "." + domain, e)
  {
    var sub := host + "." + domain;
    if domain == e {
      EndsWithAppended(host, "." + e);
      assert sub == host + ("." + e);
    } else {
      EndsWithAppended(host + ".", domain);
      EndsWithTrans(sub, domain, "." + e);
    }
  }

  /** Every subdomain of a shortener's domain is a shortener too. */
  lemma ShortenerSubdomain(host: string, domain: string)
    requires IsUrlShortener(domain)
    ensures IsUrlShortener(host + "." + domain)
  {
    var e :| e in UrlShorteners && DomainOrSubdomain(domain, e);
    SubdomainOf(host, domain, e);
  }

  /** `hasSuspiciousTld`: the domain ends with one of the listed extensions. */
  predicate HasSuspiciousTld(domain: string)
  {
    exists t :: t in SuspiciousTlds && EndsWith(domain, t)
  }

  /** Whatever stands before a suspicious extension, it stays suspicious. */
  lemma SuspiciousTldPrefix(x: string, domain: string)
    requires HasSuspiciousTld(domain)
    ensures HasSuspiciousTld(x + domain)
  {
    var t :| t in SuspiciousTlds && EndsWith(domain, t);
    EndsWithAppended(x, domain);
    EndsWithTrans(x + domain, domain, t);
  }

  /** `hasExcessiveSubdomains`: more than four dot-separated labels. */
  predicate HasExcessiveSubdomains(domain: string)
  {
    |Split(domain, '.')| > 4
  }

  /** Five labels or more is the same as four dots or more. */
  lemma ExcessiveSubdomainsByDots(domain: string)
    ensures HasExcessiveSubdomains(domain) <==> CountChar(domain, '.') >= 4
  {
    SplitSpec(domain, '.');
  }

  // ---------------------------------------------------------------------
  // Brand impersonation

  /** The nine "brand plus suspicious addition" shapes checked for a brand. */
  function AffixPatterns(brand: string): seq<string>
  {
    [ brand + "-secure", brand + "-login", brand + "-verify",
      brand + "security", brand + "support", "secure" + brand,
      "login" + brand, "my" + brand, brand + "account" ]
  }

  /** Some misspelling of the brand occurs in the (lower-cased) domain. */
  predicate TypoHit(d: string, b: Brand)
  {
    exists t :: t in b.typos && Contains(d, t)
  }

  /** The brand occurs with a suspicious addition, and the domain is not the
      brand's own `.com` site or one of its subdomains. */
  predicate AffixHit(d: string, b: Brand)
  {
    && Contains(d, b.name)
    && !EndsWith(d, "." + b.name + ".com")
    && exists p :: p in AffixPatterns(b.name) && Contains(d, p)
  }

  predicate BrandHit(d: string, b: Brand)
  {
    TypoHit(d, b) || AffixHit(d, b)
  }

  /** The description reported for a brand the domain impersonates. */
  function BrandMessage(d: string, b: Brand): string
  {
    if TypoHit(d, b) then "Possible typosquatting of \"" + b.name + "\""
    else "Suspicious use of \"" + b.name + "\" brand name"
  }

  /** The message for the first brand, from index `k` of the table on, that the domain hits. */
  function FirstBrandHit(d: string, k: nat): Option<string>
    decreases |TargetBrands| - k
  {
    if k >= |TargetBrands| then None
    else if BrandHit(d, TargetBrands[k]) then Some(BrandMessage(d, TargetBrands[k]))
    else FirstBrandHit(d, k + 1)
  }

  /** What `detectTyposquatting` returns for a domain. */
  function TyposquatVerdict(domain: string): Option<string>
  {
    FirstBrandHit(Lower(domain), 0)
  }

  /** Brand `k` is hit and no brand before it in the table is. */
  predicate IsFirstHit(d: string, k: int)
  {
    && 0 <= k < |TargetBrands| && BrandHit(d, TargetBrands[k])
    && forall j :: 0 <= j < k ==> !BrandHit(d, TargetBrands[j])
  }

  lemma {:induction false} FirstBrandHitSpec(d: string, k: nat)
    requires k <= |TargetBrands|
    requires forall j :: 0 <= j < k ==> !BrandHit(d, TargetBrands[j])
    ensures FirstBrandHit(d, k).None? <==> forall j :: k <= j < |TargetBrands| ==> !BrandHit(d, TargetBrands[j])
    ensures FirstBrandHit(d, k).Some? ==>
      exists j :: IsFirstHit(d, j) && FirstBrandHit(d, k).value == BrandMessage(d, TargetBrands[j])
    decreases |TargetBrands| - k
  {
    if k < |TargetBrands| {
      if BrandHit(d, TargetBrands[k]) {
        assert IsFirstHit(d, k);
      } else {
        FirstBrandHitSpec(d, k + 1);
      }
    }
  }

  /** The verdict names no brand exactly when the lower-cased domain hits
      none, and otherwise describes the first brand in table order it hits. */
  lemma TyposquatVerdictSpec(domain: string)
    ensures TyposquatVerdict(domain).None? <==>
      forall j :: 0 <= j < |TargetBrands| ==> !BrandHit(Lower(domain), TargetBrands[j])
    ensures TyposquatVerdict(domain).Some? ==>
      exists j :: IsFirstHit(Lower(domain), j) && TyposquatVerdict(domain).value == BrandMessage(Lower(domain), TargetBrands[j])
  {
    FirstBrandHitSpec(Lower(domain), 0);
  }

  /** `detectTyposquatting`: for each brand in turn, look for a misspelling,
      then for the brand with a suspicious addition; stop at the first hit. */
  method DetectTyposquatting(domain: string) returns (r: Option<string>)
    ensures r == TyposquatVerdict(domain)
  {
    var d := Lower(domain);
    var k := 0;
    while k < |TargetBrands|
      invariant k <= |TargetBrands|
      invariant FirstBrandHit(d, k) == FirstBrandHit(d, 0)
    {
      var brand := TargetBrands[k];
      var t := 0;
      while t < |brand.typos|
        invariant t <= |brand.typos|
        invariant forall u :: 0 <= u < t ==> !Contains(d, brand.typos[u])
      {
        if Contains(d, brand.typos[t]) {
          assert TypoHit(d, brand);
          return Some("Possible typosquatting of \"" + brand.name + "\"");
        }
        t := t + 1;
      }
      assert !TypoHit(d, brand);
      if Contains(d, brand.name) && !EndsWith(d, "." + brand.name + ".com") {
        var patterns := AffixPatterns(brand.name);
        var p := 0;
        while p < |patterns|
          invariant p <= |patterns|
          invariant forall q :: 0 <= q < p ==> !Contains(d, patterns[q])
        {
          if Contains(d, patterns[p]) {
            assert AffixHit(d, brand);
            return Some("Suspicious use of \"" + brand.name + "\" brand name");
          }
          p := p + 1;
        }
      }
      assert !BrandHit(d, brand);
      k := k + 1;
    }
    return None;
  }

  // ---------------------------------------------------------------------
  // Keywords, encoding, port

  /** `words.filter(w => s.includes(w))` */
  function FilterContained(s: string, words: seq<string>): seq<string>
  {
    if |words| == 0 then []
    else (if Contains(s, words[0]) then [words[0]] else []) + FilterContained(s, words[1..])
  }

  /** The filter keeps exactly the words that occur, in the table's order. */
  lemma {:induction false} FilterContainedSpec(s: string, words: seq<string>)
    ensures forall w :: w in FilterContained(s, words) <==> w in words && Contains(s, w)
    ensures IsSubsequence(FilterContained(s, words), words)
  {
    if |words| > 0 {
      FilterContainedSpec(s, words[1..]);
      var rest := FilterContained(s, words[1..]);
      if Contains(s, words[0]) {
        assert ([words[0]] + rest)[1..] == rest;
      } else {
        assert [] + rest == rest;
      }
    }
  }

  /** `findSuspiciousKeywords`: the listed keywords occurring in the lower-cased URL. */
  function FindSuspiciousKeywords(url: string): seq<string>
  {
    FilterContained(Lower(url), PhishingKeywords)
  }

  /** Non-overlapping `%XX` escapes from `i` on, scanning left to right as a global match does. */
  function EncodedCount(s: string, i: nat): nat
    decreases |s| - i
  {
    if i + 3 > |s| then 0
    else if EscapeAt(s, i) then 1 + EncodedCount(s, i + 3)
    else EncodedCount(s, i + 1)
  }

  /** Each escape takes three characters. */
  lemma {:induction false} EncodedCountBound(s: string, i: nat)
    requires i <= |s|
    ensures 3 * EncodedCount(s, i) <= |s| - i
    decreases |s| - i
  {
    if i + 3 <= |s| {
      if EscapeAt(s, i) {
        EncodedCountBound(s, i + 3);
      } else {
        EncodedCountBound(s, i + 1);
      }
    }
  }

  /** `hasEncodedCharacters`: more than three escapes. */
  predicate HasEncodedCharacters(url: string)
  {
    EncodedCount(url, 0) > 3
  }

  /** An escape `%XX` starts at `p`. */
  predicate EscapeAt(s: string, p: nat)
  {
    p + 3 <= |s| && s[p] == '%' && IsHexDigit(s[p + 1]) && IsHexDigit(s[p + 2])
  }

  /** Without a `%` from `i` on, nothing is counted. */
  lemma {:induction false} EncodedCountNoPercent(s: string, i: nat)
    requires forall k :: i <= k < |s| ==> s[k] != '%'
    ensures EncodedCount(s, i) == 0
    decreases |s| - i
  {
    if i + 3 <= |s| {
      EncodedCountNoPercent(s, i + 1);
    }
  }

  /** Escapes at positions `ps`, in increasing order and each starting at
      least three characters after the one before, are all counted. */
  lemma {:induction false} EncodedCountAtLeast(s: string, i: nat, ps: seq<nat>)
    requires forall m :: 0 <= m < |ps| ==> i <= ps[m] && EscapeAt(s, ps[m])
    requires forall m, n :: 0 <= m < n < |ps| ==> ps[m] + 3 <= ps[n]
    ensures EncodedCount(s, i) >= |ps|
    decreases |s| - i
  {
    if |ps| > 0 {
      assert EscapeAt(s, ps[0]);
      if EscapeAt(s, i) {
        if ps[0] == i {
          EncodedCountAtLeast(s, i + 3, ps[1..]);
        } else {
          assert ps[0] != i + 1 && ps[0] != i + 2 by {
            assert !IsHexDigit('%');
          }
          EncodedCountAtLeast(s, i + 3, ps);
        }
      } else {
        EncodedCountAtLeast(s, i + 1, ps);
      }
    }
  }

  /** A URL without `%` is never flagged, and four well-separated escapes
      always flag it. */
  lemma EncodedCharactersSpec(url: string, ps: seq<nat>)
    requires forall m :: 0 <= m < |ps| ==> EscapeAt(url, ps[m])
    requires forall m, n :: 0 <= m < n < |ps| ==> ps[m] + 3 <= ps[n]
    ensures (forall k :: 0 <= k < |url| ==> url[k] != '%') ==> !HasEncodedCharacters(url)
    ensures |ps| >= 4 ==> HasEncodedCharacters(url)
  {
    if forall k :: 0 <= k < |url| ==> url[k] != '%' {
      EncodedCountNoPercent(url, 0);
    }
    EncodedCountAtLeast(url, 0, ps);
  }

  /** `hasUnusualPort`: the parser reports an explicit, non-default port
      outside 80, 443, 8080 and 8443; a rejected URL has none. */
  predicate HasUnusualPort(url: string, parse: UrlParser)
  {
    match parse(WithScheme(url))
    case Some(p) => p.port != "" && p.port !in NormalPorts
    case None => false
  }

  /** A URL the parser rejects, or one without an explicit port, is never
      flagged; a flagged one has a port other than 80, 443, 8080 and 8443,
      and every other explicit port is flagged. */
  lemma UnusualPortSpec(url: string, parse: UrlParser)
    ensures parse(WithScheme(url)).None? ==> !HasUnusualPort(url, parse)
    ensures parse(WithScheme(url)).Some? && parse(WithScheme(url)).value.port == "" ==> !HasUnusualPort(url, parse)
    ensures HasUnusualPort(url, parse) <==>
      && parse(WithScheme(url)).Some?
      && var port := parse(WithScheme(url)).value.port;
        port != "" && port != "80" && port != "443" && port != "8080" && port != "8443"
  {
  }

  // ---------------------------------------------------------------------
  // The report

  /** The raw signals the analysis of `inputUrl` reports in `details`. */
  function Signals(inputUrl: string, parse: UrlParser): Details
  {
    var url := Trim(inputUrl);
    var protocol := match parse(WithScheme(url))
      case Some(p) => RemoveFirst(p.protocol, ':')
      case None => "unknown";
    var domain := ExtractDomain(url, parse);
    Details(
      protocol, protocol == "https", HasIpAddress(url), IsUrlShortener(domain),
      HasSuspiciousTld(domain), TyposquatVerdict(domain), HasExcessiveSubdomains(domain),
      FindSuspiciousKeywords(url), HasEncodedCharacters(url), HasUnusualPort(url, parse))
  }

  const HttpsName := "HTTPS Protocol"
  const IpName := "IP Address URL"
  const ShortenerName := "URL Shortener"
  const TldName := "Domain Extension"
  const BrandName := "Brand Impersonation"
  const SubdomainName := "Subdomain Structure"
  const KeywordsName := "Suspicious Keywords"
  const EncodingName := "URL Encoding"
  const PortName := "Port Number"

  /** The check names, in report order. */
  const CheckNames: seq<string> := [
    HttpsName, IpName, ShortenerName, TldName, BrandName,
    SubdomainName, KeywordsName, EncodingName, PortName
  ]

  /** Whether check `k` (in report order) fires. */
  predicate Triggered(d: Details, k: nat)
    requires k < 9
  {
    match k
    case 0 => !d.isHttps
    case 1 => d.hasIpAddress
    case 2 => d.isUrlShortener
    case 3 => d.suspiciousTld
    case 4 => d.typosquatting.Some?
    case 5 => d.excessiveSubdomains
    case 6 => |d.suspiciousKeywords| > 0
    case 7 => d.encodedCharacters
    case _ => d.unusualPort
  }

  // Descriptions and warning texts, as the analyser words them.
  const HttpsSafe := "Uses secure HTTPS connection"
  const HttpsDanger := "Not using secure HTTPS connection"
  const IpDanger := "URL contains IP address instead of domain"
  const IpSafe := "Uses proper domain name"
  const ShortenerAlert := "Uses URL shortening service"
  const ShortenerSafe := "Not a shortened URL"
  const TldAlert := "Uses suspicious top-level domain"
  const TldSafe := "Uses common top-level domain"
  const BrandSafe := "No obvious brand impersonation detected"
  const SubdomainAlert := "Excessive subdomains detected"
  const SubdomainSafe := "Normal subdomain structure"
  const KeywordsFound := "Found: "
  const KeywordsSafe := "No phishing keywords detected"
  const EncodingAlert := "Excessive URL encoding detected"
  const EncodingSafe := "Normal URL encoding"
  const PortAlert := "Uses unusual port number"
  const HttpsWarning := "Website does not use HTTPS encryption"
  const IpWarning := "Legitimate sites rarely use IP addresses in URLs"
  const ShortenerWarning := "URL shorteners can hide malicious destinations"
  const TldWarning := "This domain extension is commonly used in phishing"
  const SubdomainWarning := "Too many subdomains can indicate phishing"
  const KeywordsWarning := "URL contains phishing-related keywords: "
  const EncodingWarning := "Excessive encoding may hide malicious content"
  const PortWarning := "Unusual port numbers can indicate phishing"
  const ListSeparator := ", "

  /** The entry check `k` contributes to `checks`. */
  function CheckAt(d: Details, k: nat): Check
    requires k < 9
  {
    match k
    case 0 =>
      if d.isHttps then Check(HttpsName, Safe, HttpsSafe)
      else Check(HttpsName, Danger, HttpsDanger)
    case 1 =>
      if d.hasIpAddress then Check(IpName, Danger, IpDanger)
      else Check(IpName, Safe, IpSafe)
    case 2 =>
      if d.isUrlShortener then Check(ShortenerName, Warning, ShortenerAlert)
      else Check(ShortenerName, Safe, ShortenerSafe)
    case 3 =>
      if d.suspiciousTld then Check(TldName, Warning, TldAlert)
      else Check(TldName, Safe, TldSafe)
    case 4 =>
      if d.typosquatting.Some? then Check(BrandName, Danger, d.typosquatting.value)
      else Check(BrandName, Safe, BrandSafe)
    case 5 =>
      if d.excessiveSubdomains then Check(SubdomainName, Warning, SubdomainAlert)
      else Check(SubdomainName, Safe, SubdomainSafe)
    case 6 =>
      var kw := d.suspiciousKeywords;
      if |kw| > 0 then
        Check(KeywordsName, if |kw| >= 2 then Danger else Warning, KeywordsFound + JoinWith(Take(kw, 3), ListSeparator))
      else Check(KeywordsName, Safe, KeywordsSafe)
    case 7 =>
      if d.encodedCharacters then Check(EncodingName, Warning, EncodingAlert)
      else Check(EncodingName, Safe, EncodingSafe)
    case _ =>
      Check(PortName, Warning, PortAlert)
  }

  /** The warning check `k` adds when it fires. */
  function WarningText(d: Details, k: nat): string
    requires k < 9
  {
    match k
    case 0 => HttpsWarning
    case 1 => IpWarning
    case 2 => ShortenerWarning
    case 3 => TldWarning
    case 4 => BrandWarning(d)
    case 5 => SubdomainWarning
    case 6 => KeywordsWarning + JoinWith(d.suspiciousKeywords, ListSeparator)
    case 7 => EncodingWarning
    case _ => PortWarning
  }

  /** The points check `k` adds when it fires. */
  function Points(d: Details, k: nat): nat
    requires k < 9
  {
    match k
    case 0 => 15
    case 1 => 25
    case 2 => 20
    case 3 => 15
    case 4 => 30
    case 5 => 10
    case 6 => 8 * |d.suspiciousKeywords|
    case 7 => 10
    case _ => 10
  }


  /** The brand check's message, when it fires. */
  function BrandWarning(d: Details): string
  {
    match d.typosquatting
    case Some(m) => m
    case None => ""
  }

  /** The report's three accumulators: the checks, the warnings and the raw score. */
  datatype Tally = Tally(checks: seq<Check>, warnings: seq<string>, score: int)

  /** Whether check `k` is listed at all: all are but the port check, which
      appears only when it fires. */
  predicate Listed(d: Details, k: nat)
  {
    k < 8 || d.unusualPort
  }

  /** Running check `k`: a listed check is pushed, and a check that fires
      adds its points and its warning. */
  function Step(t: Tally, d: Details, k: nat): Tally
    requires k < 9
  {
    if !Listed(d, k) then t
    else if Triggered(d, k) then
      Tally(t.checks + [CheckAt(d, k)], t.warnings + [WarningText(d, k)], t.score + Points(d, k))
    else
      Tally(t.checks + [CheckAt(d, k)], t.warnings, t.score)
  }

  /** The accumulators once the first `n` checks ran, in report order. */
  function TallyAfter(d: Details, n: nat): Tally
    requires n <= 9
  {
    if n == 0 then Tally([], [], 0) else Step(TallyAfter(d, n - 1), d, n - 1)
  }

  /** The raw score as a weighted sum of the signals. */
  function RawScore(d: Details): int
  {
    (if !d.isHttps then 15 else 0)
    + (if d.hasIpAddress then 25 else 0)
    + (if d.isUrlShortener then 20 else 0)
    + (if d.suspiciousTld then 15 else 0)
    + (if d.typosquatting.Some? then 30 else 0)
    + (if d.excessiveSubdomains then 10 else 0)
    + 8 * |d.suspiciousKeywords|
    + (if d.encodedCharacters then 10 else 0)
    + (if d.unusualPort then 10 else 0)
  }

  /** Block `k` of the analysis: it pushes the check's entry and, when the
      check fires, adds its points and pushes its warning. */
  method RunCheck(t: Tally, d: Details, k: nat) returns (r: Tally)
    requires k < 9
    ensures r == Step(t, d, k)
  {
    var checks, warnings, score := t.checks, t.warnings, t.score;
    match k {
      case 0 =>
        if d.isHttps {
          checks := checks + [Check(HttpsName, Safe, HttpsSafe)];
        } else {
          checks := checks + [Check(HttpsName, Danger, HttpsDanger)];
          score := score + 15;
          warnings := warnings + [HttpsWarning];
        }
      case 1 =>
        if d.hasIpAddress {
          checks := checks + [Check(IpName, Danger, IpDanger)];
          score := score + 25;
          warnings := warnings + [IpWarning];
        } else {
          checks := checks + [Check(IpName, Safe, IpSafe)];
        }
      case 2 =>
        if d.isUrlShortener {
          checks := checks + [Check(ShortenerName, Warning, ShortenerAlert)];
          score := score + 20;
          warnings := warnings + [ShortenerWarning];
        } else {
          checks := checks + [Check(ShortenerName, Safe, ShortenerSafe)];
        }
      case 3 =>
        if d.suspiciousTld {
          checks := checks + [Check(TldName, Warning, TldAlert)];
          score := score + 15;
          warnings := warnings + [TldWarning];
        } else {
          checks := checks + [Check(TldName, Safe, TldSafe)];
        }
      case 4 =>
        match d.typosquatting {
          case Some(message) =>
            checks := checks + [Check(BrandName, Danger, message)];
            score := score + 30;
            warnings := warnings + [message];
          case None =>
            checks := checks + [Check(BrandName, Safe, BrandSafe)];
        }
      case 5 =>
        if d.excessiveSubdomains {
          checks := checks + [Check(SubdomainName, Warning, SubdomainAlert)];
          score := score + 10;
          warnings := warnings + [SubdomainWarning];
        } else {
          checks := checks + [Check(SubdomainName, Safe, SubdomainSafe)];
        }
      case 6 =>
        var keywords := d.suspiciousKeywords;
        if |keywords| > 0 {
          var status := if |keywords| >= 2 then Danger else Warning;
          checks := checks + [Check(KeywordsName, status, KeywordsFound + JoinWith(Take(keywords, 3), ListSeparator))];
          score := score + |keywords| * 8;
          warnings := warnings + [KeywordsWarning + JoinWith(keywords, ListSeparator)];
        } else {
          checks := checks + [Check(KeywordsName, Safe, KeywordsSafe)];
        }
      case 7 =>
        if d.encodedCharacters {
          checks := checks + [Check(EncodingName, Warning, EncodingAlert)];
          score := score + 10;
          warnings := warnings + [EncodingWarning];
        } else {
          checks := checks + [Check(EncodingName, Safe, EncodingSafe)];
        }
      case 8 =>
        // The port check is listed only when it fires.
        if d.unusualPort {
          checks := checks + [Check(PortName, Warning, PortAlert)];
          score := score + 10;
          warnings := warnings + [PortWarning];
        }
    }
    r := Tally(checks, warnings, score);
  }

  /** `analyzeUrl`: runs the nine checks in order, appending each check,
      and adding its points and appending its warning when it fires. */
  method AnalyzeUrl(inputUrl: string, parse: UrlParser) returns (r: UrlAnalysisResult)
    ensures r.url == Normalize(inputUrl)
    ensures r.domain == ExtractDomain(Trim(inputUrl), parse)
    ensures r.details == Signals(inputUrl, parse)
    ensures r.checks == TallyAfter(r.details, 9).checks
    ensures r.warnings == TallyAfter(r.details, 9).warnings
    ensures r.overallScore == Clamp(TallyAfter(r.details, 9).score, 0, 100)
  {
    var url := Trim(inputUrl);
    var fullUrl := WithScheme(url);
    var protocol := "unknown";
    var isHttps := false;
    match parse(fullUrl) {
      case Some(p) =>
        protocol := RemoveFirst(p.protocol, ':');
        isHttps := protocol == "https";
      case None =>
    }
    var domain := ExtractDomain(url, parse);
    var hasIp := HasIpAddress(url);
    var isShortener := IsUrlShortener(domain);
    var suspiciousTld := HasSuspiciousTld(domain);
    var typosquatResult := DetectTyposquatting(domain);
    var excessiveSubs := HasExcessiveSubdomains(domain);
    var keywords := FindSuspiciousKeywords(url);
    var hasEncoded := HasEncodedCharacters(url);
    var unusualPort := HasUnusualPort(url, parse);
    var d := Details(
      protocol, isHttps, hasIp, isShortener, suspiciousTld, typosquatResult,
      excessiveSubs, keywords, hasEncoded, unusualPort);

    var t := Tally([], [], 0);
    t := RunCheck(t, d, 0);  // HTTPS
    assert t == TallyAfter(d, 1);
    t := RunCheck(t, d, 1);  // IP address
    assert t == TallyAfter(d, 2);
    t := RunCheck(t, d, 2);  // URL shortener
    assert t == TallyAfter(d, 3);
    t := RunCheck(t, d, 3);  // suspicious top-level domain
    assert t == TallyAfter(d, 4);
    t := RunCheck(t, d, 4);  // typosquatting
    assert t == TallyAfter(d, 5);
    t := RunCheck(t, d, 5);  // excessive subdomains
    assert t == TallyAfter(d, 6);
    t := RunCheck(t, d, 6);  // phishing keywords
    assert t == TallyAfter(d, 7);
    t := RunCheck(t, d, 7);  // encoded characters
    assert t == TallyAfter(d, 8);
    t := RunCheck(t, d, 8);  // unusual port
    assert t == TallyAfter(d, 9);

    r := UrlAnalysisResult(fullUrl, domain, Clamp(t.score, 0, 100), t.checks, t.warnings, d);
  }

  // ---------------------------------------------------------------------
  // What the report promises

  /** Every check carries its fixed name, and it is "safe" exactly when it
      does not fire; the keyword check is a danger from two keywords on. */
  lemma CheckAtSpec(d: Details, k: nat)
    requires k < 9
    ensures CheckAt(d, k).name == CheckNames[k]
    ensures k < 8 ==> (CheckAt(d, k).status == Safe <==> !Triggered(d, k))
    ensures k == 6 ==> (CheckAt(d, k).status == Danger <==> |d.suspiciousKeywords| >= 2)
    ensures k == 8 ==> CheckAt(d, k).status == Warning
  {
  }

  /** Number of entries of `cs` whose status is not "safe". */
  function AlertCount(cs: seq<Check>): nat
  {
    if |cs| == 0 then 0
    else AlertCount(cs[..|cs| - 1]) + (if cs[|cs| - 1].status == Safe then 0 else 1)
  }

  /** After `n` checks, the listed checks, each as `CheckAt` gives it, in order. */
  lemma {:induction false} TallyChecks(d: Details, n: nat)
    requires n <= 9
    ensures |TallyAfter(d, n).checks| == if n == 9 && d.unusualPort then 9 else Min(n, 8)
    ensures forall k :: 0 <= k < |TallyAfter(d, n).checks| ==> TallyAfter(d, n).checks[k] == CheckAt(d, k)
  {
    if n > 0 {
      TallyChecks(d, n - 1);
      var t := TallyAfter(d, n - 1);
      var cs := TallyAfter(d, n).checks;
      if Listed(d, n - 1) {
        assert cs == t.checks + [CheckAt(d, n - 1)];
        assert |t.checks| == n - 1;
      } else {
        assert n == 9 && cs == t.checks;
      }
    }
  }

  /** After `n` checks, one warning per listed entry that is not "safe". */
  lemma {:induction false} TallyWarnings(d: Details, n: nat)
    requires n <= 9
    ensures |TallyAfter(d, n).warnings| == AlertCount(TallyAfter(d, n).checks)
  {
    if n > 0 {
      TallyWarnings(d, n - 1);
      var t := TallyAfter(d, n - 1);
      var k := n - 1;
      if Listed(d, k) {
        CheckAtSpec(d, k);
        var cs := t.checks + [CheckAt(d, k)];
        assert cs[..|cs| - 1] == t.checks;
      }
    }
  }

  /** The warnings of the first `n` checks whose entries are not "safe", in check order. */
  function AlertTexts(d: Details, n: nat): seq<string>
    requires n <= 9
  {
    if n == 0 then []
    else if Listed(d, n - 1) && CheckAt(d, n - 1).status != Safe then AlertTexts(d, n - 1) + [WarningText(d, n - 1)]
    else AlertTexts(d, n - 1)
  }

  /** The warnings raised are exactly those of the entries that are not "safe". */
  lemma {:induction false} TallyAlerts(d: Details, n: nat)
    requires n <= 9
    ensures TallyAfter(d, n).warnings == AlertTexts(d, n)
  {
    if n > 0 {
      TallyAlerts(d, n - 1);
      CheckAtSpec(d, n - 1);
    }
  }

  /** The raw score never goes below zero, and it is zero exactly when no
      warning was raised. */
  lemma {:induction false} TallyScore(d: Details, n: nat)
    requires n <= 9
    ensures TallyAfter(d, n).score >= 0
    ensures TallyAfter(d, n).score == 0 <==> TallyAfter(d, n).warnings == []
  {
    if n > 0 {
      TallyScore(d, n - 1);
    }
  }

  /** The points check `k` adds to the score. */
  function Gain(d: Details, k: nat): nat
    requires k < 9
  {
    if Listed(d, k) && Triggered(d, k) then Points(d, k) else 0
  }

  /** The points of the first `n` checks. */
  function GainBefore(d: Details, n: nat): nat
    requires n <= 9
  {
    if n == 0 then 0 else GainBefore(d, n - 1) + Gain(d, n - 1)
  }

  lemma {:induction false} TallyScoreSum(d: Details, n: nat)
    requires n <= 9
    ensures TallyAfter(d, n).score == GainBefore(d, n)
  {
    if n > 0 {
      TallyScoreSum(d, n - 1);
    }
  }

  /** What each check adds, signal by signal. */
  lemma GainSpec(d: Details)
    ensures Gain(d, 0) == (if !d.isHttps then 15 else 0)
    ensures Gain(d, 1) == (if d.hasIpAddress then 25 else 0)
    ensures Gain(d, 2) == (if d.isUrlShortener then 20 else 0)
    ensures Gain(d, 3) == (if d.suspiciousTld then 15 else 0)
    ensures Gain(d, 4) == (if d.typosquatting.Some? then 30 else 0)
    ensures Gain(d, 5) == (if d.excessiveSubdomains then 10 else 0)
    ensures Gain(d, 6) == 8 * |d.suspiciousKeywords|
    ensures Gain(d, 7) == (if d.encodedCharacters then 10 else 0)
    ensures Gain(d, 8) == (if d.unusualPort then 10 else 0)
  {
  }

  /** The accumulated score is the weighted sum of the signals. */
  lemma RawScoreSpec(d: Details)
    ensures TallyAfter(d, 9).score == RawScore(d)
  {
    TallyScoreSum(d, 9);
    assert GainBefore(d, 1) == GainBefore(d, 0) + Gain(d, 0);
    assert GainBefore(d, 2) == GainBefore(d, 1) + Gain(d, 1);
    assert GainBefore(d, 3) == GainBefore(d, 2) + Gain(d, 2);
    assert GainBefore(d, 4) == GainBefore(d, 3) + Gain(d, 3);
    assert GainBefore(d, 5) == GainBefore(d, 4) + Gain(d, 4);
    assert GainBefore(d, 6) == GainBefore(d, 5) + Gain(d, 5);
    assert GainBefore(d, 7) == GainBefore(d, 6) + Gain(d, 6);
    assert GainBefore(d, 8) == GainBefore(d, 7) + Gain(d, 7);
    assert GainBefore(d, 9) == GainBefore(d, 8) + Gain(d, 8);
    GainSpec(d);
  }

  /** The report's shape: eight checks, or nine when the port is unusual,
      under their fixed names in order; one warning per entry that is not
      "safe", in the same order; and a score that is the weighted sum of the
      signals capped at 100, zero exactly when nothing was flagged. */
  lemma ReportSpec(d: Details)
    ensures var t := TallyAfter(d, 9);
      && |t.checks| == (if d.unusualPort then 9 else 8)
      && (forall k :: 0 <= k < |t.checks| ==> t.checks[k] == CheckAt(d, k) && t.checks[k].name == CheckNames[k])
      && t.warnings == AlertTexts(d, 9)
      && |t.warnings| == AlertCount(t.checks)
      && Clamp(t.score, 0, 100) == Min(100, RawScore(d))
      && (Clamp(t.score, 0, 100) == 0 <==> t.warnings == [])
  {
    var t := TallyAfter(d, 9);
    TallyChecks(d, 9);
    TallyAlerts(d, 9);
    TallyWarnings(d, 9);
    TallyScore(d, 9);
    RawScoreSpec(d);
    forall k | 0 <= k < |t.checks|
      ensures t.checks[k].name == CheckNames[k]
    {
      CheckAtSpec(d, k);
    }
  }
}
