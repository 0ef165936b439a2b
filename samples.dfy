/** The sample inputs the user interface offers — a phishing URL
    (src/components/UrlAnalyzer.tsx:28) and a phishing message
    (src/components/EmailInput.tsx:25-52) — and what the analyzers are proved
    to report for them. Long literals are assembled from short parts, and each
    fact is proved once for any text of the same shape. */
module Samples {
  import opened Text
  import opened UrlAnalyzer
  import opened EmailAnalyzer

  // ---------------------------------------------------------------------
  // The sample URL

  /** The parts of the sample URL between the scheme and the path. */
  const SampleHostParts: seq<string> := ["bankofamerica-", "secure", "-", "login", ".suspicious-domain", ".xyz"]

  /** The sample URL's host name. */
  function SampleHost(): string { Concat(SampleHostParts) }

  /** The parts of the sample URL's path and query. */
  const SampleTailParts: seq<string> := ["/", "verify", "?id=12345&", "account", "=", "confirm"]

  function SampleTail(): string { Concat(SampleTailParts) }

  /** The sample URL offered by the URL form, cut where the analysis looks. */
  function SampleUrl(): string { "http://" + SampleHost() + SampleTail() }

  /** The host name is already in lower case. */
  lemma SampleHostLower()
    ensures Lower(SampleHost()) == SampleHost()
  {
    var hp := SampleHostParts;
    assert Lower(hp[0]) == hp[0];
    assert Lower(hp[1]) == hp[1];
    assert Lower(hp[2]) == hp[2];
    assert Lower(hp[3]) == hp[3];
    assert Lower(hp[4]) == hp[4];
    assert Lower(hp[5]) == hp[5];
    ConcatLower(hp);
  }

  /** Its `.xyz` extension is on the suspicious list. */
  lemma SampleHostTld()
    ensures HasSuspiciousTld(SampleHost())
  {
    ConcatSuffix(SampleHostParts);
    assert ".xyz" in SuspiciousTlds;
  }

  /** A lower-case domain that contains a listed brand's name followed by
      `-secure`, and is not the brand's own `.com` site or one under it,
      imitates a brand. */
  lemma BrandVia(d: string, k: nat)
    requires k < |TargetBrands| && Lower(d) == d
    requires Contains(d, TargetBrands[k].name + "-secure")
    requires !EndsWith(d, "." + TargetBrands[k].name + ".com")
    ensures TyposquatVerdict(d).Some?
  {
    var b := TargetBrands[k];
    ContainsPrefixOf(d, b.name, "-secure");
    assert AffixPatterns(b.name)[0] in AffixPatterns(b.name);
    assert AffixHit(d, b);
    TyposquatVerdictSpec(d);
  }

  /** The host name contains `bankofamerica-secure`. */
  lemma SampleHostSecure()
    ensures Contains(SampleHost(), "bankofamerica" + "-secure")
  {
    var hp := SampleHostParts;
    assert hp[0] + hp[1] == "bankofamerica" + "-secure";
    assert MatchesAt(hp[0] + hp[1], 0, hp[0] + hp[1]);
    ConcatContainsPair(hp, 0, hp[0] + hp[1]);
  }

  /** The host name is not `bankofamerica.com` or a host under it. */
  lemma SampleHostNotOwn()
    ensures !EndsWith(SampleHost(), "." + "bankofamerica" + ".com")
  {
    var hp := SampleHostParts;
    var d := SampleHost();
    ConcatSuffix(hp);
    var own := "." + "bankofamerica" + ".com";
    assert d[|d| - 4..][3] == 'z';
    if |own| <= |d| {
      assert d[|d| - |own|..][|own| - 1] == d[|d| - 1];
    }
  }

  /** It imitates a brand: `bankofamerica-secure` is one of the nine
      suspicious additions, and the host is not `bankofamerica.com`'s own. */
  lemma SampleHostBrand()
    ensures TyposquatVerdict(SampleHost()).Some?
  {
    SampleHostLower();
    SampleHostSecure();
    SampleHostNotOwn();
    assert TargetBrands[13].name == "bankofamerica";
    BrandVia(SampleHost(), 13);
  }

  /** A text that starts and ends with visible characters is already
      trimmed, and starts as its first piece does. */
  lemma TrimmedVia(a: string, m: string, b: string, p: string)
    requires StartsWith(a, p) && |a| > 0 && !IsWhitespace(a[0])
    requires |b| > 0 && !IsWhitespace(b[|b| - 1])
    ensures Trim(a + m + b) == a + m + b
    ensures StartsWith(a + m + b, p)
  {
    var u := a + m + b;
    assert u[0] == a[0] && u[|u| - 1] == b[|b| - 1];
    assert u[..|p|] == a[..|p|];
    TrimOfTrimmed(u);
  }

  /** The path and query end with the `m` of `confirm`. */
  lemma SampleTailEnd()
    ensures |SampleTail()| > 0 && SampleTail()[|SampleTail()| - 1] == 'm'
  {
    ConcatSuffix(SampleTailParts);
    var t := SampleTail();
    assert t[|t| - 7..][6] == t[|t| - 1];
  }

  /** The sample needs no trimming and already carries its scheme. */
  lemma SampleUrlTrimmed()
    ensures Trim(SampleUrl()) == SampleUrl()
    ensures StartsWith(SampleUrl(), "http")
  {
    SampleTailEnd();
    assert "http://"[..4] == "http";
    TrimmedVia("http://", SampleHost(), SampleTail(), "http");
  }

  /** The path and query of the sample URL are lower case. */
  lemma SampleTailLower()
    ensures Lower(SampleTail()) == SampleTail()
  {
    var tp := SampleTailParts;
    assert Lower(tp[0]) == tp[0];
    assert Lower(tp[1]) == tp[1];
    assert Lower(tp[2]) == tp[2];
    assert Lower(tp[3]) == tp[3];
    assert Lower(tp[4]) == tp[4];
    assert Lower(tp[5]) == tp[5];
    ConcatLower(tp);
  }

  /** The sample URL is already lower case. */
  lemma SampleUrlLower()
    ensures Lower(SampleUrl()) == SampleUrl()
  {
    SampleHostLower();
    SampleTailLower();
    assert Lower("http://") == "http://";
    LowerConcat("http://", SampleHost());
    LowerConcat("http://" + SampleHost(), SampleTail());
  }

  /** Phishing keywords written in the sample URL. */
  const SampleKeywords: set<string> := {"secure", "login", "verify", "account", "confirm"}

  lemma SampleKeywordsCount()
    ensures |SampleKeywords| == 5
    ensures forall w :: w in SampleKeywords ==> w in PhishingKeywords
  {
  }

  /** A concatenation contains each of its parts. */
  lemma PartIsKeyword(parts: seq<string>, k: nat, w: string)
    requires k < |parts| && parts[k] == w
    ensures Contains(Concat(parts), w)
  {
    assert MatchesAt(parts[k], 0, w);
    ConcatContains(parts, k, w);
  }

  /** `secure` and `login` occur in the sample's host name. */
  lemma SampleHostKeywords()
    ensures Contains(SampleUrl(), "secure") && Contains(SampleUrl(), "login")
  {
    PartIsKeyword(SampleHostParts, 1, "secure");
    PartIsKeyword(SampleHostParts, 3, "login");
    ContainsExtend("http://", SampleHost(), SampleTail(), "secure");
    ContainsExtend("http://", SampleHost(), SampleTail(), "login");
  }

  /** `verify`, `account` and `confirm` occur in its path and query. */
  lemma SamplePathKeywords()
    ensures Contains(SampleUrl(), "verify") && Contains(SampleUrl(), "account")
    ensures Contains(SampleUrl(), "confirm")
  {
    var head := "http://" + SampleHost();
    assert head + SampleTail() + "" == SampleUrl();
    PartIsKeyword(SampleTailParts, 1, "verify");
    PartIsKeyword(SampleTailParts, 3, "account");
    PartIsKeyword(SampleTailParts, 5, "confirm");
    ContainsExtend(head, SampleTail(), "", "verify");
    ContainsExtend(head, SampleTail(), "", "account");
    ContainsExtend(head, SampleTail(), "", "confirm");
  }

  /** Five distinct phishing keywords, each occurring in `u`. */
  predicate FiveKeywords(u: string, w1: string, w2: string, w3: string, w4: string, w5: string)
  {
    && |{w1, w2, w3, w4, w5}| == 5
    && Contains(u, w1) && Contains(u, w2) && Contains(u, w3) && Contains(u, w4) && Contains(u, w5)
    && w1 in PhishingKeywords && w2 in PhishingKeywords && w3 in PhishingKeywords
    && w4 in PhishingKeywords && w5 in PhishingKeywords
  }

  /** A lower-case URL that contains five distinct phishing keywords has
      all five reported. */
  lemma KeywordsVia(u: string, w1: string, w2: string, w3: string, w4: string, w5: string)
    requires Lower(u) == u && FiveKeywords(u, w1, w2, w3, w4, w5)
    ensures var found := FindSuspiciousKeywords(u);
      w1 in found && w2 in found && w3 in found && w4 in found && w5 in found
    ensures |FindSuspiciousKeywords(u)| >= 5
  {
    FilterContainedSpec(u, PhishingKeywords);
    MembersBound(FindSuspiciousKeywords(u), {w1, w2, w3, w4, w5});
  }

  /** The five sample keywords are distinct phishing keywords of the sample URL. */
  lemma SampleFiveKeywords()
    ensures FiveKeywords(SampleUrl(), "secure", "login", "verify", "account", "confirm")
  {
    SampleHostKeywords();
    SamplePathKeywords();
    SampleKeywordsCount();
  }

  /** The keyword check finds at least five, so it alone adds 40 points. */
  lemma SampleUrlKeywords()
    ensures |FindSuspiciousKeywords(SampleUrl())| >= 5
  {
    SampleUrlLower();
    SampleFiveKeywords();
    KeywordsVia(SampleUrl(), "secure", "login", "verify", "account", "confirm");
  }

  /** Plain `http`, a suspicious extension, a brand imitation, five or more
      phishing keywords and no unusual port: the raw score reaches 100 and
      the reported score is the maximum. */
  predicate Maximal(d: Details)
  {
    && !d.isHttps && d.suspiciousTld && d.typosquatting.Some?
    && |d.suspiciousKeywords| >= 5 && !d.unusualPort
    && RawScore(d) >= 100
    && Clamp(TallyAfter(d, 9).score, 0, 100) == 100
  }

  /** A trimmed `http` URL on a lower-case host with a suspicious extension
      and a brand imitation, carrying five phishing keywords, scores the
      maximum. */
  lemma MaximalVia(u: string, host: string, parse: UrlParser)
    requires Trim(u) == u && StartsWith(u, "http")
    requires parse(u) == Some(ParsedUrl("http:", host, ""))
    requires Lower(host) == host && HasSuspiciousTld(host) && TyposquatVerdict(host).Some?
    requires |FindSuspiciousKeywords(u)| >= 5
    ensures Maximal(Signals(u, parse))
  {
    assert WithScheme(u) == u;
    var d := Signals(u, parse);
    assert |d.protocol| == 4;
    ReportSpec(d);
  }

  /** With a parser that reads the sample as an `http:` URL on its host and
      no port, the analysis scores it at the maximum. */
  lemma SampleUrlScore(parse: UrlParser)
    requires parse(SampleUrl()) == Some(ParsedUrl("http:", SampleHost(), ""))
    ensures Maximal(Signals(SampleUrl(), parse))
  {
    SampleUrlTrimmed();
    SampleHostLower();
    SampleHostTld();
    SampleHostBrand();
    SampleUrlKeywords();
    MaximalVia(SampleUrl(), SampleHost(), parse);
  }

  // ---------------------------------------------------------------------
  // The sample message

  /** A header `x-mailer:` followed on its line by `php` is reported, whatever
      surrounds it. */
  lemma PhpMailerVia(pre: string, head: string, gap: string, php: string, post: string)
    requires Lower(head) == "x-mailer:" && NoLineTerminator(gap) && Lower(php) == "php"
    ensures PhpMailer(pre + head + gap + php + post)
  {
    var e := pre + head + gap + php + post;
    var i := |pre|;
    var p := i + 9 + |gap|;
    assert |head| == |Lower(head)| == 9;
    assert e[i..i + 9] == head;
    LowerSlice(e, i, i + 9);
    assert e[i + 9..p] == gap;
    assert |php| == |Lower(php)| == 3;
    assert e[p..p + 3] == php;
    LowerSlice(e, p, p + 3);
    assert MatchesCIAt(e, p, "php");
    assert AnyCIAt(e, p, ["php"]);
    assert MatchesCIAt(e, i, "x-mailer:");
  }

  /** A header `received:` followed on its line by `.ru` is reported,
      whatever surrounds it. */
  lemma RoutedVia(pre: string, head: string, gap: string, tld: string, post: string)
    requires Lower(head) == "received:" && NoLineTerminator(gap) && Lower(tld) == ".ru"
    ensures Routed(pre + head + gap + tld + post)
  {
    var e := pre + head + gap + tld + post;
    var i := |pre|;
    var p := i + 9 + |gap|;
    assert |head| == |Lower(head)| == 9;
    assert e[i..i + 9] == head;
    LowerSlice(e, i, i + 9);
    assert e[i + 9..p] == gap;
    assert |tld| == |Lower(tld)| == 3;
    assert e[p..p + 3] == tld;
    LowerSlice(e, p, p + 3);
    assert MatchesCIAt(e, p, ".ru");
    assert AnyCIAt(e, p, [".ru", ".cn", ".ng"]);
    assert MatchesCIAt(e, i, "received:");
  }

  /** `role…@host.tld` with no dot in `host` and a top-level domain that is
      neither `.gov` nor `.edu` is a role address. */
  lemma RoleVia(role: string, mid: string, host: string, tld: string)
    requires Lower(role) == role && NoLineTerminator(mid) && '.' !in Lower(host)
    requires |tld| == 4 && Lower(tld)[1] != 'g' && Lower(tld)[1] != 'e'
    ensures RoleAddress(role + mid + "@" + host + tld, role)
  {
    var a := role + mid + "@" + host + tld;
    var at := |role| + |mid|;
    var d := at + 1 + |host|;
    assert a[..|role|] == role;
    LowerSlice(a, 0, |role|);
    assert a[at] == '@';
    assert a[|role|..at] == mid;
    forall p: nat, w | at + 1 <= p <= |a| && w in [".gov", ".edu"]
      ensures !MatchesCIAt(a, p, w)
    {
      if p + 4 <= |a| {
        var l := Lower(a)[p..p + 4];
        if p < d {
          assert l[0] == Lower(host)[p - at - 1] != '.';
        } else {
          assert p == d && l[1] == Lower(tld)[1];
        }
        assert l != w;
      }
    }
    assert !OnLineAfter(a, at + 1, [".gov", ".edu"]);
    assert a[0..|role|] == role;
    assert MatchesCIAt(a, 0, role);
    assert NoLineTerminator(a[0 + |role|..at]);
  }

  const SampleReceivedGap := " from unknown (HELO mail.suspicious-server"

  /** The sample's mailer line, wherever it stands in a message, is a PHP mailer header. */
  lemma SampleMailerLine(pre: string, post: string)
    ensures PhpMailer(pre + "X-Mailer: PHP/7.4.3" + post)
  {
    var rest := "/7.4.3" + post;
    assert "X-Mailer: PHP/7.4.3" == "X-Mailer:" + " " + "PHP" + "/7.4.3";
    assert pre + "X-Mailer: PHP/7.4.3" + post == pre + "X-Mailer:" + " " + "PHP" + rest;
    assert Lower("X-Mailer:") == "x-mailer:" && Lower("PHP") == "php" && NoLineTerminator(" ");
    PhpMailerVia(pre, "X-Mailer:", " ", "PHP", rest);
  }

  /** The sample's `Received:` line, wherever it stands in a message, routes through `.ru`. */
  lemma SampleReceivedLine(pre: string, post: string)
    ensures Routed(pre + "Received:" + SampleReceivedGap + ".ru" + post)
  {
    assert Lower("Received:") == "received:" && Lower(".ru") == ".ru";
    assert NoLineTerminator(SampleReceivedGap);
    RoutedVia(pre, "Received:", SampleReceivedGap, ".ru", post);
  }

  /** The header analysis warns both of the PHP mailer and of the routing,
      so it gives at least two warnings. */
  predicate MailerAndRoutingWarned(e: string)
  {
    && PhpWarning in HeaderWarnings(e)
    && RoutingWarning in HeaderWarnings(e)
    && |HeaderWarnings(e)| >= 2
  }

  /** A message that is both a PHP mailer and routed gets both warnings. */
  lemma MailerAndRouted(e: string)
    requires PhpMailer(e) && Routed(e)
    ensures MailerAndRoutingWarned(e)
  {
    HeaderWarningsSpec(e);
    var ws := HeaderWarnings(e);
    assert RoutingWarning != PhpWarning;
    var i :| 0 <= i < |ws| && ws[i] == PhpWarning;
    var j :| 0 <= j < |ws| && ws[j] == RoutingWarning;
    assert i != j;
  }

  /** A message holding the sample's `X-Mailer: PHP/7.4.3` line and, further
      on, its `Received: … .ru` line, with any text around them. */
  function SampleHeaderLines(pre: string, mid: string, post: string): string
  {
    pre + "X-Mailer: PHP/7.4.3" + mid + "Received:" + SampleReceivedGap + ".ru" + post
  }

  /** Those two lines each raise their warning, wherever they stand in a message. */
  lemma SampleHeaderWarnings(pre: string, mid: string, post: string)
    ensures MailerAndRoutingWarned(SampleHeaderLines(pre, mid, post))
  {
    var e := SampleHeaderLines(pre, mid, post);
    var after := mid + "Received:" + SampleReceivedGap + ".ru" + post;
    assert e == pre + "X-Mailer: PHP/7.4.3" + after;
    SampleMailerLine(pre, after);
    SampleReceivedLine(pre + "X-Mailer: PHP/7.4.3" + mid, post);
    MailerAndRouted(e);
  }

  /** The sample's From address is flagged as a suspicious sender. */
  lemma SampleSenderSuspicious()
    ensures SuspiciousSender("security" + "-alert" + "@" + "bankofamerica-secure" + ".net")
  {
    assert Lower("security") == "security";
    assert NoLineTerminator("-alert");
    assert Lower("bankofamerica-secure") == "bankofamerica-secure";
    assert Lower(".net") == ".net";
    RoleVia("security", "-alert", "bankofamerica-secure", ".net");
  }

  /** A link that contains one of the link keywords, written in lower case,
      is suspicious. */
  lemma KeywordLinkVia(pre: string, w: string, post: string)
    requires w in LinkKeywords
    ensures IsSuspiciousUrl(pre + w + post)
  {
    LowerOfLowercase(w);
    LowerConcat(pre + w, post);
    LowerConcat(pre, w);
    assert MatchesAt(w, 0, w);
    ContainsExtend(Lower(pre), w, Lower(post), w);
  }

  /** The link in the sample message's body, around its first `verify`. */
  const SampleLinkHead := "https://bankofamerica-"
  const SampleLinkTail := "-account.suspicious-domain" + ".com/verify?id=abc123"

  /** The sample message's link is suspicious: it contains `verify`. */
  lemma SampleLinkSuspicious()
    ensures IsSuspiciousUrl(SampleLinkHead + "verify" + SampleLinkTail)
  {
    assert "verify" == LinkKeywords[1];
    KeywordLinkVia(SampleLinkHead, "verify", SampleLinkTail);
  }
}
