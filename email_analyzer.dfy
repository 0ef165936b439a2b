/** The e-mail analyzer: scores the tone of a message from urgency and fraud
    phrases, reads the authentication results and a few header lines, pulls
    the links out of the text and flags the suspicious ones, and combines all
    of it into a risk score clamped to [0, 100].

    Every regular expression of the analyzer is written out below as a
    dedicated predicate or matcher with the leftmost-first, greedy behaviour
    of an ECMAScript regular expression: `.` stops at a line terminator, `\s`
    is the ECMAScript white-space class, and the `i` flag folds ASCII case. */
module EmailAnalyzer {
  import opened Text
  import UrlAnalyzer

  // ---------------------------------------------------------------------
  // Result record

  datatype TextAnalysis = TextAnalysis(
    urgencyScore: int,
    fraudTone: int,
    suspiciousPatterns: seq<string>,
    legitimateIndicators: seq<string>)

  datatype HeaderAnalysis = HeaderAnalysis(
    spf: string,
    dkim: string,
    dmarc: string,
    suspiciousSender: bool,
    headerWarnings: seq<string>)

  datatype Links = Links(total: nat, suspicious: nat, urls: seq<string>)

  datatype EmailAnalysisResult = EmailAnalysisResult(
    textAnalysis: TextAnalysis,
    headerAnalysis: HeaderAnalysis,
    links: Links,
    overallScore: int)

  // ---------------------------------------------------------------------
  // Phrase patterns

  /** A case-insensitive phrase pattern. `Literals` lists, in lower case, the
      phrases the pattern spells out, in the order the regular expression
      tries them at one position (so `immediate(ly)?` is `["immediately",
      "immediate"]`). `WithinDuration` is `/within \d+ (hour|day)/i`. */
  datatype Pattern = Literals(alternatives: seq<string>) | WithinDuration

  const UrgencyPatterns: seq<Pattern> := [
    Literals(["urgent"]),
    Literals(["immediately", "immediate"]),
    Literals(["act now"]),
    WithinDuration,
    Literals(["expire"]),
    Literals(["suspend"]),
    Literals(["locked"]),
    Literals(["limited time"]),
    Literals(["don't delay"]),
    Literals(["asap"]),
    Literals(["alert"]),
    Literals(["warning"]),
    Literals(["attention"])
  ]

  const FraudPatterns: seq<Pattern> := [
    Literals(["verify your account", "verify your identity", "verify your password",
              "verify account", "verify identity", "verify password"]),
    Literals(["confirm your account", "confirm your identity", "confirm your information",
              "confirm account", "confirm identity", "confirm information"]),
    Literals(["social security"]),
    Literals(["credit card"]),
    Literals(["bank account"]),
    Literals(["password"]),
    Literals(["click here", "click below", "click this link"]),
    Literals(["update your payment", "update payment"]),
    Literals(["unusual activity"]),
    Literals(["security alert", "security notice", "security team"]),
    Literals(["won", "winner", "lottery", "prize"]),
    Literals(["inheritance"]),
    Literals(["million dollar", "million usd"]),
    Literals(["wire transfer"])
  ]

  const LegitimatePatterns: seq<Pattern> := [
    Literals(["unsubscribe"]),
    Literals(["privacy policy"]),
    Literals(["terms of service"]),
    Literals(["physical address"]),
    Literals(["contact us"])
  ]

  // ---------------------------------------------------------------------
  // Character runs

  /** The character classes the matchers below repeat with a greedy `+` or `*`. */
  datatype CharClass =
    | Digit       // \d
    | Space       // \s
    | LineChar    // .
    | HostChar    // [^\s>]
    | NotGt       // [^>]
    | UrlChar     // [^\s<>"{}|\\^`\[\]]

  predicate InClass(c: char, cls: CharClass)
  {
    match cls
    case Digit => IsDigit(c)
    case Space => IsWhitespace(c)
    case LineChar => !IsLineTerminator(c)
    case HostChar => !IsWhitespace(c) && c != '>'
    case NotGt => c != '>'
    case UrlChar =>
      && !IsWhitespace(c)
      && c !in {'<', '>', '"', '{', '}', '|', '\\', '^', '`', '[', ']'}
  }

  /** The length of the longest run of `cls` characters starting at `j`. */
  function Run(s: string, j: nat, cls: CharClass): (n: nat)
    ensures n > 0 ==> j + n <= |s|
    ensures forall k :: j <= k < j + n ==> InClass(s[k], cls)
    ensures j + n < |s| ==> !InClass(s[j + n], cls)
    decreases |s| - j
  {
    if j < |s| && InClass(s[j], cls) then 1 + Run(s, j + 1, cls) else 0
  }

  /** The last index in [lo, hi) whose character is not a line terminator. */
  function LastLineChar(s: string, lo: nat, hi: nat): (r: Option<nat>)
    requires hi <= |s|
    ensures r.Some? ==> lo <= r.value < hi && !IsLineTerminator(s[r.value])
    ensures r.Some? ==> forall k :: r.value < k < hi ==> IsLineTerminator(s[k])
    ensures r.None? ==> forall k :: lo <= k < hi ==> IsLineTerminator(s[k])
    decreases hi
  {
    if hi <= lo then None
    else if !IsLineTerminator(s[hi - 1]) then Some(hi - 1)
    else LastLineChar(s, lo, hi - 1)
  }

  // ---------------------------------------------------------------------
  // Matching at one position

  /** A match found at `start`, `len` characters long; `group` is the text a
      caller reads from it: the whole match for a phrase or a link, the first
      capture group for the header expressions. */
  datatype Hit = Hit(start: nat, len: nat, group: string)

  /** The expressions the analyzer executes to read a match or a capture. */
  datatype Probe =
    | PatternProbe(p: Pattern)  // a phrase pattern, reporting the matched text
    | AuthToken(key: string)    // /key=(pass|fail|none)/i
    | FromField                 // /from:\s*(.+)/i
    | AtHost                    // /@([^\s>]+)/
    | ReturnPath                // /return-path:\s*<([^>]+)>/i
    | AtTail                    // /@(.+)/
    | Link                      // /https?:\/\/[^\s<>"{}|\\^`\[\]]+/i

  const AuthValues: seq<string> := ["pass", "fail", "none"]

  /** The first of `alts` that occurs at `i` in `t`. */
  function FirstAlternative(t: string, i: nat, alts: seq<string>): (r: Option<string>)
    ensures r.Some? ==> r.value in alts && MatchesAt(t, i, r.value)
    ensures r.None? <==> forall w :: w in alts ==> !MatchesAt(t, i, w)
  {
    if |alts| == 0 then None
    else if MatchesAt(t, i, alts[0]) then Some(alts[0])
    else FirstAlternative(t, i, alts[1..])
  }

  /** `alts[k]` occurs at `i` and no alternative before it does. */
  predicate FirstAt(t: string, i: nat, alts: seq<string>, k: int)
  {
    && 0 <= k < |alts| && MatchesAt(t, i, alts[k])
    && forall j :: 0 <= j < k ==> !MatchesAt(t, i, alts[j])
  }

  /** The alternative chosen is the first one, in the order written, that
      occurs at `i`. */
  lemma {:induction false} FirstAlternativeFirst(t: string, i: nat, alts: seq<string>)
    ensures FirstAlternative(t, i, alts).Some? ==>
      exists k :: FirstAt(t, i, alts, k) && alts[k] == FirstAlternative(t, i, alts).value
  {
    if |alts| > 0 {
      if MatchesAt(t, i, alts[0]) {
        assert FirstAt(t, i, alts, 0);
      } else {
        FirstAlternativeFirst(t, i, alts[1..]);
        if FirstAlternative(t, i, alts[1..]).Some? {
          var k :| FirstAt(t, i, alts[1..], k) && alts[1..][k] == FirstAlternative(t, i, alts[1..]).value;
          forall j | 0 <= j < k + 1
            ensures !MatchesAt(t, i, alts[j])
          {
            if j > 0 {
              assert alts[j] == alts[1..][j - 1];
            }
          }
          assert FirstAt(t, i, alts, k + 1);
        }
      }
    }
  }

  /** The length of a match of `p` at `i`. */
  function PatternLength(p: Pattern, s: string, i: nat): (r: Option<nat>)
    ensures r.Some? ==> i + r.value <= |s|
  {
    match p
    case Literals(alts) =>
      (match FirstAlternative(Lower(s), i, alts)
       case Some(w) => Some(|w|)
       case None => None)
    case WithinDuration =>
      var n := Run(s, i + 7, Digit);
      if !MatchesCIAt(s, i, "within ") || n == 0 then None
      else if MatchesCIAt(s, i + 7 + n, " hour") then Some(12 + n)
      else if MatchesCIAt(s, i + 7 + n, " day") then Some(11 + n)
      else None
  }

  /** `from:`, then as much white space as still lets `.+` match, then the
      rest of that line. */
  function FromFieldAt(s: string, i: nat): (r: Option<Hit>)
    ensures r.Some? ==> i + r.value.len <= |s|
  {
    if !MatchesCIAt(s, i, "from:") then None
    else
      var j := i + 5;
      var e := j + Run(s, j, Space);
      if e < |s| then
        var n := Run(s, e, LineChar);
        Some(Hit(i, e + n - i, s[e..e + n]))
      else
        match LastLineChar(s, j, e)
        case Some(k) => Some(Hit(i, k + 1 - i, s[k..k + 1]))
        case None => None
  }

  function ReturnPathAt(s: string, i: nat): (r: Option<Hit>)
    ensures r.Some? ==> i + r.value.len <= |s|
  {
    if !MatchesCIAt(s, i, "return-path:") then None
    else
      var e := i + 12 + Run(s, i + 12, Space);
      if e < |s| && s[e] == '<' then
        var n := Run(s, e + 1, NotGt);
        if n > 0 && e + 1 + n < |s| then Some(Hit(i, e + 2 + n - i, s[e + 1..e + 1 + n]))
        else None
      else None
  }

  /** An `@` followed by a non-empty run of `cls`, which is captured. */
  function AtRunAt(s: string, i: nat, cls: CharClass): (r: Option<Hit>)
    ensures r.Some? ==> i + r.value.len <= |s| && |r.value.group| > 0
  {
    if i < |s| && s[i] == '@' && Run(s, i + 1, cls) > 0 then
      var n := Run(s, i + 1, cls);
      Some(Hit(i, n + 1, s[i + 1..i + 1 + n]))
    else None
  }

  function LinkAt(s: string, i: nat): (r: Option<Hit>)
    ensures r.Some? ==> i + r.value.len <= |s| && r.value.len > 0
  {
    var scheme :=
      if MatchesCIAt(s, i, "https://") && Run(s, i + 8, UrlChar) > 0 then 8
      else if MatchesCIAt(s, i, "http://") && Run(s, i + 7, UrlChar) > 0 then 7
      else 0;
    if scheme == 0 then None
    else
      var n := scheme + Run(s, i + scheme, UrlChar);
      Some(Hit(i, n, s[i..i + n]))
  }

  function ProbeAt(pr: Probe, s: string, i: nat): (r: Option<Hit>)
    ensures r.Some? ==> r.value.start == i && i + r.value.len <= |s|
  {
    match pr
    case PatternProbe(p) =>
      (match PatternLength(p, s, i)
       case Some(n) => Some(Hit(i, n, s[i..i + n]))
       case None => None)
    case AuthToken(key) =>
      var j := i + |key| + 1;
      if MatchesCIAt(s, i, key + "=") && FirstAlternative(Lower(s), j, AuthValues).Some? then
        Some(Hit(i, |key| + 5, s[j..j + 4]))
      else None
    case FromField =>
      (match FromFieldAt(s, i) case Some(h) => Some(h) case None => None)
    case AtHost => AtRunAt(s, i, HostChar)
    case ReturnPath =>
      (match ReturnPathAt(s, i) case Some(h) => Some(h) case None => None)
    case AtTail => AtRunAt(s, i, LineChar)
    case Link => LinkAt(s, i)
  }

  // ---------------------------------------------------------------------
  // Leftmost match (`exec` / `match` without the `g` flag)

  /** The first match of `f` at a position from `i` to `n`, scanning left to right. */
  function Leftmost(f: nat -> Option<Hit>, n: nat, i: nat): Option<Hit>
    decreases n + 1 - i
  {
    if i > n then None
    else
      match f(i)
      case Some(h) => Some(h)
      case None => Leftmost(f, n, i + 1)
  }

  /** A matcher that reports each match at the position it was tried at. */
  ghost predicate Anchored(f: nat -> Option<Hit>)
  {
    forall j: nat :: f(j).Some? ==> f(j).value.start == j
  }

  lemma {:induction false} LeftmostNone(f: nat -> Option<Hit>, n: nat, i: nat)
    requires Leftmost(f, n, i).None?
    ensures forall j :: i <= j <= n ==> f(j).None?
    decreases n + 1 - i
  {
    if i <= n {
      assert f(i).None?;
      LeftmostNone(f, n, i + 1);
    }
  }

  lemma {:induction false} LeftmostFirst(f: nat -> Option<Hit>, n: nat, i: nat)
    requires Anchored(f) && Leftmost(f, n, i).Some?
    ensures i <= Leftmost(f, n, i).value.start <= n
    ensures f(Leftmost(f, n, i).value.start) == Leftmost(f, n, i)
    ensures forall j :: i <= j < Leftmost(f, n, i).value.start ==> f(j).None?
    decreases n + 1 - i
  {
    if f(i).None? {
      LeftmostFirst(f, n, i + 1);
      var h := Leftmost(f, n, i + 1).value;
      forall j | i <= j < h.start
        ensures f(j).None?
      {
        if j > i {
          assert i + 1 <= j < h.start;
        }
      }
    } else {
      assert Leftmost(f, n, i) == f(i);
    }
  }

  /** The probe as a matcher on the positions of `s`. */
  function ProbeFn(pr: Probe, s: string): nat -> Option<Hit>
  {
    (j: nat) => ProbeAt(pr, s, j)
  }

  function Search(pr: Probe, s: string, i: nat): Option<Hit>
  {
    Leftmost(ProbeFn(pr, s), |s|, i)
  }

  /** A search that finds nothing passed no position that matches. */
  lemma SearchNoneSound(pr: Probe, s: string, i: nat)
    requires Search(pr, s, i).None?
    ensures forall j :: i <= j <= |s| ==> ProbeAt(pr, s, j).None?
  {
    var f := ProbeFn(pr, s);
    LeftmostNone(f, |s|, i);
    forall j | i <= j <= |s|
      ensures ProbeAt(pr, s, j).None?
    {
      assert f(j) == ProbeAt(pr, s, j);
    }
  }

  /** The search finds nothing exactly when no position from `i` on matches. */
  lemma SearchNone(pr: Probe, s: string, i: nat)
    ensures Search(pr, s, i).None? <==> forall j :: i <= j <= |s| ==> ProbeAt(pr, s, j).None?
  {
    if Search(pr, s, i).None? {
      SearchNoneSound(pr, s, i);
    } else {
      SearchLeftmost(pr, s, i);
    }
  }

  /** Otherwise it reports the match at the leftmost position that has one. */
  lemma SearchLeftmost(pr: Probe, s: string, i: nat)
    requires Search(pr, s, i).Some?
    ensures i <= Search(pr, s, i).value.start <= |s|
    ensures ProbeAt(pr, s, Search(pr, s, i).value.start) == Search(pr, s, i)
    ensures forall j :: i <= j < Search(pr, s, i).value.start ==> ProbeAt(pr, s, j).None?
  {
    var f := ProbeFn(pr, s);
    forall j: nat | f(j).Some?
      ensures f(j).value.start == j
    {
      assert f(j) == ProbeAt(pr, s, j);
    }
    LeftmostFirst(f, |s|, i);
    var h := Search(pr, s, i).value;
    assert f(h.start) == ProbeAt(pr, s, h.start);
    forall j | i <= j < h.start
      ensures ProbeAt(pr, s, j).None?
    {
      assert f(j) == ProbeAt(pr, s, j);
    }
  }

  function FirstMatch(pr: Probe, s: string): Option<Hit>
  {
    Search(pr, s, 0)
  }

  // ---------------------------------------------------------------------
  // Phrase patterns: counts and labels

  /** `pattern.test(text)` */
  predicate Tests(p: Pattern, s: string)
  {
    FirstMatch(PatternProbe(p), s).Some?
  }

  /** `text.match(pattern)[0].toUpperCase()`, or "" without a match. */
  function Label(p: Pattern, s: string): string
  {
    match FirstMatch(PatternProbe(p), s)
    case Some(h) => Upper(h.group)
    case None => ""
  }

  /** `patterns.filter(p => p.test(text))` */
  function MatchingPatterns(s: string, ps: seq<Pattern>): seq<Pattern>
  {
    if |ps| == 0 then []
    else (if Tests(ps[0], s) then [ps[0]] else []) + MatchingPatterns(s, ps[1..])
  }

  /** `countPatternMatches` */
  function CountPatternMatches(s: string, ps: seq<Pattern>): nat
  {
    |MatchingPatterns(s, ps)|
  }

  function MatchedLabels(s: string, ps: seq<Pattern>): seq<string>
  {
    var m := MatchingPatterns(s, ps);
    seq(|m|, k requires 0 <= k < |m| => Label(m[k], s))
  }

  /** `.filter(Boolean)` on strings */
  function NonEmptyOnly(xs: seq<string>): seq<string>
  {
    if |xs| == 0 then []
    else (if |xs[0]| > 0 then [xs[0]] else []) + NonEmptyOnly(xs[1..])
  }

  /** `extractPatternLabels` */
  function ExtractPatternLabels(s: string, ps: seq<Pattern>): seq<string>
  {
    Take(NonEmptyOnly(MatchedLabels(s, ps)), 5)
  }

  /** Every alternative of the pattern spells at least one character. */
  predicate WellFormed(p: Pattern)
  {
    p.Literals? ==> forall w :: w in p.alternatives ==> |w| > 0
  }

  /** The filter keeps exactly the patterns that match, in table order. */
  lemma {:induction false} MatchingPatternsSpec(s: string, ps: seq<Pattern>)
    ensures forall p :: p in MatchingPatterns(s, ps) <==> p in ps && Tests(p, s)
    ensures IsSubsequence(MatchingPatterns(s, ps), ps)
    ensures |MatchingPatterns(s, ps)| <= |ps|
  {
    if |ps| > 0 {
      MatchingPatternsSpec(s, ps[1..]);
      var rest := MatchingPatterns(s, ps[1..]);
      if Tests(ps[0], s) {
        assert ([ps[0]] + rest)[1..] == rest;
      } else {
        assert [] + rest == rest;
      }
    }
  }

  /** A well-formed pattern that matches yields a non-empty label. */
  lemma LabelNonEmpty(p: Pattern, s: string)
    requires WellFormed(p) && Tests(p, s)
    ensures |Label(p, s)| > 0
  {
    var h := FirstMatch(PatternProbe(p), s).value;
    SearchLeftmost(PatternProbe(p), s, 0);
    assert PatternLength(p, s, h.start).Some?;
  }

  /** Phrase `k` of `alts` is the first, in the order written, found at the
      leftmost position `i` where any of them occurs in `s`, ignoring case. */
  predicate LeftmostPhrase(s: string, alts: seq<string>, i: nat, k: int)
  {
    && FirstAt(Lower(s), i, alts, k)
    && forall j, w :: 0 <= j < i && w in alts ==> !MatchesAt(Lower(s), j, w)
  }

  /** The label of a phrase pattern is one of its phrases, upper-cased:
      the first one, in the pattern's order, found at the leftmost position
      where any of them occurs. */
  lemma LiteralLabel(alts: seq<string>, s: string)
    requires Tests(Literals(alts), s)
    ensures exists i: nat, k :: LeftmostPhrase(s, alts, i, k) && Label(Literals(alts), s) == Upper(alts[k])
  {
    var pr := PatternProbe(Literals(alts));
    var h := FirstMatch(pr, s).value;
    SearchLeftmost(pr, s, 0);
    var w := FirstAlternative(Lower(s), h.start, alts).value;
    MatchesCIAtSlice(s, h.start, w);
    assert h.group == s[h.start..h.start + |w|];
    UpperOfLowerMatch(h.group, w);
    FirstAlternativeFirst(Lower(s), h.start, alts);
    var k :| FirstAt(Lower(s), h.start, alts, k) && alts[k] == w;
    forall j, v | 0 <= j < h.start && v in alts
      ensures !MatchesAt(Lower(s), j, v)
    {
      assert ProbeAt(pr, s, j).None?;
      assert FirstAlternative(Lower(s), j, alts).None?;
    }
    assert LeftmostPhrase(s, alts, h.start, k);
  }

  /** When no label is empty, `.filter(Boolean)` keeps them all. */
  lemma {:induction false} NonEmptyOnlyKeeps(xs: seq<string>)
    requires forall k :: 0 <= k < |xs| ==> |xs[k]| > 0
    ensures NonEmptyOnly(xs) == xs
  {
    if |xs| > 0 {
      NonEmptyOnlyKeeps(xs[1..]);
      assert [xs[0]] + xs[1..] == xs;
    }
  }

  /** For well-formed tables the labels are those of the matching patterns,
      in table order, one per pattern, cut at five. */
  lemma ExtractPatternLabelsSpec(s: string, ps: seq<Pattern>)
    requires forall p :: p in ps ==> WellFormed(p)
    ensures ExtractPatternLabels(s, ps) == Take(MatchedLabels(s, ps), 5)
    ensures |ExtractPatternLabels(s, ps)| == Min(5, CountPatternMatches(s, ps))
  {
    MatchingPatternsSpec(s, ps);
    var m := MatchingPatterns(s, ps);
    forall k | 0 <= k < |m|
      ensures |MatchedLabels(s, ps)[k]| > 0
    {
      assert m[k] in m;
      LabelNonEmpty(m[k], s);
    }
    NonEmptyOnlyKeeps(MatchedLabels(s, ps));
  }

  lemma UrgencyWellFormed()
    ensures forall p :: p in UrgencyPatterns ==> WellFormed(p)
  {
  }

  lemma FraudWellFormedHead()
    ensures forall k :: 0 <= k < 5 ==> WellFormed(FraudPatterns[k])
  {
  }

  lemma FraudWellFormedMiddle()
    ensures forall k :: 5 <= k < 10 ==> WellFormed(FraudPatterns[k])
  {
  }

  lemma FraudWellFormedTail()
    ensures forall k :: 10 <= k < |FraudPatterns| ==> WellFormed(FraudPatterns[k])
  {
  }

  lemma FraudWellFormed()
    ensures forall p :: p in FraudPatterns ==> WellFormed(p)
  {
    FraudWellFormedHead();
    FraudWellFormedMiddle();
    FraudWellFormedTail();
  }

  lemma LegitimateWellFormed()
    ensures forall p :: p in LegitimatePatterns ==> WellFormed(p)
  {
  }

  lemma TablesWellFormed()
    ensures forall p :: p in UrgencyPatterns ==> WellFormed(p)
    ensures forall p :: p in FraudPatterns ==> WellFormed(p)
    ensures forall p :: p in LegitimatePatterns ==> WellFormed(p)
  {
    UrgencyWellFormed();
    FraudWellFormed();
    LegitimateWellFormed();
  }

  // ---------------------------------------------------------------------
  // Text analysis

  function UrgencyScore(s: string): int
  {
    Min(100, CountPatternMatches(s, UrgencyPatterns) * 15)
  }

  function FraudTone(s: string): int
  {
    Min(100, CountPatternMatches(s, FraudPatterns) * 12)
  }

  /** Both tone scores are a multiple of their step, capped at 100. */
  lemma ToneScoresSpec(s: string)
    ensures 0 <= UrgencyScore(s) <= 100 && 0 <= FraudTone(s) <= 100
    ensures UrgencyScore(s) == 100 || UrgencyScore(s) % 15 == 0
    ensures FraudTone(s) == 100 || FraudTone(s) % 12 == 0
    ensures UrgencyScore(s) == 100 <==> CountPatternMatches(s, UrgencyPatterns) >= 7
    ensures FraudTone(s) == 100 <==> CountPatternMatches(s, FraudPatterns) >= 9
  {
  }

  function TextReport(email: string): TextAnalysis
  {
    TextAnalysis(
      UrgencyScore(email),
      FraudTone(email),
      Take(ExtractPatternLabels(email, UrgencyPatterns), 3) + Take(ExtractPatternLabels(email, FraudPatterns), 3),
      ExtractPatternLabels(email, LegitimatePatterns))
  }

  /** At most three urgency labels, then at most three fraud labels, each
      the label of a matching pattern in table order; at most five
      reassuring indicators, one per matching allow-list pattern. */
  lemma TextReportSpec(email: string)
    ensures var t := TextReport(email);
      && t.suspiciousPatterns
           == Take(MatchedLabels(email, UrgencyPatterns), 3) + Take(MatchedLabels(email, FraudPatterns), 3)
      && |t.suspiciousPatterns|
           == Min(3, CountPatternMatches(email, UrgencyPatterns)) + Min(3, CountPatternMatches(email, FraudPatterns))
      && |t.suspiciousPatterns| <= 6
      && t.legitimateIndicators == Take(MatchedLabels(email, LegitimatePatterns), 5)
      && |t.legitimateIndicators| == Min(5, CountPatternMatches(email, LegitimatePatterns))
  {
    TablesWellFormed();
    ExtractPatternLabelsSpec(email, UrgencyPatterns);
    ExtractPatternLabelsSpec(email, FraudPatterns);
    ExtractPatternLabelsSpec(email, LegitimatePatterns);
    var u := MatchedLabels(email, UrgencyPatterns);
    var f := MatchedLabels(email, FraudPatterns);
    assert Take(Take(u, 5), 3) == Take(u, 3);
    assert Take(Take(f, 5), 3) == Take(f, 3);
  }

  // ---------------------------------------------------------------------
  // Authentication results

  /** The lower-cased value of the leftmost `key=(pass|fail|none)` token,
      or "none" when the message has no such token. */
  function AuthResult(email: string, key: string): string
  {
    match FirstMatch(AuthToken(key), email)
    case Some(h) => Lower(h.group)
    case None => "none"
  }

  /** The result is always one of the three values, it is "none" without a
      token, and otherwise it is the value spelled at the leftmost token. */
  lemma AuthResultSpec(email: string, key: string)
    ensures AuthResult(email, key) in AuthValues
    ensures FirstMatch(AuthToken(key), email).None? ==> AuthResult(email, key) == "none"
    ensures FirstMatch(AuthToken(key), email).Some? ==>
      var i := FirstMatch(AuthToken(key), email).value.start;
      && MatchesCIAt(email, i, key + "=")
      && MatchesCIAt(email, i + |key| + 1, AuthResult(email, key))
      && forall j :: 0 <= j < i ==> ProbeAt(AuthToken(key), email, j).None?
  {
    var pr := AuthToken(key);
    if FirstMatch(pr, email).Some? {
      var h := FirstMatch(pr, email).value;
      SearchLeftmost(pr, email, 0);
      var j := h.start + |key| + 1;
      var w := FirstAlternative(Lower(email), j, AuthValues).value;
      assert h.group == email[j..j + 4];
      assert Lower(h.group) == Lower(email)[j..j + 4] == w;
    }
  }

  /** A token is found at `i` exactly when `key=` is followed by one of the values there. */
  lemma AuthTokenAt(email: string, key: string, i: nat)
    ensures ProbeAt(AuthToken(key), email, i).Some? <==>
      MatchesCIAt(email, i, key + "=") && exists w :: w in AuthValues && MatchesCIAt(email, i + |key| + 1, w)
  {
  }

  // ---------------------------------------------------------------------
  // Sender address

  /** Some phrase of `ws` occurs at `p`, ignoring case. */
  predicate AnyCIAt(s: string, p: nat, ws: seq<string>)
  {
    exists w :: w in ws && MatchesCIAt(s, p, w)
  }

  /** `.*(w1|w2|…)` from `j`: a phrase of `ws` occurs later on the same line. */
  predicate OnLineAfter(s: string, j: nat, ws: seq<string>)
  {
    exists p: nat :: j <= p <= |s| && NoLineTerminator(s[j..p]) && AnyCIAt(s, p, ws)
  }

  /** `/@.*\.(ru|cn|ng|in)$/i` */
  predicate SpamOrigin(a: string)
  {
    exists at: nat ::
      && at + 4 <= |a| && a[at] == '@'
      && NoLineTerminator(a[at + 1..|a| - 3])
      && (EndsWithCI(a, ".ru") || EndsWithCI(a, ".cn") || EndsWithCI(a, ".ng") || EndsWithCI(a, ".in"))
  }

  /** `/role.*@(?!.*\.(gov|edu))/i`: the role word, later on the same line
      an `@` after which the line has no `.gov` or `.edu`. */
  predicate RoleAddress(a: string, role: string)
  {
    exists i: nat, at: nat ::
      && i < |a| && MatchesCIAt(a, i, role) && i + |role| <= at < |a| && a[at] == '@'
      && NoLineTerminator(a[i + |role|..at])
      && !OnLineAfter(a, at + 1, [".gov", ".edu"])
  }

  /** `/\d{5,}@/`: five digits right before an `@`. */
  predicate NumberedMailbox(a: string)
  {
    exists at: nat :: 5 <= at < |a| && a[at] == '@' && AllDigits(a[at - 5..at])
  }

  /** `SUSPICIOUS_SENDER_PATTERNS.some(p => p.test(a))` */
  predicate SuspiciousSender(a: string)
  {
    || SpamOrigin(a)
    || ContainsCI(a, "noreply@")
    || RoleAddress(a, "security")
    || RoleAddress(a, "support")
    || NumberedMailbox(a)
  }

  /** Lower-casing makes an `@` only out of an `@`. */
  lemma LowerAt(a: string, j: nat)
    requires j < |a| && a[j] != '@'
    ensures Lower(a)[j] != '@'
  {
  }

  /** Every sender pattern needs an `@`, so an address without one is
      never suspicious. */
  lemma NoAtNotSuspicious(a: string)
    requires forall k :: 0 <= k < |a| ==> a[k] != '@'
    ensures !SuspiciousSender(a)
  {
    forall i: nat | i + 8 <= |a|
      ensures !MatchesAt(Lower(a), i, "noreply@")
    {
      LowerAt(a, i + 7);
      assert Lower(a)[i..i + 8][7] == Lower(a)[i + 7];
    }
  }

  /** An address holding `noreply@` is suspicious, whatever surrounds it. */
  lemma NoreplySuspicious(pre: string, post: string)
    ensures SuspiciousSender(pre + "noreply@" + post)
  {
    var w := "noreply@";
    LowerOfLowercase(w);
    LowerConcat(pre + w, post);
    LowerConcat(pre, w);
    assert MatchesAt(w, 0, w);
    ContainsExtend(Lower(pre), w, Lower(post), w);
  }

  // ---------------------------------------------------------------------
  // Header lines

  /** The text captured after the leftmost `from:`, or "". */
  function FromAddress(email: string): string
  {
    match FirstMatch(FromField, email)
    case Some(h) => h.group
    case None => ""
  }

  /** The lower-cased domain after the first usable `@` of the From address. */
  function FromDomain(email: string): Option<string>
  {
    match FirstMatch(AtHost, FromAddress(email))
    case Some(h) => Some(Lower(h.group))
    case None => None
  }

  /** The lower-cased text after the first `@` inside `Return-Path: <…>`. */
  function ReturnPathDomain(email: string): Option<string>
  {
    match FirstMatch(ReturnPath, email)
    case Some(h) =>
      (match FirstMatch(AtTail, h.group)
       case Some(t) => Some(Lower(t.group))
       case None => None)
    case None => None
  }

  /** What `from:\s*(.+)` captures at one position holds no line terminator. */
  lemma FromFieldOneLine(s: string, i: nat)
    requires FromFieldAt(s, i).Some?
    ensures NoLineTerminator(FromFieldAt(s, i).value.group)
  {
    var j := i + 5;
    var e := j + Run(s, j, Space);
    var a := FromFieldAt(s, i).value.group;
    if e < |s| {
      var n := Run(s, e, LineChar);
      assert a == s[e..e + n];
      forall k | 0 <= k < |a|
        ensures !IsLineTerminator(a[k])
      {
        assert a[k] == s[e + k];
      }
    }
  }

  /** The From address is read from one line: `.+` never crosses a line
      terminator. */
  lemma FromAddressOneLine(email: string)
    ensures NoLineTerminator(FromAddress(email))
  {
    if FirstMatch(FromField, email).Some? {
      SearchLeftmost(FromField, email, 0);
      var h := FirstMatch(FromField, email).value;
      assert ProbeAt(FromField, email, h.start) == Some(h);
      assert FromFieldAt(email, h.start) == Some(h);
      FromFieldOneLine(email, h.start);
    }
  }

  /** A domain that is found is never empty, so testing it for truth, as
      the analyzer does, is testing whether it was found. */
  lemma DomainsNonEmpty(email: string)
    ensures FromDomain(email).Some? ==> |FromDomain(email).value| > 0
    ensures ReturnPathDomain(email).Some? ==> |ReturnPathDomain(email).value| > 0
  {
    var a := FromAddress(email);
    if FirstMatch(AtHost, a).Some? {
      SearchLeftmost(AtHost, a, 0);
    }
    if FirstMatch(ReturnPath, email).Some? {
      var g := FirstMatch(ReturnPath, email).value.group;
      if FirstMatch(AtTail, g).Some? {
        SearchLeftmost(AtTail, g, 0);
      }
    }
  }

  /** `/received:.*\.(ru|cn|ng)/i` */
  predicate Routed(email: string)
  {
    exists i: nat :: i < |email| && MatchesCIAt(email, i, "received:") && OnLineAfter(email, i + 9, [".ru", ".cn", ".ng"])
  }

  /** `/x-mailer:.*php/i` */
  predicate PhpMailer(email: string)
  {
    exists i: nat :: i < |email| && MatchesCIAt(email, i, "x-mailer:") && OnLineAfter(email, i + 9, ["php"])
  }

  const MismatchHead := "Domain mismatch: From ("
  const MismatchMiddle := ") differs from Return-Path ("
  const RoutingWarning := "Email routed through " + "potentially suspicious servers"
  const PhpWarning := "Sent via PHP mailer " + "(commonly used in phishing)"
  const SenderWarning := "Sender address matches " + "known suspicious patterns"

  function MismatchWarning(fromDomain: string, returnDomain: string): string
  {
    MismatchHead + fromDomain + MismatchMiddle + returnDomain + ")"
  }

  /** Both domains were found and they differ. */
  predicate DomainsDiffer(email: string)
  {
    FromDomain(email).Some? && ReturnPathDomain(email).Some? && FromDomain(email) != ReturnPathDomain(email)
  }

  /** The mismatch warning, when both domains were found and they differ. */
  function MismatchOf(email: string): Option<string>
  {
    if DomainsDiffer(email) then Some(MismatchWarning(FromDomain(email).value, ReturnPathDomain(email).value))
    else None
  }

  /** The warnings of the four header checks, in the order they are made. */
  function Flagged(mismatch: Option<string>, routed: bool, php: bool, sender: bool): seq<string>
  {
    (match mismatch case Some(m) => [m] case None => [])
    + (if routed then [RoutingWarning] else [])
    + (if php then [PhpWarning] else [])
    + (if sender then [SenderWarning] else [])
  }

  function HeaderWarnings(email: string): seq<string>
  {
    Flagged(MismatchOf(email), Routed(email), PhpMailer(email), SuspiciousSender(FromAddress(email)))
  }

  function HeaderReport(email: string): HeaderAnalysis
  {
    HeaderAnalysis(
      AuthResult(email, "spf"),
      AuthResult(email, "dkim"),
      AuthResult(email, "dmarc"),
      SuspiciousSender(FromAddress(email)),
      HeaderWarnings(email))
  }

  /** Where a warning stands in the fixed order of the header checks. */
  function WarningRank(w: string): nat
  {
    if StartsWith(w, MismatchHead) then 0
    else if w == RoutingWarning then 1
    else if w == PhpWarning then 2
    else 3
  }

  /** `analyzeHeaders` */
  method AnalyzeHeaders(email: string) returns (r: HeaderAnalysis)
    ensures r == HeaderReport(email)
    ensures |r.headerWarnings| <= 4
    ensures SenderWarning in r.headerWarnings <==> r.suspiciousSender
  {
    var spf := AuthResult(email, "spf");
    var dkim := AuthResult(email, "dkim");
    var dmarc := AuthResult(email, "dmarc");
    var fromAddress := FromAddress(email);
    var suspiciousSender := SuspiciousSender(fromAddress);
    var headerWarnings: seq<string> := [];
    var fromDomain := FromDomain(email);
    var returnPathDomain := ReturnPathDomain(email);
    if fromDomain.Some? && returnPathDomain.Some? && fromDomain.value != returnPathDomain.value {
      assert DomainsDiffer(email);
      headerWarnings := headerWarnings + [MismatchWarning(fromDomain.value, returnPathDomain.value)];
    }
    assert headerWarnings == match MismatchOf(email) case Some(m) => [m] case None => [];
    headerWarnings := PushWhen(headerWarnings, Routed(email), RoutingWarning);
    headerWarnings := PushWhen(headerWarnings, PhpMailer(email), PhpWarning);
    headerWarnings := PushWhen(headerWarnings, suspiciousSender, SenderWarning);
    HeaderWarningsSpec(email);
    r := HeaderAnalysis(spf, dkim, dmarc, suspiciousSender, headerWarnings);
  }

  /** The four kinds of warning are told apart by their text, and each has
      its own rank. */
  lemma WarningKinds(m: string)
    requires StartsWith(m, MismatchHead)
    ensures WarningRank(m) == 0 && WarningRank(RoutingWarning) == 1
    ensures WarningRank(PhpWarning) == 2 && WarningRank(SenderWarning) == 3
    ensures m != RoutingWarning && m != PhpWarning && m != SenderWarning
    ensures !StartsWith(RoutingWarning, MismatchHead) && !StartsWith(PhpWarning, MismatchHead)
    ensures !StartsWith(SenderWarning, MismatchHead)
  {
    assert RoutingWarning[0] != MismatchHead[0];
    assert PhpWarning[0] != MismatchHead[0];
    assert SenderWarning[0] != MismatchHead[0];
    assert m[0] == MismatchHead[0];
  }

  /** The warnings come in the fixed order mismatch, routing, PHP mailer,
      sender, so there are at most four. */
  lemma FlaggedOrder(mismatch: Option<string>, routed: bool, php: bool, sender: bool)
    requires mismatch.Some? ==> StartsWith(mismatch.value, MismatchHead)
    ensures var ws := Flagged(mismatch, routed, php, sender);
      && (forall i, j :: 0 <= i < j < |ws| ==> WarningRank(ws[i]) < WarningRank(ws[j]))
      && |ws| <= 4
  {
    WarningKinds(MismatchHead);
    if mismatch.Some? {
      WarningKinds(mismatch.value);
    }
  }

  /** Each warning is there exactly when its check fired. */
  lemma FlaggedMembers(mismatch: Option<string>, routed: bool, php: bool, sender: bool)
    requires mismatch.Some? ==> StartsWith(mismatch.value, MismatchHead)
    ensures var ws := Flagged(mismatch, routed, php, sender);
      && ((|ws| > 0 && StartsWith(ws[0], MismatchHead)) <==> mismatch.Some?)
      && (RoutingWarning in ws <==> routed)
      && (PhpWarning in ws <==> php)
      && (SenderWarning in ws <==> sender)
  {
    WarningKinds(MismatchHead);
    if mismatch.Some? {
      WarningKinds(mismatch.value);
    }
  }

  /** The warnings come in the fixed order mismatch, routing, PHP mailer,
      sender, each at most once, and each is there exactly when its check
      fired. */
  lemma FlaggedSpec(mismatch: Option<string>, routed: bool, php: bool, sender: bool)
    requires mismatch.Some? ==> StartsWith(mismatch.value, MismatchHead)
    ensures var ws := Flagged(mismatch, routed, php, sender);
      && (forall i, j :: 0 <= i < j < |ws| ==> WarningRank(ws[i]) < WarningRank(ws[j]))
      && |ws| <= 4
      && ((|ws| > 0 && StartsWith(ws[0], MismatchHead)) <==> mismatch.Some?)
      && (RoutingWarning in ws <==> routed)
      && (PhpWarning in ws <==> php)
      && (SenderWarning in ws <==> sender)
  {
    FlaggedOrder(mismatch, routed, php, sender);
    FlaggedMembers(mismatch, routed, php, sender);
  }

  /** The header warnings of a message: the mismatch warning leads exactly
      when both domains were found and differ, and each other warning is
      there exactly when its header test holds; the order is fixed and none
      repeats. */
  lemma HeaderWarningsSpec(email: string)
    ensures var ws := HeaderWarnings(email);
      && (forall i, j :: 0 <= i < j < |ws| ==> WarningRank(ws[i]) < WarningRank(ws[j]))
      && |ws| <= 4
      && ((|ws| > 0 && StartsWith(ws[0], MismatchHead)) <==> DomainsDiffer(email))
      && (RoutingWarning in ws <==> Routed(email))
      && (PhpWarning in ws <==> PhpMailer(email))
      && (SenderWarning in ws <==> SuspiciousSender(FromAddress(email)))
  {
    var m := MismatchOf(email);
    if m.Some? {
      assert m.value[..|MismatchHead|] == MismatchHead;
    }
    FlaggedSpec(m, Routed(email), PhpMailer(email), SuspiciousSender(FromAddress(email)));
  }

  // ---------------------------------------------------------------------
  // Links

  /** Every match of `f` at a position from `i` to below `n`, in order
      (`text.match` with the `g` flag): after a match the scan resumes where
      it ended, or one position on when the match is empty. */
  function AllMatches(f: nat -> Option<Hit>, n: nat, i: nat): seq<string>
    decreases n - i
  {
    if i >= n then []
    else
      match f(i)
      case Some(h) => [h.group] + AllMatches(f, n, i + (if h.len > 0 then h.len else 1))
      case None => AllMatches(f, n, i + 1)
  }

  /** `u` is what `f` matched at some position from `i` to below `n`. */
  ghost predicate MatchedFrom(f: nat -> Option<Hit>, n: nat, i: nat, u: string)
  {
    exists j :: i <= j < n && f(j).Some? && f(j).value.group == u
  }

  /** Each string the scan collects is a match of `f` at a scanned position. */
  lemma {:induction false} AllMatchesFound(f: nat -> Option<Hit>, n: nat, i: nat)
    ensures forall u :: u in AllMatches(f, n, i) ==> MatchedFrom(f, n, i, u)
    decreases n - i
  {
    if i < n {
      match f(i)
      case Some(h) =>
        var next := i + (if h.len > 0 then h.len else 1);
        AllMatchesFound(f, n, next);
        forall u | u in AllMatches(f, n, i)
          ensures MatchedFrom(f, n, i, u)
        {
          if u == h.group {
            assert i <= i < n && f(i).Some? && f(i).value.group == u;
          } else {
            assert u in AllMatches(f, n, next);
            var j :| next <= j < n && f(j).Some? && f(j).value.group == u;
            assert i <= j;
          }
        }
      case None =>
        AllMatchesFound(f, n, i + 1);
        forall u | u in AllMatches(f, n, i)
          ensures MatchedFrom(f, n, i, u)
        {
          assert u in AllMatches(f, n, i + 1);
          var j :| i + 1 <= j < n && f(j).Some? && f(j).value.group == u;
        }
    }
  }

  /** The link expression as a matcher on the positions of `s`. */
  function LinkFn(s: string): nat -> Option<Hit>
  {
    (j: nat) => LinkAt(s, j)
  }

  /** Every match of the link expression from `i` on, in order. */
  function LinksFrom(s: string, i: nat): seq<string>
  {
    AllMatches(LinkFn(s), |s|, i)
  }

  /** `extractUrls`: the matches, each kept once, in first-seen order. */
  function ExtractUrls(s: string): seq<string>
  {
    Dedup(LinksFrom(s, 0))
  }

  /** A piece of text that starts with `scheme`, ignoring case, and goes on
      without white space, starts with `scheme` once lower-cased and holds no
      white space at all. */
  lemma SchemeRun(s: string, i: nat, n: nat, scheme: string)
    requires i + n <= |s| && |scheme| <= n && MatchesCIAt(s, i, scheme)
    requires forall k :: 0 <= k < |scheme| ==> !IsWhitespace(scheme[k])
    requires forall k :: i + |scheme| <= k < i + n ==> !IsWhitespace(s[k])
    ensures StartsWith(Lower(s[i..i + n]), scheme)
    ensures forall k :: i <= k < i + n ==> !IsWhitespace(s[k])
  {
    var u := s[i..i + n];
    LowerSlice(s, i, i + n);
    assert Lower(u)[..|scheme|] == Lower(s)[i..i + |scheme|];
    forall k | i <= k < i + |scheme|
      ensures !IsWhitespace(s[k])
    {
      assert LowerChar(s[k]) == Lower(s)[k] == scheme[k - i];
    }
  }

  /** Neither scheme holds white space. */
  lemma SchemesVisible()
    ensures forall k :: 0 <= k < |"https://"| ==> !IsWhitespace("https://"[k])
    ensures forall k :: 0 <= k < |"http://"| ==> !IsWhitespace("http://"[k])
  {
  }

  /** A link match found with `scheme` is the piece of the text where it was
      found, starts with `scheme` once lower-cased and holds no white space. */
  lemma LinkWithScheme(s: string, i: nat, scheme: string)
    requires LinkAt(s, i).Some?
    requires LinkAt(s, i).value.len == |scheme| + Run(s, i + |scheme|, UrlChar)
    requires MatchesCIAt(s, i, scheme) && |scheme| > 0
    requires forall k :: 0 <= k < |scheme| ==> !IsWhitespace(scheme[k])
    ensures var u := LinkAt(s, i).value.group;
      && MatchesAt(s, i, u)
      && StartsWith(Lower(u), scheme)
      && forall k :: 0 <= k < |u| ==> !IsWhitespace(u[k])
  {
    var h := LinkAt(s, i).value;
    assert h.group == s[i..i + h.len];
    assert forall k :: i + |scheme| <= k < i + h.len ==> InClass(s[k], UrlChar);
    SchemeRun(s, i, h.len, scheme);
  }

  /** A link match is the piece of the text where it was found; it starts
      with the scheme and holds no white space. */
  lemma LinkHit(s: string, i: nat)
    requires LinkAt(s, i).Some?
    ensures var u := LinkAt(s, i).value.group;
      && MatchesAt(s, i, u)
      && (StartsWith(Lower(u), "http://") || StartsWith(Lower(u), "https://"))
      && forall k :: 0 <= k < |u| ==> !IsWhitespace(u[k])
  {
    SchemesVisible();
    if MatchesCIAt(s, i, "https://") && Run(s, i + 8, UrlChar) > 0 {
      LinkWithScheme(s, i, "https://");
    } else {
      LinkWithScheme(s, i, "http://");
    }
  }

  /** `u` is a piece of `s` that starts with the scheme, in any case, and
      holds no white space. */
  predicate LinkText(s: string, u: string)
  {
    && Contains(s, u)
    && (StartsWith(Lower(u), "http://") || StartsWith(Lower(u), "https://"))
    && forall k :: 0 <= k < |u| ==> !IsWhitespace(u[k])
  }

  /** Every link match is link text of the message. */
  lemma LinkAtText(s: string, i: nat)
    requires LinkAt(s, i).Some?
    ensures LinkText(s, LinkAt(s, i).value.group)
  {
    LinkHit(s, i);
  }

  /** Every string of `us` is a link taken from `s`. */
  predicate AllLinkText(s: string, us: seq<string>)
  {
    forall u :: u in us ==> LinkText(s, u)
  }

  /** Each match is a piece of the text that starts with the scheme and
      holds no white space. */
  lemma LinksFromSpec(s: string, i: nat)
    ensures AllLinkText(s, LinksFrom(s, i))
  {
    var f := LinkFn(s);
    AllMatchesFound(f, |s|, i);
    forall u | u in LinksFrom(s, i)
      ensures LinkText(s, u)
    {
      var j :| i <= j < |s| && f(j).Some? && f(j).value.group == u;
      assert f(j) == LinkAt(s, j);
      LinkAtText(s, j);
    }
  }

  // ---------------------------------------------------------------------
  // Suspicious links

  const LinkShorteners: seq<string> := ["bit.ly", "tinyurl", "goo.gl", "t.co"]
  const LinkKeywords: seq<string> := ["login", "verify", "secure", "account", "update"]
  const FreeTlds: seq<string> := [".xyz", ".tk", ".ml", ".ga", ".cf", ".gq"]

  /** `/-.*-.*-/`: three hyphens on one line. */
  predicate ThreeHyphens(u: string)
  {
    exists i, j, k ::
      && 0 <= i < j < k < |u| && u[i] == '-' && u[j] == '-' && u[k] == '-'
      && NoLineTerminator(u[i + 1..k])
  }

  /** `isSuspiciousUrl`: any of the five link patterns matches. */
  predicate IsSuspiciousUrl(u: string)
  {
    || UrlAnalyzer.HasIpAddress(u)
    || (exists w :: w in LinkShorteners && ContainsCI(u, w))
    || ThreeHyphens(u)
    || (exists w :: w in LinkKeywords && ContainsCI(u, w))
    || (exists w :: w in FreeTlds && EndsWithCI(u, w))
  }

  /** `urls.filter(isSuspiciousUrl)` */
  function SuspiciousOnly(urls: seq<string>): seq<string>
  {
    if |urls| == 0 then []
    else (if IsSuspiciousUrl(urls[0]) then [urls[0]] else []) + SuspiciousOnly(urls[1..])
  }

  lemma {:induction false} SuspiciousOnlySpec(urls: seq<string>)
    ensures forall u :: u in SuspiciousOnly(urls) <==> u in urls && IsSuspiciousUrl(u)
    ensures IsSubsequence(SuspiciousOnly(urls), urls)
    ensures |SuspiciousOnly(urls)| <= |urls|
    ensures NoDuplicates(urls) ==> NoDuplicates(SuspiciousOnly(urls))
  {
    if |urls| > 0 {
      SuspiciousOnlySpec(urls[1..]);
      var rest := SuspiciousOnly(urls[1..]);
      if IsSuspiciousUrl(urls[0]) {
        assert ([urls[0]] + rest)[1..] == rest;
        if NoDuplicates(urls) {
          assert urls[0] !in urls[1..];
        }
      } else {
        assert [] + rest == rest;
      }
    }
  }

  function LinkReport(email: string): Links
  {
    var urls := ExtractUrls(email);
    var suspicious := SuspiciousOnly(urls);
    Links(|urls|, |suspicious|, suspicious)
  }

  /** The reported links are the suspicious ones among the extracted URLs,
      in order and without repeats, so there are never more of them than
      URLs. */
  lemma LinkReportSpec(email: string)
    ensures var l := LinkReport(email);
      && l.suspicious == |l.urls| <= l.total
      && NoDuplicates(l.urls)
      && IsSubsequence(l.urls, ExtractUrls(email))
      && forall u :: u in l.urls <==> u in LinksFrom(email, 0) && IsSuspiciousUrl(u)
  {
    DedupSpec(LinksFrom(email, 0));
    SuspiciousOnlySpec(ExtractUrls(email));
  }

  // ---------------------------------------------------------------------
  // Overall score

  /** `Math.round(t / 5)` for a whole number `t` of fifths of a point: the
      nearest integer, which is never a tie because a fifth is never one
      half. */
  function RoundFifths(t: int): (r: int)
    ensures 5 * r - 2 <= t <= 5 * r + 2
  {
    (2 * t + 5) / 10
  }

  /** No other integer is as close: the rounding is the nearest one. */
  lemma RoundFifthsNearest(t: int, n: int)
    requires n != RoundFifths(t)
    ensures 5 * n - t > 2 || t - 5 * n > 2
  {
  }

  /** The weighted sum of the findings, in fifths of a point: the tone scores
      count one fifth each, an authentication failure or a suspicious sender
      ten points, a header warning five, the suspicious links fifteen each up
      to thirty, and each reassuring indicator takes off five. */
  function ScoreFifths(t: TextAnalysis, h: HeaderAnalysis, l: Links): int
  {
    t.urgencyScore + t.fraudTone
    + (if h.spf == "fail" then 50 else 0)
    + (if h.dkim == "fail" then 50 else 0)
    + (if h.dmarc == "fail" then 50 else 0)
    + (if h.suspiciousSender then 50 else 0)
    + 25 * |h.headerWarnings|
    + (if l.suspicious > 0 then 5 * Min(30, 15 * l.suspicious) else 0)
    - 25 * |t.legitimateIndicators|
  }

  /** The scoring section of `analyzeEmail`, before rounding: the running
      score is kept in fifths of a point, so that the 0.2 weight of the tone
      scores stays exact. */
  method WeighFindings(t: TextAnalysis, h: HeaderAnalysis, l: Links) returns (score: int)
    ensures score == ScoreFifths(t, h, l)
  {
    score := 0;
    score := score + (t.urgencyScore + t.fraudTone);
    score := AddWhen(score, h.spf == "fail", 50);
    score := AddWhen(score, h.dkim == "fail", 50);
    score := AddWhen(score, h.dmarc == "fail", 50);
    score := AddWhen(score, h.suspiciousSender, 50);
    score := score + |h.headerWarnings| * 25;
    score := AddWhen(score, l.suspicious > 0, 5 * Min(30, l.suspicious * 15));
    score := score - |t.legitimateIndicators| * 25;
  }

  /** `analyzeEmail` */
  method AnalyzeEmail(email: string) returns (r: EmailAnalysisResult)
    ensures r.textAnalysis == TextReport(email)
    ensures r.headerAnalysis == HeaderReport(email)
    ensures r.links == LinkReport(email)
    ensures r.overallScore == Clamp(RoundFifths(ScoreFifths(r.textAnalysis, r.headerAnalysis, r.links)), 0, 100)
  {
    var urgencyScore := UrgencyScore(email);
    var fraudTone := FraudTone(email);
    var suspiciousPatterns :=
      Take(ExtractPatternLabels(email, UrgencyPatterns), 3) + Take(ExtractPatternLabels(email, FraudPatterns), 3);
    var legitimateIndicators := ExtractPatternLabels(email, LegitimatePatterns);
    var headerAnalysis := AnalyzeHeaders(email);
    var urls := ExtractUrls(email);
    var suspiciousUrls := SuspiciousOnly(urls);

    var textAnalysis := TextAnalysis(urgencyScore, fraudTone, suspiciousPatterns, legitimateIndicators);
    var links := Links(|urls|, |suspiciousUrls|, suspiciousUrls);
    var score := WeighFindings(textAnalysis, headerAnalysis, links);
    r := EmailAnalysisResult(textAnalysis, headerAnalysis, links, Clamp(RoundFifths(score), 0, 100));
  }

  /** The score of a message lies in [0, 100]; it is 0 when nothing raised
      it, and it can only reach 100 through findings worth at least 99.5
      points. */
  lemma EmailScoreSpec(email: string)
    ensures var t := TextReport(email);
      var h := HeaderReport(email);
      var l := LinkReport(email);
      var score := Clamp(RoundFifths(ScoreFifths(t, h, l)), 0, 100);
      && 0 <= score <= 100
      && (score == 100 <==> ScoreFifths(t, h, l) >= 498)
      && (score == 0 <==> ScoreFifths(t, h, l) <= 2)
  {
  }
}
