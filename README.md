# phish-guard-ai analyzers in Dafny

This project models the three analysis engines of phish-guard-ai and proves
properties of the models. The engines score a URL, an e-mail message and a
password for phishing or weakness risk.

- `text.dfy` (module `Text`) holds the string toolkit the engines share:
  - ASCII case mapping and the ECMAScript white-space and line-terminator classes;
  - `trim`, `split` and `includes`/`startsWith`/`endsWith`, with their case-insensitive forms;
  - decimal rendering, `Math.min`/`Math.max` clamping, `slice(0, n)`;
  - the order-keeping de-duplication of `new Set`;
  - strings assembled from parts.
- `url_analyzer.dfy` (module `UrlAnalyzer`) models `src/lib/urlAnalyzer.ts`. It contains:
  - the shortener, top-level-domain, brand and keyword tables;
  - one predicate per heuristic: IP address, shortener, suspicious top-level
    domain, typosquatting, excessive subdomains, phishing keywords, percent
    encoding and unusual port;
  - `DetectTyposquatting`, the nested brand/pattern loop with early return;
  - `AnalyzeUrl`, which runs the nine checks in order. Each check may add a
    check row, a warning and points. The score is clamped to [0, 100].
- `email_analyzer.dfy` (module `EmailAnalyzer`) models `src/lib/emailAnalyzer.ts`. It contains:
  - the urgency, fraud, sender and reassurance pattern tables;
  - the regular expressions the analyzer uses, written as matchers at one
    position (`ProbeAt`) plus a leftmost search (`Search`);
  - pattern counting and labels;
  - header analysis: the authentication results, From/Return-Path domain
    mismatch, routing through `.ru`/`.cn`/`.ng`, PHP mailer and suspicious sender;
  - link extraction and link scoring;
  - `AnalyzeEmail` and its weighted overall score.
  The record `AnalysisResult` of `src/components/AnalysisResults.tsx` is
  modelled as the datatypes `TextAnalysis`, `HeaderAnalysis`, `Links` and
  `EmailAnalysisResult`.
- `password_analyzer.dfy` (module `PasswordAnalyzer`) models `src/lib/passwordAnalyzer.ts`:
  - the seven composition checks and their points;
  - the clamped score and its strength band;
  - the suggestions for the failed checks;
  - the brute-force crack-time estimate.
- `samples.dfy` (module `Samples`) states what the analyses give for the
  sample inputs the user interface offers. The sample URL scores the
  maximum. The sample message's mailer and routing header lines are
  flagged, its From address is a suspicious sender, and its link is a
  suspicious link. The password samples `"password"` and `"Tr0ub4dor&3!XYZ"`
  are stated in `password_analyzer.dfy`.

`new URL(...)` is not modelled. Every URL operation takes the parser as a
parameter `parse: string -> Option<ParsedUrl>`, where `None` means the
constructor threw. The functions that read the URL (`ExtractDomain`,
`HasUnusualPort`, `Signals`) follow the source's `try`/`catch` branches on
that result.

Where the project's written design and the code disagree, the model follows
the code:

- `suspiciousPatterns` holds up to six labels: three urgency labels and
  three fraud labels, taken after the five-label cut of
  `extractPatternLabels`.
- A URL report has eight check rows, plus a ninth ("Port Number") only when
  the port check fires.

## Model

| member | source | states |
|---|---|---|
| Text.TrimSpec | src/lib/urlAnalyzer.ts:155 | `trim` returns a window of the input that neither starts nor ends with white space |
| Text.SplitSpec | src/lib/urlAnalyzer.ts:124-127 | `split('.')` yields one more part than there are dots; no part holds the separator; joining the parts gives back the input |
| Text.DecimalRoundTrip | src/lib/passwordAnalyzer.ts:153-158 | the decimal text of a whole number reads back as that number |
| Text.NatToString | src/lib/passwordAnalyzer.ts:153-158 | the decimal text is non-empty, all digits, and has no leading zero |
| Text.Clamp | src/lib/urlAnalyzer.ts:330 | `Math.min(hi, Math.max(lo, x))` lies in [lo, hi], is `x` inside the range and the nearer bound outside it |
| Text.Take | src/lib/emailAnalyzer.ts:83 | `slice(0, n)` is the prefix of length `min(n, length)` |
| Text.DedupSpec | src/lib/emailAnalyzer.ts:56 | `[...new Set(xs)]` has the same members as `xs`, no repeats, is a subsequence of `xs` and keeps first-occurrence order |
| Text.LowerIdempotent | src/lib/urlAnalyzer.ts:95 | lower-casing twice is lower-casing once |
| UrlAnalyzer.NormalizeSpec | src/lib/urlAnalyzer.ts:155-156 | the full URL starts with `http`; it is the trimmed input exactly when that starts with `http`, and otherwise it is `https://` before the trimmed input |
| UrlAnalyzer.NormalizeIdempotent | src/lib/urlAnalyzer.ts:155-156 | normalising a normalised URL changes nothing |
| UrlAnalyzer.ExtractDomain | src/lib/urlAnalyzer.ts:70-77 | `extractDomain`: the parsed host name in lower case, or the lower-cased string when the parser throws; its properties are `ExtractDomainSpec` |
| UrlAnalyzer.ExtractDomainSpec | src/lib/urlAnalyzer.ts:70-77 | the domain never holds an upper-case letter; it is the lower-cased input when the parser rejects it, and otherwise as long as the parsed host name |
| UrlAnalyzer.HasIpAddress | src/lib/urlAnalyzer.ts:79-82 | `hasIpAddress`: a dotted quad of one-to-three-digit groups occurs somewhere; its properties are `DottedQuadDetected` and `NoDigitNoIp` |
| UrlAnalyzer.GroupAt | src/lib/urlAnalyzer.ts:80 | one group of one to three digits, then a dot, starts a match of the dotted-number expression |
| UrlAnalyzer.GroupsFrom | src/lib/urlAnalyzer.ts:80 | a dotted run of digit groups matches the expression with that many groups |
| UrlAnalyzer.DottedQuadDetected | src/lib/urlAnalyzer.ts:79-82 | any text holding four dotted groups of one to three digits is flagged as holding an IP address |
| UrlAnalyzer.NoDigitNoIp | src/lib/urlAnalyzer.ts:79-82 | a text without digits is never flagged as an IP address |
| UrlAnalyzer.IsUrlShortener | src/lib/urlAnalyzer.ts:84-88 | `isUrlShortener`: the domain equals a listed shortener or ends with a dot and one; its property is `ShortenerSubdomain` |
| UrlAnalyzer.ShortenerSubdomain | src/lib/urlAnalyzer.ts:84-88 | every subdomain of a shortener's domain is a shortener too |
| UrlAnalyzer.HasSuspiciousTld | src/lib/urlAnalyzer.ts:90-92 | `hasSuspiciousTld`: the domain ends with a listed extension; its property is `SuspiciousTldPrefix` |
| UrlAnalyzer.SuspiciousTldPrefix | src/lib/urlAnalyzer.ts:90-92 | the suspicious-extension test depends only on the end of the domain |
| UrlAnalyzer.HasExcessiveSubdomains | src/lib/urlAnalyzer.ts:124-127 | `hasExcessiveSubdomains`: `split('.')` gives more than four parts; its property is `ExcessiveSubdomainsByDots` |
| UrlAnalyzer.ExcessiveSubdomainsByDots | src/lib/urlAnalyzer.ts:124-127 | a domain has excessive subdomains exactly when it holds at least four dots |
| UrlAnalyzer.TyposquatVerdict | src/lib/urlAnalyzer.ts:94-122 | what `detectTyposquatting` returns; its properties are `TyposquatVerdictSpec`, and `DetectTyposquatting` is proved to compute it |
| UrlAnalyzer.FirstBrandHitSpec | src/lib/urlAnalyzer.ts:97-121 | the scan from brand `k` finds nothing exactly when no later brand is hit; otherwise it reports the first brand hit |
| UrlAnalyzer.TyposquatVerdictSpec | src/lib/urlAnalyzer.ts:94-122 | the verdict is null exactly when no brand is hit by the lower-cased domain; otherwise it names the first brand in table order that is hit |
| UrlAnalyzer.DetectTyposquatting | src/lib/urlAnalyzer.ts:94-122 | the nested loop with early returns yields the first-hit verdict |
| UrlAnalyzer.FindSuspiciousKeywords | src/lib/urlAnalyzer.ts:129-132 | `findSuspiciousKeywords`: the table keywords the lower-cased URL contains; its property is `FilterContainedSpec` |
| UrlAnalyzer.FilterContainedSpec | src/lib/urlAnalyzer.ts:129-132 | the keywords found are exactly the table keywords the URL contains, in table order |
| UrlAnalyzer.EncodedCountBound | src/lib/urlAnalyzer.ts:134-139 | the number of non-overlapping `%XX` matches is at most a third of the length scanned |
| UrlAnalyzer.EncodedCountNoPercent | src/lib/urlAnalyzer.ts:134-139 | a text without `%` has no `%XX` match |
| UrlAnalyzer.EncodedCountAtLeast | src/lib/urlAnalyzer.ts:134-139 | escapes at increasing positions, each at least three after the one before, are all counted |
| UrlAnalyzer.HasEncodedCharacters | src/lib/urlAnalyzer.ts:134-139 | `hasEncodedCharacters`: more than three `%XX` matches; its properties are `EncodedCharactersSpec` |
| UrlAnalyzer.EncodedCharactersSpec | src/lib/urlAnalyzer.ts:134-139 | a URL without `%` is never flagged, and four well-separated escapes always flag it |
| UrlAnalyzer.HasUnusualPort | src/lib/urlAnalyzer.ts:141-151 | `hasUnusualPort`; its properties are `UnusualPortSpec` |
| UrlAnalyzer.UnusualPortSpec | src/lib/urlAnalyzer.ts:141-151 | a URL the parser rejects, or one without an explicit port, is never flagged; a URL is flagged exactly when its explicit port is none of 80, 443, 8080 and 8443 |
| UrlAnalyzer.Signals | src/lib/urlAnalyzer.ts:338-349 | the `details` record: protocol without its colon, `https` test and the eight heuristic results; `AnalyzeUrl` reports it and `ReportSpec` states what the checks make of it |
| UrlAnalyzer.RunCheck | src/lib/urlAnalyzer.ts:174-327 | each if/else block appends the check row, warning and points of its check, as the report specification does |
| UrlAnalyzer.AnalyzeUrl | src/lib/urlAnalyzer.ts:153-351 | the result holds the normalised URL, the domain, the signals, and the check rows, warnings and clamped score of all nine checks |
| UrlAnalyzer.CheckAtSpec | src/lib/urlAnalyzer.ts:174-327 | every row carries its check's name; rows 1-8 are safe exactly when their check did not fire; the keyword row is danger exactly from two keywords; the port row is a warning |
| UrlAnalyzer.TallyChecks | src/lib/urlAnalyzer.ts:174-327 | after `n` checks there is one row per check (the port row only when it fires), each the row of its check |
| UrlAnalyzer.TallyWarnings | src/lib/urlAnalyzer.ts:174-327 | there is exactly one warning per row that is not safe |
| UrlAnalyzer.TallyAlerts | src/lib/urlAnalyzer.ts:174-327 | the warnings are the texts of the fired checks, in check order |
| UrlAnalyzer.TallyScore | src/lib/urlAnalyzer.ts:174-327 | the running score is never negative, and it is zero exactly when there is no warning |
| UrlAnalyzer.TallyScoreSum | src/lib/urlAnalyzer.ts:174-327 | the running score is the sum of the points of the checks run so far |
| UrlAnalyzer.GainSpec | src/lib/urlAnalyzer.ts:174-327 | the points of each check: 15, 25, 20, 15, 30 and 10 for the flags, 8 per keyword, 10 for encoding, 10 for the port |
| UrlAnalyzer.RawScoreSpec | src/lib/urlAnalyzer.ts:174-327 | the score before clamping is the weighted sum of the signals |
| UrlAnalyzer.ReportSpec | src/lib/urlAnalyzer.ts:170-330 | the report has eight rows, or nine with the port row; one warning per alerting row; the score is `min(100, raw)`, and it is 0 exactly when there are no warnings |
| EmailAnalyzer.Run | src/lib/emailAnalyzer.ts:99 | a character-class run is maximal: every character in it is in the class, and the next one is not |
| EmailAnalyzer.LastLineChar | src/lib/emailAnalyzer.ts:91 | the greedy `.+` stops at the last character before the end of the line |
| EmailAnalyzer.FirstAlternative | src/lib/emailAnalyzer.ts:87-89 | an alternation picks an alternative present at the position, and fails exactly when none is there |
| EmailAnalyzer.FirstAlternativeFirst | src/lib/emailAnalyzer.ts:87-89 | the alternative picked is the first one, in the order written, that is present at the position |
| EmailAnalyzer.PatternLength | src/lib/emailAnalyzer.ts:4-51 | a pattern's match at a position stays within the text |
| EmailAnalyzer.FromFieldAt | src/lib/emailAnalyzer.ts:91 | a `from:\s*(.+)` match stays within the text |
| EmailAnalyzer.ReturnPathAt | src/lib/emailAnalyzer.ts:100 | a `return-path:\s*<([^>]+)>` match stays within the text |
| EmailAnalyzer.AtRunAt | src/lib/emailAnalyzer.ts:99 | an `@(…+)` match stays within the text and captures at least one character |
| EmailAnalyzer.LinkAt | src/lib/emailAnalyzer.ts:54 | a link match is non-empty and stays within the text |
| EmailAnalyzer.ProbeAt | src/lib/emailAnalyzer.ts:87-101 | a match found at a position starts there and stays within the text |
| EmailAnalyzer.SearchNone | src/lib/emailAnalyzer.ts:87-101 | a search fails exactly when no position from the start on matches |
| EmailAnalyzer.SearchLeftmost | src/lib/emailAnalyzer.ts:87-101 | a successful search returns the match at its start position, and no earlier position matches |
| EmailAnalyzer.MatchingPatternsSpec | src/lib/emailAnalyzer.ts:71-73 | the patterns counted are exactly the table patterns the text matches, in table order |
| EmailAnalyzer.CountPatternMatches | src/lib/emailAnalyzer.ts:71-73 | `countPatternMatches`: the number of table patterns the text matches; its properties are `MatchingPatternsSpec` |
| EmailAnalyzer.ExtractPatternLabels | src/lib/emailAnalyzer.ts:75-84 | `extractPatternLabels`; its properties are `ExtractPatternLabelsSpec` and `LiteralLabel` |
| EmailAnalyzer.LabelNonEmpty | src/lib/emailAnalyzer.ts:78-82 | a table pattern that matches yields a non-empty label, so `.filter(Boolean)` drops nothing |
| EmailAnalyzer.LiteralLabel | src/lib/emailAnalyzer.ts:78-81 | the label of a word-list pattern is, in upper case, the first of its words in the pattern's order that occurs at the leftmost position where any of them occurs, ignoring case |
| EmailAnalyzer.NonEmptyOnlyKeeps | src/lib/emailAnalyzer.ts:82 | `.filter(Boolean)` keeps a list of non-empty labels unchanged |
| EmailAnalyzer.ExtractPatternLabelsSpec | src/lib/emailAnalyzer.ts:75-84 | the labels are the first five labels of matching patterns, one per matching pattern |
| EmailAnalyzer.TablesWellFormed | src/lib/emailAnalyzer.ts:4-51 | every pattern of the three tables can match only a non-empty text |
| EmailAnalyzer.ToneScoresSpec | src/lib/emailAnalyzer.ts:132-136 | urgency and fraud tone lie in [0, 100], are multiples of 15 and 12 below the cap, and reach 100 exactly from 7 and 9 matching patterns |
| EmailAnalyzer.TextReportSpec | src/lib/emailAnalyzer.ts:138-143 | up to three urgency labels then up to three fraud labels (at most six); up to five reassuring indicators |
| EmailAnalyzer.AuthResultSpec | src/lib/emailAnalyzer.ts:87-124 | each authentication result is pass, fail or none; it is none without a token, and otherwise the value written at the leftmost `key=` token |
| EmailAnalyzer.AuthResult | src/lib/emailAnalyzer.ts:87-89 | the `spf`, `dkim` or `dmarc` result read from the message; its properties are `AuthResultSpec` |
| EmailAnalyzer.AuthTokenAt | src/lib/emailAnalyzer.ts:87-89 | a token matches at a position exactly when `key=` and one of the three values are written there, in any case |
| EmailAnalyzer.FromFieldOneLine | src/lib/emailAnalyzer.ts:91 | the captured From value never spans a line break |
| EmailAnalyzer.FromAddressOneLine | src/lib/emailAnalyzer.ts:91-92 | the From address is on one line (empty when there is no From field) |
| EmailAnalyzer.SuspiciousSender | src/lib/emailAnalyzer.ts:37-43 | `SUSPICIOUS_SENDER_PATTERNS.some(...)`; its properties are `NoAtNotSuspicious`, `NoreplySuspicious` and `Samples.RoleVia` |
| EmailAnalyzer.NoAtNotSuspicious | src/lib/emailAnalyzer.ts:37-43 | every sender pattern needs an `@`, so an address without one is never suspicious |
| EmailAnalyzer.NoreplySuspicious | src/lib/emailAnalyzer.ts:39 | an address holding `noreply@` is suspicious whatever surrounds it |
| EmailAnalyzer.DomainsNonEmpty | src/lib/emailAnalyzer.ts:99-101 | a From or Return-Path domain, when found, is non-empty, so the `&&` test at line 103 only compares found domains |
| EmailAnalyzer.AnalyzeHeaders | src/lib/emailAnalyzer.ts:86-128 | the header report is the specified one; it has at most four warnings, and the sender warning is there exactly when the sender is flagged |
| EmailAnalyzer.FlaggedSpec | src/lib/emailAnalyzer.ts:96-119 | the warnings come in the order mismatch, routing, mailer, sender; each appears at most once, and exactly when its test fired |
| EmailAnalyzer.HeaderWarningsSpec | src/lib/emailAnalyzer.ts:96-119 | the mismatch warning leads exactly when both domains differ; routing, mailer and sender warnings appear exactly when their header tests hold |
| EmailAnalyzer.LinkHit | src/lib/emailAnalyzer.ts:54 | a link match is a piece of the text that starts with `http://` or `https://` in any case and holds no white space |
| EmailAnalyzer.LinksFromSpec | src/lib/emailAnalyzer.ts:53-57 | every extracted link is a piece of the text that starts with the scheme and holds no white space |
| EmailAnalyzer.ExtractUrls | src/lib/emailAnalyzer.ts:53-57 | `extractUrls`: the link matches without repeats in first-seen order; its properties are `Text.DedupSpec` and `LinksFromSpec` |
| EmailAnalyzer.IsSuspiciousUrl | src/lib/emailAnalyzer.ts:59-69 | `isSuspiciousUrl`: any of the five link patterns matches; its properties are `SuspiciousOnlySpec` and `Samples.KeywordLinkVia` |
| EmailAnalyzer.SuspiciousOnlySpec | src/lib/emailAnalyzer.ts:150 | the suspicious links are exactly the links that pass `isSuspiciousUrl`, in order, without new repeats |
| EmailAnalyzer.LinkReportSpec | src/lib/emailAnalyzer.ts:149-188 | the suspicious count is the length of the listed links and at most the total; the list has no repeats and holds exactly the suspicious extracted links |
| EmailAnalyzer.RoundFifths | src/lib/emailAnalyzer.ts:174 | `Math.round` of a whole number of fifths is within two fifths of it |
| EmailAnalyzer.RoundFifthsNearest | src/lib/emailAnalyzer.ts:174 | every other whole number is further than two fifths away, so the rounding is to the nearest |
| EmailAnalyzer.ScoreFifths | src/lib/emailAnalyzer.ts:153-171 | the weighted sum before rounding, in fifths of a point; its properties are `EmailScoreSpec` |
| EmailAnalyzer.AnalyzeEmail | src/lib/emailAnalyzer.ts:130-191 | the result holds the text, header and link reports, and the rounded, clamped weighted score |
| EmailAnalyzer.EmailScoreSpec | src/lib/emailAnalyzer.ts:153-174 | the score lies in [0, 100]; it is 100 exactly from 99.6 points before rounding and 0 exactly at 0.4 points or less |
| PasswordAnalyzer.PointsSpec | src/lib/passwordAnalyzer.ts:29-65 | the points of seven check results lie in [-40, 100]; clamping only lifts negatives to 0; the total is 100 exactly when every check passes |
| PasswordAnalyzer.Flags | src/lib/passwordAnalyzer.ts:29-60 | the seven check outcomes in declaration order; `RawScoreSpec`, `SuggestionsSpec` and `AnalyzePassword` state what is made of them |
| PasswordAnalyzer.RawScoreSpec | src/lib/passwordAnalyzer.ts:29-65 | the same bounds for a password's own checks: 100 exactly when all seven pass |
| PasswordAnalyzer.StrengthOf | src/lib/passwordAnalyzer.ts:90-96 | the strength band of a score; its property is `StrengthMonotone` |
| PasswordAnalyzer.StrengthMonotone | src/lib/passwordAnalyzer.ts:90-96 | a higher score never gives a weaker strength band |
| PasswordAnalyzer.FailedMessagesStep | src/lib/passwordAnalyzer.ts:67-88 | one more check appends its suggestion exactly when it failed |
| PasswordAnalyzer.FailedMessagesSpec | src/lib/passwordAnalyzer.ts:67-88 | one suggestion per failed check, in check order; none exactly when every check passes |
| PasswordAnalyzer.FailedMessages | src/lib/passwordAnalyzer.ts:67-88 | the texts of the failed checks in order; its properties are `FailedMessagesStep` and `FailedMessagesSpec` |
| PasswordAnalyzer.SuggestionTextsDistinct | src/lib/passwordAnalyzer.ts:67-88 | the seven suggestion texts are all different |
| PasswordAnalyzer.CharsetSize | src/lib/passwordAnalyzer.ts:140-144 | the character-set size is at most 94, and 0 exactly when the password uses none of the four classes |
| PasswordAnalyzer.RoundDiv | src/lib/passwordAnalyzer.ts:153-158 | `Math.round(c / d)` is the nearest integer, halves rounded up |
| PasswordAnalyzer.BucketMonotone | src/lib/passwordAnalyzer.ts:152-159 | more combinations never fall in an earlier time unit |
| PasswordAnalyzer.CrackTimeText | src/lib/passwordAnalyzer.ts:148-159 | the estimate text for a number of combinations; its properties are `BucketMonotone` and `InstantlySpec` |
| PasswordAnalyzer.EstimateCrackTime | src/lib/passwordAnalyzer.ts:139-160 | the estimate is "Instantly" for an empty character set, and otherwise the text for `charsetSize ^ length` combinations |
| PasswordAnalyzer.InstantlySpec | src/lib/passwordAnalyzer.ts:146-152 | the estimate reads "Instantly" exactly when guessing half the space takes less than a second at 10^10 guesses per second |
| PasswordAnalyzer.ScoreChecks | src/lib/passwordAnalyzer.ts:26-62 | the accumulated score is the sum of the check points |
| PasswordAnalyzer.Suggest | src/lib/passwordAnalyzer.ts:67-88 | the pushed suggestions are the texts of the failed checks in order |
| PasswordAnalyzer.Band | src/lib/passwordAnalyzer.ts:90-96 | the strength is the band of the score |
| PasswordAnalyzer.AnalyzePassword | src/lib/passwordAnalyzer.ts:25-137 | the result holds the clamped score, its band, the seven check results, the failed checks' suggestions and the crack-time estimate |
| PasswordAnalyzer.SuggestionsSpec | src/lib/passwordAnalyzer.ts:67-88 | a suggestion appears exactly for each failed check; there are none exactly when the score is 100; a password of 8 to 11 characters is always told to be longer |
| PasswordAnalyzer.CrackTimeInstantly | src/lib/passwordAnalyzer.ts:139-152 | a password with a non-empty character set cracks "Instantly" exactly when it has fewer than 2·10^10 combinations |
| PasswordAnalyzer.PasswordSampleClasses | src/lib/passwordAnalyzer.ts:35-48 | "password" has lower-case letters only |
| PasswordAnalyzer.PasswordSampleCommon | src/lib/passwordAnalyzer.ts:51-56 | "password" contains a listed common password |
| PasswordAnalyzer.PasswordSampleNoRepeat | src/lib/passwordAnalyzer.ts:58-62 | "password" has no character three times in a row |
| PasswordAnalyzer.PasswordSample | src/lib/passwordAnalyzer.ts:25-96 | "password" passes only the lower-case and repeat checks, scores 0, is very weak and gets five suggestions |
| PasswordAnalyzer.PasswordSampleCrackTime | src/lib/passwordAnalyzer.ts:139-159 | "password" draws on 26 characters, and its 26^8 combinations read "10 seconds" |
| PasswordAnalyzer.CharAbsent | src/lib/passwordAnalyzer.ts:51-53 | a text drawn from a set of characters does not contain a string with a character outside it |
| PasswordAnalyzer.PairAbsent | src/lib/passwordAnalyzer.ts:51-53 | a text in which two given characters never stand side by side does not contain a string where they do |
| PasswordAnalyzer.StrongSampleLowered | src/lib/passwordAnalyzer.ts:52 | "Tr0ub4dor&3!XYZ" lower-cased is "tr0ub4dor&3!xyz" |
| PasswordAnalyzer.StrongSampleForeignChar | src/lib/passwordAnalyzer.ts:17-23 | every listed password except "root" and "toor" has a character the lower-cased sample lacks |
| PasswordAnalyzer.StrongSampleNoDoubleO | src/lib/passwordAnalyzer.ts:17-23 | "root" and "toor" do not occur in the lower-cased sample |
| PasswordAnalyzer.StrongSampleNotCommon | src/lib/passwordAnalyzer.ts:51-56 | "Tr0ub4dor&3!XYZ" contains no listed password, ignoring case |
| PasswordAnalyzer.StrongSampleClasses | src/lib/passwordAnalyzer.ts:29-60 | "Tr0ub4dor&3!XYZ" has fifteen characters, all four classes and no triple repeat |
| PasswordAnalyzer.StrongSampleFlags | src/lib/passwordAnalyzer.ts:29-60 | "Tr0ub4dor&3!XYZ" passes all seven checks and draws on all 94 characters |
| PasswordAnalyzer.AllChecksPassed | src/lib/passwordAnalyzer.ts:26-96 | a password that passes all seven checks scores 100, is very strong and gets no suggestion |
| PasswordAnalyzer.StrongSample100 | src/lib/passwordAnalyzer.ts:26-96 | "Tr0ub4dor&3!XYZ" scores 100, is very strong, gets no suggestion and has a 94-character set |
| Samples.SampleHostLower | src/components/UrlAnalyzer.tsx:28 | the sample host is already lower case |
| Samples.SampleHostTld | src/components/UrlAnalyzer.tsx:28 | the sample host ends in the suspicious `.xyz` |
| Samples.SampleHostBrand | src/components/UrlAnalyzer.tsx:28 | the sample host imitates a brand |
| Samples.TrimmedVia | src/lib/urlAnalyzer.ts:155-156 | a concatenation that begins and ends with visible characters is already trimmed |
| Samples.SampleUrlTrimmed | src/components/UrlAnalyzer.tsx:28 | the sample URL is trimmed and starts with `http`, so it is not rewritten |
| Samples.SampleUrlLower | src/components/UrlAnalyzer.tsx:28 | the sample URL is already lower case |
| Samples.SampleKeywordsCount | src/lib/urlAnalyzer.ts:62-68 | the five words of the sample are distinct and each is a phishing keyword |
| Samples.PartIsKeyword | src/lib/urlAnalyzer.ts:129-132 | a URL assembled from parts contains each of its parts |
| Samples.SampleHostKeywords | src/components/UrlAnalyzer.tsx:28 | the sample URL contains `secure` and `login` |
| Samples.SamplePathKeywords | src/components/UrlAnalyzer.tsx:28 | the sample URL contains `verify`, `account` and `confirm` |
| Samples.KeywordsVia | src/lib/urlAnalyzer.ts:129-132 | a lower-case URL containing five distinct phishing keywords has each of them reported, and at least five reported |
| Samples.SampleFiveKeywords | src/components/UrlAnalyzer.tsx:28 | `secure`, `login`, `verify`, `account` and `confirm` are five distinct phishing keywords, each in the sample URL |
| Samples.SampleUrlKeywords | src/components/UrlAnalyzer.tsx:28 | at least five suspicious keywords are found in the sample URL |
| Samples.MaximalVia | src/lib/urlAnalyzer.ts:153-330 | a trimmed `http` URL on a lower-case host with a suspicious extension, a brand imitation and five keywords scores 100 |
| Samples.SampleUrlScore | src/components/UrlAnalyzer.tsx:28 | the sample URL, read as an `http:` URL on its host, has all those signals and scores 100 |
| Samples.PhpMailerVia | src/lib/emailAnalyzer.ts:113 | an `X-Mailer:` header followed on its line by `PHP` is flagged |
| Samples.RoutedVia | src/lib/emailAnalyzer.ts:108 | a `Received:` header followed on its line by `.ru` is flagged |
| Samples.RoleVia | src/lib/emailAnalyzer.ts:37-43 | a sender address that starts with a role word and ends in a dotless host with an extension other than `.gov` or `.edu` is suspicious |
| Samples.MailerAndRouted | src/lib/emailAnalyzer.ts:107-115 | a message that is both a PHP mailer and routed through a listed country gets both warnings, so at least two |
| Samples.SampleHeaderWarnings | src/components/EmailInput.tsx:29-30 | a message with the sample's mailer and routing headers gets both warnings |
| Samples.SampleSenderSuspicious | src/components/EmailInput.tsx:25 | the sample's From address is a suspicious sender |
| Samples.KeywordLinkVia | src/lib/emailAnalyzer.ts:64 | a link containing `login`, `verify`, `secure`, `account` or `update` is suspicious, whatever surrounds the word |
| Samples.SampleLinkSuspicious | src/components/EmailInput.tsx:40 | the sample message's link is a suspicious link |

## Left out

- `new URL(...)` and its WHATWG parsing are a parameter. `UrlAnalyzer.AnalyzeUrl`, `ExtractDomain` and `HasUnusualPort` are proved for every parser, and `Samples.SampleUrlScore` assumes only what the parser returns for the sample.
- Lengths and indices count characters, not UTF-16 code units. `toLowerCase`/`toUpperCase` are modelled for ASCII letters only.
- The regular expressions are hand-written matchers. Each follows one expression's backtracking result (greedy `.+`, `\s*`, alternation order and leftmost search); there is no general regular-expression engine.
- `EmailAnalyzer.AnalyzeEmail`: the `0.2` weight of line 156 is computed exactly in fifths of a point, so there is no floating-point error. `Math.round` never meets a tie there.
- `PasswordAnalyzer.EstimateCrackTime`: `Math.pow` and the divisions are exact integer and rational arithmetic, not IEEE doubles. Near a unit boundary a double may round the other way. The text of a huge number is decimal digits, never the exponent form of JavaScript.
- `strength` is the datatype `Strength`, not the strings `"very-weak"` … `"very-strong"`.
- The check descriptions in `PasswordAnalyzer` follow the source texts, but the React components that render them are not part of this model; nor are `src/components/UrlAnalyzer.tsx` and `src/components/EmailInput.tsx` beyond their sample inputs.
- `AnalyzeUrl` and `AnalyzePassword` run their sequential if/else blocks through helper methods (`RunCheck`, `ScoreChecks`, `Suggest`, `Band`), one per source block or group of blocks. The order and content of the pushes are unchanged.
- `Samples`: the analyses are not evaluated end to end on the full sample message. `SampleHeaderWarnings` covers its mailer and routing lines inside any surrounding text. `SampleSenderSuspicious` covers the address as written on its From line, not its extraction from the message. `SampleLinkSuspicious` covers the link as written, not its extraction into `links.urls`. The message's `overallScore` of at least 50 is not proved.
- `EmailAnalyzer.IsSuspiciousUrl`: the shortener alternative `t\.co` matches inside longer names (for example `…chat.com`). The model keeps this exact behaviour and proves nothing that depends on it.
