/** The password analyzer: seven composition checks, each worth fixed
    points (two of them cost points when they fail), a score clamped to
    [0, 100] and banded into a strength, one suggestion per failed check,
    and a brute-force crack-time estimate from the size of the character
    set the password draws on. */
module PasswordAnalyzer {
  import opened Text

  datatype Strength = VeryWeak | Weak | Fair | Strong | VeryStrong

  datatype CheckResult = CheckResult(passed: bool, message: string)

  datatype Checks = Checks(
    length: CheckResult,
    uppercase: CheckResult,
    lowercase: CheckResult,
    numbers: CheckResult,
    special: CheckResult,
    noCommon: CheckResult,
    noRepeating: CheckResult)

  datatype PasswordAnalysisResult = PasswordAnalysisResult(
    score: int,
    strength: Strength,
    checks: Checks,
    suggestions: seq<string>,
    crackTime: string)

  const CommonPasswords: seq<string> := [
    "password", "123456", "12345678", "qwerty", "abc123", "monkey", "1234567",
    "letmein", "trustno1", "dragon", "baseball", "iloveyou", "master", "sunshine",
    "ashley", "bailey", "shadow", "123123", "654321", "superman", "qazwsx",
    "michael", "football", "password1", "password123", "welcome", "jesus", "ninja",
    "mustang", "password1234", "admin", "admin123", "root", "toor", "pass", "test"
  ]

  /** The class `[!@#$%^&*()_+\-=\[\]{};':"\\|,.<>\/?`~]`: 32 characters. */
  const SpecialChars: set<char> := {
    '!', '@', '#', '$', '%', '^', '&', '*', '(', ')', '_', '+', '-', '=', '[', ']',
    '{', '}', ';', '\'', ':', '"', '\\', '|', ',', '.', '<', '>', '/', '?', '`', '~'
  }

  // ---------------------------------------------------------------------
  // The seven checks

  /** `/[A-Z]/` */
  predicate HasUpper(p: string) { exists k :: 0 <= k < |p| && IsUpperLetter(p[k]) }

  /** `/[a-z]/` */
  predicate HasLower(p: string) { exists k :: 0 <= k < |p| && IsLowerLetter(p[k]) }

  /** `/\d/` */
  predicate HasDigit(p: string) { exists k :: 0 <= k < |p| && IsDigit(p[k]) }

  predicate HasSpecial(p: string) { exists k :: 0 <= k < |p| && p[k] in SpecialChars }

  /** Some listed password occurs in the lower-cased password. */
  predicate IsCommon(p: string)
  {
    exists c :: c in CommonPasswords && Contains(Lower(p), c)
  }

  /** `/(.)\1{2,}/`: one character, not a line terminator, three times in a row. */
  predicate HasTripleRepeat(p: string)
  {
    exists k :: 0 <= k && k + 2 < |p| && !IsLineTerminator(p[k]) && p[k] == p[k + 1] && p[k + 1] == p[k + 2]
  }

  /** The outcome of the checks in declaration order: length, uppercase,
      lowercase, numbers, special, noCommon, noRepeating. */
  function Flags(p: string): (f: seq<bool>)
    ensures |f| == 7
  {
    [|p| >= 12, HasUpper(p), HasLower(p), HasDigit(p), HasSpecial(p), !IsCommon(p), !HasTripleRepeat(p)]
  }

  predicate AllPassed(f: seq<bool>)
  {
    forall k :: 0 <= k < |f| ==> f[k]
  }

  // ---------------------------------------------------------------------
  // Score

  /** 20 points from twelve characters on, 10 from eight. */
  function LengthPoints(n: nat): int
  {
    if n >= 12 then 20 else if n >= 8 then 10 else 0
  }

  /** The points for a password of length `n` whose checks came out as `f`:
      20 or 10 for length, 15 for each of the three letter and digit classes,
      20 for a special character, +10 or -30 for the common-password check,
      and +5 or -10 for the repetition check. */
  function Points(n: nat, f: seq<bool>): int
    requires |f| == 7
  {
    LengthPoints(n)
    + (if f[1] then 15 else 0) + (if f[2] then 15 else 0) + (if f[3] then 15 else 0)
    + (if f[4] then 20 else 0)
    + (if f[5] then 10 else -30)
    + (if f[6] then 5 else -10)
  }

  /** The points before clamping. */
  function RawScore(p: string): int
  {
    Points(|p|, Flags(p))
  }

  /** The raw points never exceed 100, so only the lower bound of the clamp
      ever applies; and they reach 100 exactly when every check passes. */
  lemma PointsSpec(n: nat, f: seq<bool>)
    requires |f| == 7 && f[0] == (n >= 12)
    ensures -40 <= Points(n, f) <= 100
    ensures Clamp(Points(n, f), 0, 100) == if Points(n, f) < 0 then 0 else Points(n, f)
    ensures Points(n, f) == 100 <==> AllPassed(f)
  {
    if !AllPassed(f) {
      var k :| 0 <= k < 7 && !f[k];
      assert Points(n, f) <= 90;
    }
  }

  lemma RawScoreSpec(p: string)
    ensures -40 <= RawScore(p) <= 100
    ensures Clamp(RawScore(p), 0, 100) == if RawScore(p) < 0 then 0 else RawScore(p)
    ensures RawScore(p) == 100 <==> AllPassed(Flags(p))
  {
    PointsSpec(|p|, Flags(p));
  }

  // ---------------------------------------------------------------------
  // Strength

  /** The strength band of a clamped score. */
  function StrengthOf(score: int): Strength
  {
    if score >= 85 then VeryStrong
    else if score >= 70 then Strong
    else if score >= 50 then Fair
    else if score >= 30 then Weak
    else VeryWeak
  }

  function Rank(s: Strength): nat
  {
    match s
    case VeryWeak => 0
    case Weak => 1
    case Fair => 2
    case Strong => 3
    case VeryStrong => 4
  }

  /** A higher score never gets a weaker band. */
  lemma StrengthMonotone(a: int, b: int)
    requires a <= b
    ensures Rank(StrengthOf(a)) <= Rank(StrengthOf(b))
  {
  }

  // ---------------------------------------------------------------------
  // Check messages and suggestions

  const PassMessages: seq<string> := [
    "12+ characters", "Has uppercase letters", "Has lowercase letters", "Contains numbers",
    "Has special characters", "Not a common password", "No repeating characters"
  ]

  const FailMessages: seq<string> := [
    "Less than 12 characters", "No uppercase letters", "No lowercase letters", "No numbers",
    "No special characters", "Contains common password pattern", "Has repeating characters"
  ]

  const SuggestionTexts: seq<string> := [
    "Use at least 12 characters " + "for better security",
    "Add uppercase letters (A-Z)",
    "Add lowercase letters (a-z)",
    "Include numbers (0-9)",
    "Add special characters (!@#$%^&*)",
    "Avoid common passwords and dictionary words",
    "Avoid repeating characters (aaa, 111)"
  ]

  /** The check record for check `k` with outcome `passed`. */
  function CheckOf(passed: bool, k: nat): CheckResult
    requires k < 7
  {
    CheckResult(passed, if passed then PassMessages[k] else FailMessages[k])
  }

  function ChecksOf(f: seq<bool>): Checks
    requires |f| == 7
  {
    Checks(CheckOf(f[0], 0), CheckOf(f[1], 1), CheckOf(f[2], 2), CheckOf(f[3], 3),
           CheckOf(f[4], 4), CheckOf(f[5], 5), CheckOf(f[6], 6))
  }

  /** The outcomes recorded in a check record, in declaration order. */
  function PassedFlags(c: Checks): seq<bool>
  {
    [c.length.passed, c.uppercase.passed, c.lowercase.passed, c.numbers.passed,
     c.special.passed, c.noCommon.passed, c.noRepeating.passed]
  }

  /** The check record keeps each outcome in its own field. */
  lemma PassedFlagsOfChecks(f: seq<bool>)
    requires |f| == 7
    ensures PassedFlags(ChecksOf(f)) == f
  {
  }

  /** The messages whose flag is false, in order. */
  function FailedMessages(f: seq<bool>, msgs: seq<string>): seq<string>
    requires |f| == |msgs|
  {
    if |f| == 0 then []
    else FailedMessages(f[..|f| - 1], msgs[..|f| - 1]) + (if f[|f| - 1] then [] else [msgs[|f| - 1]])
  }

  function CountFailed(f: seq<bool>): nat
  {
    if |f| == 0 then 0 else CountFailed(f[..|f| - 1]) + (if f[|f| - 1] then 0 else 1)
  }

  /** Taking one more check adds its message when it failed. */
  lemma FailedMessagesStep(f: seq<bool>, msgs: seq<string>, k: nat)
    requires |f| == |msgs| && k < |f|
    ensures FailedMessages(f[..k + 1], msgs[..k + 1])
      == FailedMessages(f[..k], msgs[..k]) + (if f[k] then [] else [msgs[k]])
  {
    assert f[..k + 1][..k] == f[..k];
    assert msgs[..k + 1][..k] == msgs[..k];
  }

  /** One message per failed check: none exactly when every check passed. */
  lemma {:induction false} FailedMessagesCount(f: seq<bool>, msgs: seq<string>)
    requires |f| == |msgs|
    ensures |FailedMessages(f, msgs)| == CountFailed(f)
    ensures FailedMessages(f, msgs) == [] <==> AllPassed(f)
  {
    if |f| > 0 {
      var n := |f| - 1;
      FailedMessagesCount(f[..n], msgs[..n]);
      if AllPassed(f[..n]) && f[n] {
        assert forall k :: 0 <= k < n ==> f[..n][k] == f[k];
      }
      if !AllPassed(f[..n]) {
        var k :| 0 <= k < n && !f[..n][k];
        assert !f[k];
      }
    }
  }

  /** The messages kept are among the given ones, in their order, and with
      distinct messages a message is kept exactly when its check failed. */
  lemma {:induction false} FailedMessagesMembers(f: seq<bool>, msgs: seq<string>)
    requires |f| == |msgs| && NoDuplicates(msgs)
    ensures forall x :: x in FailedMessages(f, msgs) ==> x in msgs
    ensures forall k :: 0 <= k < |f| ==> (msgs[k] in FailedMessages(f, msgs) <==> !f[k])
    ensures IsSubsequence(FailedMessages(f, msgs), msgs)
  {
    if |f| > 0 {
      var n := |f| - 1;
      FailedMessagesMembers(f[..n], msgs[..n]);
      var init := FailedMessages(f[..n], msgs[..n]);
      assert msgs == msgs[..n] + [msgs[n]];
      SubsequenceSnoc(init, msgs[..n], msgs[n]);
      if f[n] {
        assert FailedMessages(f, msgs) == init;
      } else {
        assert FailedMessages(f, msgs) == init + [msgs[n]];
      }
      assert msgs[n] !in msgs[..n];
      forall k | 0 <= k < n
        ensures msgs[k] in FailedMessages(f, msgs) <==> !f[k]
      {
        assert msgs[..n][k] == msgs[k] && f[..n][k] == f[k];
      }
    }
  }

  /** One message per failed check, in check order: none exactly when every
      check passed, and a message is present exactly when its check failed. */
  lemma FailedMessagesSpec(f: seq<bool>, msgs: seq<string>)
    requires |f| == |msgs| && NoDuplicates(msgs)
    ensures |FailedMessages(f, msgs)| == CountFailed(f)
    ensures FailedMessages(f, msgs) == [] <==> AllPassed(f)
    ensures forall x :: x in FailedMessages(f, msgs) ==> x in msgs
    ensures forall k :: 0 <= k < |f| ==> (msgs[k] in FailedMessages(f, msgs) <==> !f[k])
    ensures IsSubsequence(FailedMessages(f, msgs), msgs)
  {
    FailedMessagesCount(f, msgs);
    FailedMessagesMembers(f, msgs);
  }

  lemma SuggestionTextsDistinct()
    ensures NoDuplicates(SuggestionTexts)
  {
    assert SuggestionTexts[1][4] != SuggestionTexts[2][4];
  }

  // ---------------------------------------------------------------------
  // Crack time

  /** The size of the character set the password draws on: 26 for lower-case
      letters, 26 for upper-case letters, 10 for digits, 32 for the special
      characters. */
  function CharsetSize(p: string): (n: nat)
    ensures n <= 94
    ensures n == 0 <==> !HasLower(p) && !HasUpper(p) && !HasDigit(p) && !HasSpecial(p)
  {
    (if HasLower(p) then 26 else 0) + (if HasUpper(p) then 26 else 0)
    + (if HasDigit(p) then 10 else 0) + (if HasSpecial(p) then 32 else 0)
  }

  function Pow(b: nat, e: nat): nat
  {
    if e == 0 then 1 else b * Pow(b, e - 1)
  }

  /** At ten billion guesses a second, trying half the key space of `c`
      combinations takes `c / GuessesTwice` seconds; the time units below
      are in seconds. */
  const GuessesTwice := 20000000000
  const Minute := 60
  const Hour := 3600
  const Day := 86400
  const Year := 31536000

  /** `Math.round(c / d)` for positive `d`: the nearest integer, halves upward. */
  function RoundDiv(c: nat, d: nat): (r: nat)
    requires d > 0
    ensures d * (2 * r - 1) <= 2 * c < d * (2 * r + 1)
  {
    var q := (2 * c + d) / (2 * d);
    assert 2 * c + d == 2 * d * q + (2 * c + d) % (2 * d);
    q
  }

  /** The index of the time unit an estimate of `c` combinations falls in:
      0 instantly, 1 seconds, 2 minutes, 3 hours, 4 days, 5 years,
      6 thousand years, 7 millions of years. */
  function Bucket(c: nat): nat
  {
    if c < GuessesTwice then 0
    else if c < GuessesTwice * Minute then 1
    else if c < GuessesTwice * Hour then 2
    else if c < GuessesTwice * Day then 3
    else if c < GuessesTwice * Year then 4
    else if c < GuessesTwice * Year * 100 then 5
    else if c < GuessesTwice * Year * 1000000 then 6
    else 7
  }

  /** More combinations never land in an earlier bucket. */
  lemma BucketMonotone(c1: nat, c2: nat)
    requires c1 <= c2
    ensures Bucket(c1) <= Bucket(c2)
  {
  }

  const Instantly := "Instantly"
  const MillionsOfYears := "Millions of years"

  /** The estimate for `c` combinations, rounded in its unit. */
  function CrackTimeText(c: nat): string
  {
    match Bucket(c)
    case 0 => Instantly
    case 1 => NatToString(RoundDiv(c, GuessesTwice)) + " seconds"
    case 2 => NatToString(RoundDiv(c, GuessesTwice * Minute)) + " minutes"
    case 3 => NatToString(RoundDiv(c, GuessesTwice * Hour)) + " hours"
    case 4 => NatToString(RoundDiv(c, GuessesTwice * Day)) + " days"
    case 5 => NatToString(RoundDiv(c, GuessesTwice * Year)) + " years"
    case 6 => NatToString(RoundDiv(c, GuessesTwice * Year * 1000)) + " thousand years"
    case _ => MillionsOfYears
  }

  /** `estimateCrackTime` */
  method EstimateCrackTime(password: string) returns (r: string)
    ensures CharsetSize(password) == 0 ==> r == Instantly
    ensures CharsetSize(password) > 0 ==> r == CrackTimeText(Pow(CharsetSize(password), |password|))
  {
    var charsetSize := 0;
    charsetSize := AddWhen(charsetSize, HasLower(password), 26);
    charsetSize := AddWhen(charsetSize, HasUpper(password), 26);
    charsetSize := AddWhen(charsetSize, HasDigit(password), 10);
    charsetSize := AddWhen(charsetSize, HasSpecial(password), 32);
    if charsetSize == 0 {
      return Instantly;
    }
    r := CrackTimeText(Pow(charsetSize, |password|));
  }

  /** The estimate reads "Instantly" exactly when there are fewer
      combinations than a second of guessing covers. */
  lemma InstantlySpec(c: nat)
    ensures CrackTimeText(c) == Instantly <==> c < GuessesTwice
  {
    if c >= GuessesTwice && Bucket(c) < 7 {
      var n := CrackTimeText(c);
      assert IsDigit(n[0]) && !IsDigit(Instantly[0]);
    } else if c >= GuessesTwice {
      assert |MillionsOfYears| != |Instantly|;
    }
  }

  // ---------------------------------------------------------------------
  // The analysis

  /** The score section of `analyzePassword`: the points of the seven
      checks, accumulated check by check, before clamping. */
  method ScoreChecks(password: string) returns (score: int)
    ensures score == RawScore(password)
  {
    score := 0;
    if |password| >= 12 {
      score := score + 20;
    } else if |password| >= 8 {
      score := score + 10;
    }
    score := AddWhen(score, HasUpper(password), 15);
    score := AddWhen(score, HasLower(password), 15);
    score := AddWhen(score, HasDigit(password), 15);
    score := AddWhen(score, HasSpecial(password), 20);
    score := AddEither(score, !IsCommon(password), 10, -30);
    score := AddEither(score, !HasTripleRepeat(password), 5, -10);
  }

  /** The message for check `k` when it failed, nothing otherwise. */
  function FailedAt(f: seq<bool>, msgs: seq<string>, k: nat): seq<string>
    requires k < |f| == |msgs|
  {
    if !f[k] then [msgs[k]] else []
  }

  /** The failed messages among the first three checks, one check at a time. */
  lemma FailedMessagesThree(f: seq<bool>, msgs: seq<string>)
    requires |f| == |msgs| == 7
    ensures FailedMessages(f[..3], msgs[..3])
      == [] + FailedAt(f, msgs, 0) + FailedAt(f, msgs, 1) + FailedAt(f, msgs, 2)
  {
    FailedMessagesStep(f, msgs, 0);
    FailedMessagesStep(f, msgs, 1);
    FailedMessagesStep(f, msgs, 2);
  }

  /** For seven checks, the failed messages written out one check at a time. */
  lemma FailedMessagesSeven(f: seq<bool>, msgs: seq<string>)
    requires |f| == |msgs| == 7
    ensures FailedMessages(f, msgs)
      == [] + FailedAt(f, msgs, 0) + FailedAt(f, msgs, 1) + FailedAt(f, msgs, 2) + FailedAt(f, msgs, 3)
         + FailedAt(f, msgs, 4) + FailedAt(f, msgs, 5) + FailedAt(f, msgs, 6)
  {
    FailedMessagesThree(f, msgs);
    FailedMessagesStep(f, msgs, 3);
    FailedMessagesStep(f, msgs, 4);
    FailedMessagesStep(f, msgs, 5);
    FailedMessagesStep(f, msgs, 6);
    assert f[..7] == f && msgs[..7] == msgs;
  }

  /** The suggestion section of `analyzePassword`: one fixed text per failed
      check, pushed in check order. */
  method Suggest(f: seq<bool>) returns (suggestions: seq<string>)
    requires |f| == 7
    ensures suggestions == FailedMessages(f, SuggestionTexts)
  {
    var texts := SuggestionTexts;
    suggestions := PushWhen([], !f[0], texts[0]);
    suggestions := PushWhen(suggestions, !f[1], texts[1]);
    suggestions := PushWhen(suggestions, !f[2], texts[2]);
    suggestions := PushWhen(suggestions, !f[3], texts[3]);
    suggestions := PushWhen(suggestions, !f[4], texts[4]);
    suggestions := PushWhen(suggestions, !f[5], texts[5]);
    suggestions := PushWhen(suggestions, !f[6], texts[6]);
    FailedMessagesSeven(f, texts);
  }

  /** The strength section of `analyzePassword`. */
  method Band(score: int) returns (strength: Strength)
    ensures strength == StrengthOf(score)
  {
    if score >= 85 {
      strength := VeryStrong;
    } else if score >= 70 {
      strength := Strong;
    } else if score >= 50 {
      strength := Fair;
    } else if score >= 30 {
      strength := Weak;
    } else {
      strength := VeryWeak;
    }
  }

  /** `analyzePassword` */
  method AnalyzePassword(password: string) returns (r: PasswordAnalysisResult)
    ensures r.score == Clamp(RawScore(password), 0, 100)
    ensures r.strength == StrengthOf(r.score)
    ensures PassedFlags(r.checks) == Flags(password)
    ensures r.checks == ChecksOf(Flags(password))
    ensures r.suggestions == FailedMessages(Flags(password), SuggestionTexts)
    ensures CharsetSize(password) == 0 ==> r.crackTime == Instantly
    ensures CharsetSize(password) > 0 ==> r.crackTime == CrackTimeText(Pow(CharsetSize(password), |password|))
  {
    var score := ScoreChecks(password);
    score := Clamp(score, 0, 100);
    var f := Flags(password);
    var suggestions := Suggest(f);
    var strength := Band(score);
    var crackTime := EstimateCrackTime(password);
    var checks := ChecksOf(f);
    PassedFlagsOfChecks(f);
    r := PasswordAnalysisResult(score, strength, checks, suggestions, crackTime);
  }

  // ---------------------------------------------------------------------
  // Properties of the whole analysis

  /** The suggestions name every failed check once, in check order; there
      are none exactly when every check passed, which is exactly when the
      score is 100; and a length of eight to eleven still draws the length
      suggestion. */
  lemma SuggestionsSpec(p: string)
    ensures var f := Flags(p);
      var sug := FailedMessages(f, SuggestionTexts);
      && |sug| == CountFailed(f)
      && (forall k :: 0 <= k < 7 ==> (SuggestionTexts[k] in sug <==> !f[k]))
      && IsSubsequence(sug, SuggestionTexts)
      && (sug == [] <==> AllPassed(f))
      && (sug == [] <==> Clamp(RawScore(p), 0, 100) == 100)
      && (8 <= |p| < 12 ==> SuggestionTexts[0] in sug)
  {
    SuggestionTextsDistinct();
    FailedMessagesSpec(Flags(p), SuggestionTexts);
    RawScoreSpec(p);
  }

  /** The estimate is "Instantly" exactly when the password uses none of the
      four classes or its key space falls within one second of guessing. */
  lemma CrackTimeInstantly(p: string)
    ensures CharsetSize(p) > 0 ==>
      (CrackTimeText(Pow(CharsetSize(p), |p|)) == Instantly <==> Pow(CharsetSize(p), |p|) < GuessesTwice)
  {
    if CharsetSize(p) > 0 {
      InstantlySpec(Pow(CharsetSize(p), |p|));
    }
  }

  /** A password of lower-case letters only has no capital, digit or special character. */
  lemma LowerLettersOnly(p: string)
    requires forall k :: 0 <= k < |p| ==> IsLowerLetter(p[k])
    ensures !HasUpper(p) && !HasDigit(p) && !HasSpecial(p)
  {
    forall k | 0 <= k < |p|
      ensures p[k] !in SpecialChars
    {
      assert IsLowerLetter(p[k]);
    }
  }

  /** The classes of the word "password": lower-case letters only. */
  lemma PasswordSampleClasses()
    ensures HasLower("password") && !HasUpper("password") && !HasDigit("password") && !HasSpecial("password")
  {
    var p := "password";
    assert IsLowerLetter(p[0]);
    forall k | 0 <= k < |p|
      ensures IsLowerLetter(p[k])
    {
    }
    LowerLettersOnly(p);
  }

  /** "password" is listed. */
  lemma PasswordSampleCommon()
    ensures IsCommon("password")
  {
    var p := "password";
    LowerOfLowercase(p);
    assert p[0..|p|] == p;
    assert MatchesAt(Lower(p), 0, p);
    assert CommonPasswords[0] == p && Contains(Lower(p), p);
  }

  /** No character of "password" repeats three times in a row. */
  lemma PasswordSampleNoRepeat()
    ensures !HasTripleRepeat("password")
  {
  }

  /** The word "password" itself: five checks fail, the common-word penalty
      cancels the rest, and the score is 0. */
  lemma PasswordSample()
    ensures Flags("password") == [false, false, true, false, false, false, true]
    ensures RawScore("password") == 0 && StrengthOf(Clamp(RawScore("password"), 0, 100)) == VeryWeak
    ensures CountFailed(Flags("password")) == 5
  {
    PasswordSampleClasses();
    PasswordSampleCommon();
    PasswordSampleNoRepeat();
    var f := Flags("password");
    assert f == [false, false, true, false, false, false, true];
    assert CountFailed(f[..1]) == 1 by { assert f[..1][..0] == []; }
    assert CountFailed(f[..2]) == 2 by { assert f[..2][..1] == f[..1]; }
    assert CountFailed(f[..3]) == 2 by { assert f[..3][..2] == f[..2]; }
    assert CountFailed(f[..4]) == 3 by { assert f[..4][..3] == f[..3]; }
    assert CountFailed(f[..5]) == 4 by { assert f[..5][..4] == f[..4]; }
    assert CountFailed(f[..6]) == 5 by { assert f[..6][..5] == f[..5]; }
    assert f[..7] == f;
  }

  /** The number of combinations of eight characters from a set of 26. */
  lemma PowTwentySixEight()
    ensures Pow(26, 8) == 208827064576
  {
    assert Pow(26, 2) == 676;
    assert Pow(26, 4) == 676 * 676 by {
      assert Pow(26, 4) == 26 * (26 * Pow(26, 2));
    }
    assert Pow(26, 6) == 676 * 676 * 676 by {
      assert Pow(26, 6) == 26 * (26 * Pow(26, 4));
    }
    assert Pow(26, 8) == 26 * (26 * Pow(26, 6));
  }

  /** "password" draws on the 26 lower-case letters; half of its 26^8
      combinations take 10.44 seconds to try, which reads "10 seconds". */
  lemma PasswordSampleCrackTime()
    ensures CharsetSize("password") == 26
    ensures CrackTimeText(Pow(CharsetSize("password"), |"password"|)) == "10 seconds"
  {
    PasswordSampleClasses();
    PowTwentySixEight();
    var c := Pow(26, 8);
    assert Bucket(c) == 1;
    assert RoundDiv(c, GuessesTwice) == 10;
    assert NatToString(1) == "1";
    assert NatToString(10) == "10";
  }

  // ---------------------------------------------------------------------
  // A strong sample password

  const StrongSample := "Tr0ub4dor&3!XYZ"

  /** The sample lower-cased. */
  const StrongSampleLower := "tr0ub4dor&3!xyz"

  /** The characters of the lower-cased sample. */
  const StrongSampleChars: set<char> := {'t', 'r', '0', 'u', 'b', '4', 'd', 'o', '&', '3', '!', 'x', 'y', 'z'}

  lemma StrongSampleCharsCover()
    ensures forall i :: 0 <= i < |StrongSampleLower| ==> StrongSampleLower[i] in StrongSampleChars
  {
  }

  /** A text drawn from the characters `cs` does not contain a string with
      a character `k` outside `cs`. */
  lemma CharAbsent(t: string, cs: set<char>, c: string, k: nat)
    requires forall i :: 0 <= i < |t| ==> t[i] in cs
    requires k < |c| && c[k] !in cs
    ensures !Contains(t, c)
  {
    forall i: nat | i + |c| <= |t|
      ensures !MatchesAt(t, i, c)
    {
      assert t[i..i + |c|][k] == t[i + k] != c[k];
    }
  }

  /** A text in which characters `k` and `k + 1` of `c` never stand side by
      side does not contain `c`. */
  lemma PairAbsent(t: string, c: string, k: nat)
    requires k + 1 < |c| && forall i :: 0 <= i && i + 1 < |t| ==> t[i] != c[k] || t[i + 1] != c[k + 1]
    ensures !Contains(t, c)
  {
    forall i: nat | i + |c| <= |t|
      ensures !MatchesAt(t, i, c)
    {
      assert t[i..i + |c|][k] == t[i + k];
      assert t[i..i + |c|][k + 1] == t[i + k + 1];
    }
  }

  lemma StrongSampleLowered()
    ensures Lower(StrongSample) == StrongSampleLower
  {
    var p := StrongSample;
    assert LowerChar(p[0]) == 't';
    assert LowerChar(p[12]) == 'x' && LowerChar(p[13]) == 'y' && LowerChar(p[14]) == 'z';
    forall k | 1 <= k < 12
      ensures LowerChar(p[k]) == p[k] == StrongSampleLower[k]
    {
    }
  }

  /** Every listed password but "root" and "toor" has a character the
      lower-cased sample lacks. */
  lemma StrongSampleForeignChar(j: nat)
    requires j < |CommonPasswords| && j != 32 && j != 33
    ensures !Contains(StrongSampleLower, CommonPasswords[j])
  {
    StrongSampleCharsCover();
    var k := if j == 8 then 3 else if j == 9 then 2 else if j == 10 || j == 15 || j == 35 then 1 else 0;
    CharAbsent(StrongSampleLower, StrongSampleChars, CommonPasswords[j], k);
  }

  /** "root" and "toor" need two `o` side by side, which the sample lacks. */
  lemma StrongSampleNoDoubleO()
    ensures !Contains(StrongSampleLower, CommonPasswords[32])
    ensures !Contains(StrongSampleLower, CommonPasswords[33])
  {
    PairAbsent(StrongSampleLower, CommonPasswords[32], 1);
    PairAbsent(StrongSampleLower, CommonPasswords[33], 1);
  }

  /** "Tr0ub4dor&3!XYZ" holds no listed password, ignoring case. */
  lemma StrongSampleNotCommon()
    ensures !IsCommon(StrongSample)
  {
    StrongSampleLowered();
    StrongSampleNoDoubleO();
    forall c | c in CommonPasswords
      ensures !Contains(StrongSampleLower, c)
    {
      var j :| 0 <= j < |CommonPasswords| && CommonPasswords[j] == c;
      if j != 32 && j != 33 {
        StrongSampleForeignChar(j);
      }
    }
  }

  /** Its fifteen characters use all four classes and never repeat three times in a row. */
  lemma StrongSampleClasses()
    ensures |StrongSample| == 15
    ensures HasUpper(StrongSample) && HasLower(StrongSample) && HasDigit(StrongSample) && HasSpecial(StrongSample)
    ensures !HasTripleRepeat(StrongSample)
  {
    var p := StrongSample;
    assert IsUpperLetter(p[0]) && IsLowerLetter(p[1]) && IsDigit(p[2]) && p[9] in SpecialChars;
    forall k | 0 <= k && k + 2 < |p|
      ensures p[k] != p[k + 1] || p[k + 1] != p[k + 2]
    {
    }
  }

  /** A password that passes every check scores 100, is very strong and
      gets no suggestion. */
  lemma AllChecksPassed(p: string)
    requires Flags(p) == [true, true, true, true, true, true, true]
    ensures AllPassed(Flags(p))
    ensures RawScore(p) == 100 && Clamp(RawScore(p), 0, 100) == 100
    ensures StrengthOf(Clamp(RawScore(p), 0, 100)) == VeryStrong
    ensures FailedMessages(Flags(p), SuggestionTexts) == []
  {
    var f := Flags(p);
    assert forall k :: 0 <= k < 7 ==> f[k];
    RawScoreSpec(p);
    FailedMessagesCount(f, SuggestionTexts);
  }

  lemma StrongSampleFlags()
    ensures Flags(StrongSample) == [true, true, true, true, true, true, true]
    ensures CharsetSize(StrongSample) == 94
  {
    StrongSampleClasses();
    StrongSampleNotCommon();
  }

  /** "Tr0ub4dor&3!XYZ" passes all seven checks, scores 100, is very
      strong, gets no suggestion, and uses the full 94-character set. */
  lemma StrongSample100()
    ensures AllPassed(Flags(StrongSample))
    ensures RawScore(StrongSample) == 100 && Clamp(RawScore(StrongSample), 0, 100) == 100
    ensures StrengthOf(Clamp(RawScore(StrongSample), 0, 100)) == VeryStrong
    ensures FailedMessages(Flags(StrongSample), SuggestionTexts) == []
    ensures CharsetSize(StrongSample) == 94
  {
    StrongSampleFlags();
    AllChecksPassed(StrongSample);
  }
}
