/** Character and string helpers shared by the three analyzers.
    Strings are sequences of characters; case mapping covers ASCII letters
    only, and the white-space set is the one ECMAScript uses for `\s` and
    for `String.prototype.trim`. */
module Text {

  datatype Option<+T> = None | Some(value: T)

  // ---------------------------------------------------------------------
  // Character classes

  predicate IsDigit(c: char) { '0' <= c <= '9' }

  predicate IsUpperLetter(c: char) { 'A' <= c <= 'Z' }

  predicate IsLowerLetter(c: char) { 'a' <= c <= 'z' }

  predicate IsHexDigit(c: char) { IsDigit(c) || 'a' <= c <= 'f' || 'A' <= c <= 'F' }

  /** ECMAScript LineTerminator: the characters `.` in a pattern does not match. */
  predicate IsLineTerminator(c: char)
  {
    c == '\n' || c == '\r' || c == '\U{2028}' || c == '\U{2029}'
  }

  /** ECMAScript WhiteSpace or LineTerminator: the class `\s`, and what `trim` removes. */
  predicate IsWhitespace(c: char)
  {
    || IsLineTerminator(c)
    || c == '\t' || c == '\U{000B}' || c == '\U{000C}' || c == ' '
    || c == '\U{00A0}' || c == '\U{1680}' || ('\U{2000}' <= c <= '\U{200A}')
    || c == '\U{202F}' || c == '\U{205F}' || c == '\U{3000}' || c == '\U{FEFF}'
  }

  predicate NoLineTerminator(s: string)
  {
    forall k :: 0 <= k < |s| ==> !IsLineTerminator(s[k])
  }

  predicate AllDigits(s: string)
  {
    forall k :: 0 <= k < |s| ==> IsDigit(s[k])
  }

  // ---------------------------------------------------------------------
  // ASCII case mapping (`toLowerCase` / `toUpperCase` restricted to ASCII)

  function LowerChar(c: char): (r: char)
    ensures IsUpperLetter(c) ==> IsLowerLetter(r)
    ensures !IsUpperLetter(c) ==> r == c
  {
    if IsUpperLetter(c) then (c as int + 32) as char else c
  }

  function UpperChar(c: char): (r: char)
    ensures IsLowerLetter(c) ==> IsUpperLetter(r)
    ensures !IsLowerLetter(c) ==> r == c
  {
    if IsLowerLetter(c) then (c as int - 32) as char else c
  }

  function Lower(s: string): string
  {
    seq(|s|, i requires 0 <= i < |s| => LowerChar(s[i]))
  }

  function Upper(s: string): string
  {
    seq(|s|, i requires 0 <= i < |s| => UpperChar(s[i]))
  }

  /** Lower-casing never produces an upper-case letter, so doing it twice is doing it once. */
  lemma LowerIdempotent(s: string)
    ensures Lower(Lower(s)) == Lower(s)
  {
    assert forall i :: 0 <= i < |s| ==> !IsUpperLetter(Lower(s)[i]);
  }

  /** A string without upper-case letters is its own lower-case form. */
  lemma LowerOfLowercase(s: string)
    requires forall k :: 0 <= k < |s| ==> !IsUpperLetter(s[k])
    ensures Lower(s) == s
  {
  }

  /** Lower-casing commutes with taking a slice. */
  lemma LowerSlice(s: string, i: nat, j: nat)
    requires i <= j <= |s|
    ensures Lower(s)[i..j] == Lower(s[i..j])
  {
  }

  /** A case-insensitive match of the lower-case `w` is a piece of `s` that
      lower-cases to `w`. */
  lemma MatchesCIAtSlice(s: string, i: nat, w: string)
    requires MatchesCIAt(s, i, w)
    ensures i + |w| <= |s| && Lower(s[i..i + |w|]) == w
  {
    LowerSlice(s, i, i + |w|);
  }

  /** Two strings that agree up to ASCII case have the same upper-case form. */
  lemma UpperOfLowerMatch(s: string, w: string)
    requires Lower(s) == w
    ensures Upper(s) == Upper(w)
  {
    forall k | 0 <= k < |s|
      ensures Upper(s)[k] == Upper(w)[k]
    {
      assert LowerChar(s[k]) == w[k];
    }
  }

  // ---------------------------------------------------------------------
  // Prefix, suffix and substring tests

  predicate StartsWith(s: string, p: string)
  {
    |p| <= |s| && s[..|p|] == p
  }

  predicate EndsWith(s: string, p: string)
  {
    |p| <= |s| && s[|s| - |p|..] == p
  }

  /** `w` occurs in `s` at position `i`. */
  predicate MatchesAt(s: string, i: nat, w: string)
  {
    i + |w| <= |s| && s[i..i + |w|] == w
  }

  /** `s.includes(w)` */
  predicate Contains(s: string, w: string)
  {
    exists i: nat :: i + |w| <= |s| && MatchesAt(s, i, w)
  }

  /** `w` (written in lower case) occurs in `s` at `i`, ignoring ASCII case. */
  predicate MatchesCIAt(s: string, i: nat, w: string)
  {
    MatchesAt(Lower(s), i, w)
  }

  /** A case-insensitive pattern made of the lower-case literal `w` matches somewhere in `s`. */
  predicate ContainsCI(s: string, w: string)
  {
    Contains(Lower(s), w)
  }

  /** A suffix test under ASCII case folding (`/w$/i` for a literal `w`). */
  predicate EndsWithCI(s: string, w: string)
  {
    EndsWith(Lower(s), w)
  }

  /** Containment is kept when text is added on either side. */
  lemma ContainsExtend(a: string, s: string, b: string, w: string)
    requires Contains(s, w)
    ensures Contains(a + s + b, w)
  {
    var i: nat :| i + |w| <= |s| && MatchesAt(s, i, w);
    assert (a + s + b)[|a| + i..|a| + i + |w|] == s[i..i + |w|];
    assert MatchesAt(a + s + b, |a| + i, w);
  }

  /** Text that contains `x + y` contains `x`. */
  lemma ContainsPrefixOf(s: string, x: string, y: string)
    requires Contains(s, x + y)
    ensures Contains(s, x)
  {
    var i: nat :| i + |x + y| <= |s| && MatchesAt(s, i, x + y);
    assert s[i..i + |x|] == (x + y)[..|x|] == x;
    assert MatchesAt(s, i, x);
  }

  /** A suffix of a suffix is a suffix. */
  lemma EndsWithTrans(s: string, t: string, p: string)
    requires EndsWith(s, t) && EndsWith(t, p)
    ensures EndsWith(s, p)
  {
    assert s[|s| - |p|..] == t[|t| - |p|..];
  }

  /** Anything ends with itself, once text is put in front of it. */
  lemma EndsWithAppended(x: string, s: string)
    ensures EndsWith(x + s, s)
  {
    assert (x + s)[|x + s| - |s|..] == s;
  }

  // ---------------------------------------------------------------------
  // Trimming (`String.prototype.trim`)

  function TrimStart(s: string): (t: string)
    ensures |t| <= |s| && t == s[|s| - |t|..]
    ensures |t| > 0 ==> !IsWhitespace(t[0])
    ensures forall k :: 0 <= k < |s| - |t| ==> IsWhitespace(s[k])
  {
    if |s| > 0 && IsWhitespace(s[0]) then
      var t := TrimStart(s[1..]);
      assert forall k :: 1 <= k < |s| - |t| ==> s[k] == s[1..][k - 1];
      t
    else s
  }

  function TrimEnd(s: string): (t: string)
    ensures |t| <= |s| && t == s[..|t|]
    ensures |t| > 0 ==> !IsWhitespace(t[|t| - 1])
    ensures forall k :: |t| <= k < |s| ==> IsWhitespace(s[k])
  {
    if |s| > 0 && IsWhitespace(s[|s| - 1]) then TrimEnd(s[..|s| - 1]) else s
  }

  function Trim(s: string): string
  {
    TrimEnd(TrimStart(s))
  }

  /** `t` is `s` with exactly the white space before offset `i` and after
      offset `i + |t|` removed. */
  predicate IsTrimWindow(s: string, i: nat, t: string)
  {
    && i + |t| <= |s| && t == s[i..i + |t|]
    && (forall k :: 0 <= k < i ==> IsWhitespace(s[k]))
    && (forall k :: i + |t| <= k < |s| ==> IsWhitespace(s[k]))
  }

  /** A prefix `t` of the suffix `u` of `s` at offset `i` is a trim window
      when white space alone stands before `u` and behind `t`. */
  lemma WindowOfSuffix(s: string, u: string, t: string, i: nat)
    requires i + |u| == |s| && u == s[i..] && |t| <= |u| && t == u[..|t|]
    requires forall k :: 0 <= k < i ==> IsWhitespace(s[k])
    requires forall k :: |t| <= k < |u| ==> IsWhitespace(u[k])
    ensures IsTrimWindow(s, i, t)
  {
    assert t == s[i..i + |t|];
    forall k | i + |t| <= k < |s|
      ensures IsWhitespace(s[k])
    {
      assert s[k] == u[k - i];
    }
  }

  /** Trimming cuts the white space in front of offset `|s| - |TrimStart(s)|`
      and behind the trimmed text. */
  lemma TrimWindow(s: string)
    ensures IsTrimWindow(s, |s| - |TrimStart(s)|, Trim(s))
  {
    var u := TrimStart(s);
    WindowOfSuffix(s, u, TrimEnd(u), |s| - |u|);
  }

  /** Trimming leaves a slice of the input with no white space at either end,
      and what it removed was white space. */
  lemma TrimSpec(s: string)
    ensures |Trim(s)| > 0 ==> !IsWhitespace(Trim(s)[0]) && !IsWhitespace(Trim(s)[|Trim(s)| - 1])
    ensures exists i: nat :: IsTrimWindow(s, i, Trim(s))
  {
    var u := TrimStart(s);
    var t := TrimEnd(u);
    if |t| > 0 {
      assert t[0] == u[0];
    }
    TrimWindow(s);
  }

  /** A string with no white space at either end is its own trim. */
  lemma TrimOfTrimmed(s: string)
    requires |s| > 0 ==> !IsWhitespace(s[0]) && !IsWhitespace(s[|s| - 1])
    ensures Trim(s) == s
  {
  }

  // ---------------------------------------------------------------------
  // Splitting on a separator (`String.prototype.split` with a one-character string)

  function CountChar(s: string, c: char): nat
  {
    if |s| == 0 then 0 else CountChar(s[..|s| - 1], c) + (if s[|s| - 1] == c then 1 else 0)
  }

  function Split(s: string, sep: char): (parts: seq<string>)
    ensures |parts| >= 1
  {
    if |s| == 0 then [""]
    else
      var rest := Split(s[..|s| - 1], sep);
      if s[|s| - 1] == sep then rest + [""]
      else rest[..|rest| - 1] + [rest[|rest| - 1] + [s[|s| - 1]]]
  }

  function Join(parts: seq<string>, sep: char): string
  {
    if |parts| == 0 then ""
    else if |parts| == 1 then parts[0]
    else Join(parts[..|parts| - 1], sep) + [sep] + parts[|parts| - 1]
  }

  /** Splitting yields one more part than there are separators. */
  lemma {:induction false} SplitCount(s: string, sep: char)
    ensures |Split(s, sep)| == CountChar(s, sep) + 1
  {
    if |s| > 0 {
      SplitCount(s[..|s| - 1], sep);
    }
  }

  /** No part holds the separator. */
  lemma {:induction false} SplitPartsClean(s: string, sep: char)
    ensures forall k :: 0 <= k < |Split(s, sep)| ==> sep !in Split(s, sep)[k]
  {
    if |s| > 0 {
      var init := s[..|s| - 1];
      var c := s[|s| - 1];
      SplitPartsClean(init, sep);
      var rest := Split(init, sep);
      if c != sep {
        var lastPart := rest[|rest| - 1] + [c];
        assert Split(s, sep) == rest[..|rest| - 1] + [lastPart];
        assert sep !in lastPart;
      }
    }
  }

  /** A new empty last part adds a separator to the joined text. */
  lemma JoinSnocEmpty(parts: seq<string>, sep: char)
    requires |parts| >= 1
    ensures Join(parts + [""], sep) == Join(parts, sep) + [sep]
  {
    assert (parts + [""])[..|parts|] == parts;
  }

  /** A character added to the last part is added to the joined text. */
  lemma JoinExtendLast(parts: seq<string>, sep: char, c: char)
    requires |parts| >= 1
    ensures Join(parts[..|parts| - 1] + [parts[|parts| - 1] + [c]], sep) == Join(parts, sep) + [c]
  {
    var last := parts[|parts| - 1] + [c];
    var longer := parts[..|parts| - 1] + [last];
    if |parts| > 1 {
      assert longer[..|longer| - 1] == parts[..|parts| - 1];
      assert longer[|longer| - 1] == last;
    }
  }

  /** A separator at the end starts a new, empty last part. */
  lemma SplitJoinSep(s: string, sep: char)
    requires |s| > 0 && s[|s| - 1] == sep
    requires Join(Split(s[..|s| - 1], sep), sep) == s[..|s| - 1]
    ensures Join(Split(s, sep), sep) == s
  {
    var rest := Split(s[..|s| - 1], sep);
    assert Split(s, sep) == rest + [""];
    JoinSnocEmpty(rest, sep);
    assert s[..|s| - 1] + [sep] == s;
  }

  /** Any other character at the end extends the last part. */
  lemma SplitJoinOther(s: string, sep: char)
    requires |s| > 0 && s[|s| - 1] != sep
    requires Join(Split(s[..|s| - 1], sep), sep) == s[..|s| - 1]
    ensures Join(Split(s, sep), sep) == s
  {
    var c := s[|s| - 1];
    var rest := Split(s[..|s| - 1], sep);
    assert Split(s, sep) == rest[..|rest| - 1] + [rest[|rest| - 1] + [c]];
    JoinExtendLast(rest, sep, c);
    assert s[..|s| - 1] + [c] == s;
  }

  /** Joining the parts back with the separator gives the input. */
  lemma {:induction false} SplitJoin(s: string, sep: char)
    ensures Join(Split(s, sep), sep) == s
  {
    if |s| > 0 {
      SplitJoin(s[..|s| - 1], sep);
      if s[|s| - 1] == sep {
        SplitJoinSep(s, sep);
      } else {
        SplitJoinOther(s, sep);
      }
    }
  }

  /** Splitting yields one more part than there are separators, no part holds
      the separator, and joining the parts back gives the input. */
  lemma SplitSpec(s: string, sep: char)
    ensures |Split(s, sep)| == CountChar(s, sep) + 1
    ensures forall k :: 0 <= k < |Split(s, sep)| ==> sep !in Split(s, sep)[k]
    ensures Join(Split(s, sep), sep) == s
  {
    SplitCount(s, sep);
    SplitPartsClean(s, sep);
    SplitJoin(s, sep);
  }

  /** `parts.join(sep)` */
  function JoinWith(parts: seq<string>, sep: string): string
  {
    if |parts| == 0 then ""
    else if |parts| == 1 then parts[0]
    else JoinWith(parts[..|parts| - 1], sep) + sep + parts[|parts| - 1]
  }

  /** `s.replace(c, "")` for a one-character search string: drops the first `c`, if any. */
  function RemoveFirst(s: string, c: char): (r: string)
    ensures c !in s ==> r == s
    ensures c in s ==> |r| == |s| - 1
  {
    if |s| == 0 then s else if s[0] == c then s[1..] else [s[0]] + RemoveFirst(s[1..], c)
  }

  // ---------------------------------------------------------------------
  // Decimal rendering of a natural number (template-literal interpolation)

  function DigitChar(d: nat): (c: char)
    requires d < 10
    ensures IsDigit(c) && (c as int) - ('0' as int) == d
  {
    ('0' as int + d) as char
  }

  function NatToString(n: nat): (s: string)
    ensures |s| >= 1 && AllDigits(s)
    ensures |s| > 1 ==> s[0] != '0'
  {
    if n < 10 then [DigitChar(n)] else NatToString(n / 10) + [DigitChar(n % 10)]
  }

  function DecimalValue(s: string): nat
    requires AllDigits(s)
  {
    if |s| == 0 then 0 else 10 * DecimalValue(s[..|s| - 1]) + ((s[|s| - 1] as int) - ('0' as int))
  }

  /** Reading back the rendered digits gives the number. */
  lemma {:induction false} DecimalRoundTrip(n: nat)
    ensures DecimalValue(NatToString(n)) == n
  {
    if n >= 10 {
      DecimalRoundTrip(n / 10);
      var s := NatToString(n);
      assert s[..|s| - 1] == NatToString(n / 10);
    }
  }

  // ---------------------------------------------------------------------
  // Numbers

  /** `Math.min(hi, Math.max(lo, x))` */
  function Clamp(x: int, lo: int, hi: int): (r: int)
    requires lo <= hi
    ensures lo <= r <= hi
    ensures lo <= x <= hi ==> r == x
    ensures x < lo ==> r == lo
    ensures x > hi ==> r == hi
  {
    if x < lo then lo else if x > hi then hi else x
  }

  function Min(a: int, b: int): int { if a <= b then a else b }

  /** `if (cond) xs.push(x)` on a list the caller owns. */
  method PushWhen<T>(xs: seq<T>, cond: bool, x: T) returns (r: seq<T>)
    ensures r == xs + (if cond then [x] else [])
  {
    r := xs;
    if cond {
      r := r + [x];
    }
  }

  /** `if (cond) x += n` */
  method AddWhen(x: int, cond: bool, n: int) returns (r: int)
    ensures r == x + (if cond then n else 0)
  {
    r := x;
    if cond {
      r := r + n;
    }
  }

  /** `if (cond) x += yes; else x += no;` */
  method AddEither(x: int, cond: bool, yes: int, no: int) returns (r: int)
    ensures r == x + (if cond then yes else no)
  {
    if cond {
      r := x + yes;
    } else {
      r := x + no;
    }
  }

  /** `xs.slice(0, n)` */
  function Take<T>(xs: seq<T>, n: nat): (r: seq<T>)
    ensures |r| == Min(n, |xs|) && r == xs[..|r|]
  {
    if |xs| <= n then xs else xs[..n]
  }

  // ---------------------------------------------------------------------
  // Subsequences and de-duplication (`[...new Set(xs)]`)

  /** `a` is `b` with some elements left out, the rest kept in order. */
  predicate IsSubsequence<T(==)>(a: seq<T>, b: seq<T>)
  {
    |a| == 0 || (|b| > 0 && (if a[0] == b[0] then IsSubsequence(a[1..], b[1..]) else IsSubsequence(a, b[1..])))
  }

  /** Dropping the last element of the larger sequence keeps a subsequence
      that does not use it. */
  lemma {:induction false} SubsequenceSnoc<T>(a: seq<T>, b: seq<T>, x: T)
    requires IsSubsequence(a, b)
    ensures IsSubsequence(a, b + [x]) && IsSubsequence(a + [x], b + [x])
    decreases |b|
  {
    if |a| > 0 {
      assert (b + [x])[1..] == b[1..] + [x];
      assert (a + [x])[1..] == a[1..] + [x];
      if a[0] == b[0] {
        SubsequenceSnoc(a[1..], b[1..], x);
      } else {
        SubsequenceSnoc(a, b[1..], x);
      }
    } else {
      assert a + [x] == [x];
      SubsequenceSingleton(b, x);
    }
  }

  /** The last element alone is a subsequence. */
  lemma {:induction false} SubsequenceSingleton<T>(b: seq<T>, x: T)
    ensures IsSubsequence([x], b + [x])
    decreases |b|
  {
    if |b| > 0 {
      assert (b + [x])[1..] == b[1..] + [x];
      SubsequenceSingleton(b[1..], x);
    }
  }

  predicate NoDuplicates<T(==)>(xs: seq<T>)
  {
    forall i, j :: 0 <= i < j < |xs| ==> xs[i] != xs[j]
  }

  /** The position of the first occurrence of `x`. */
  function FirstIndex<T(==)>(xs: seq<T>, x: T): (k: nat)
    requires x in xs
    ensures k < |xs| && xs[k] == x && x !in xs[..k]
  {
    if xs[0] == x then 0 else assert xs[0] != x; 1 + FirstIndex(xs[1..], x)
  }

  /** Keeps the first occurrence of every element, in order. */
  function Dedup<T(==)>(xs: seq<T>): seq<T>
  {
    if |xs| == 0 then []
    else
      var d := Dedup(xs[..|xs| - 1]);
      if xs[|xs| - 1] in d then d else d + [xs[|xs| - 1]]
  }

  /** `Dedup` keeps every element exactly once, takes nothing new, and
      lists the elements in the order of their first occurrence. */
  lemma {:induction false} DedupSpec<T>(xs: seq<T>)
    ensures forall x :: x in Dedup(xs) <==> x in xs
    ensures NoDuplicates(Dedup(xs))
    ensures IsSubsequence(Dedup(xs), xs)
    ensures forall i, j :: 0 <= i < j < |Dedup(xs)| ==>
      FirstIndex(xs, Dedup(xs)[i]) < FirstIndex(xs, Dedup(xs)[j])
  {
    if |xs| > 0 {
      var init := xs[..|xs| - 1];
      var x := xs[|xs| - 1];
      DedupSpec(init);
      var d := Dedup(init);
      assert xs == init + [x];
      SubsequenceSnoc(d, init, x);
      forall y | y in init
        ensures FirstIndex(xs, y) == FirstIndex(init, y)
      {
        FirstIndexPrefix(init, x, y);
      }
    }
  }

  /** Appending an element leaves the first occurrences of the others where they were. */
  lemma {:induction false} FirstIndexPrefix<T>(xs: seq<T>, x: T, y: T)
    requires y in xs
    ensures FirstIndex(xs + [x], y) == FirstIndex(xs, y)
  {
    if xs[0] != y {
      assert (xs + [x])[1..] == xs[1..] + [x];
      FirstIndexPrefix(xs[1..], x, y);
    }
  }

  // ---------------------------------------------------------------------
  // Strings assembled from parts

  /** `parts.join("")` */
  function Concat(parts: seq<string>): string
  {
    if |parts| == 0 then "" else parts[0] + Concat(parts[1..])
  }

  lemma {:induction false} ConcatContains(parts: seq<string>, k: nat, w: string)
    requires k < |parts| && Contains(parts[k], w)
    ensures Contains(Concat(parts), w)
  {
    if k == 0 {
      assert Concat(parts) == "" + parts[0] + Concat(parts[1..]);
      ContainsExtend("", parts[0], Concat(parts[1..]), w);
    } else {
      ConcatContains(parts[1..], k - 1, w);
      assert Concat(parts) == parts[0] + Concat(parts[1..]) + "";
      ContainsExtend(parts[0], Concat(parts[1..]), "", w);
    }
  }

  lemma {:induction false} ConcatLower(parts: seq<string>)
    requires forall k :: 0 <= k < |parts| ==> Lower(parts[k]) == parts[k]
    ensures Lower(Concat(parts)) == Concat(parts)
  {
    if |parts| > 0 {
      ConcatLower(parts[1..]);
      LowerConcat(parts[0], Concat(parts[1..]));
    }
  }

  lemma {:induction false} ConcatSuffix(parts: seq<string>)
    requires |parts| > 0
    ensures EndsWith(Concat(parts), parts[|parts| - 1])
  {
    if |parts| == 1 {
      assert Concat(parts) == parts[0] + "";
    } else {
      ConcatSuffix(parts[1..]);
      EndsWithAppended(parts[0], Concat(parts[1..]));
      EndsWithTrans(Concat(parts), Concat(parts[1..]), parts[|parts| - 1]);
    }
  }

  /** Lower-casing distributes over concatenation. */
  lemma LowerConcat(a: string, b: string)
    ensures Lower(a + b) == Lower(a) + Lower(b)
  {
  }

  lemma {:induction false} ConcatContainsPair(parts: seq<string>, k: nat, w: string)
    requires k + 1 < |parts| && Contains(parts[k] + parts[k + 1], w)
    ensures Contains(Concat(parts), w)
  {
    if k == 0 {
      assert Concat(parts) == "" + (parts[0] + parts[1]) + Concat(parts[2..]) by {
        assert parts[1..][1..] == parts[2..];
      }
      ContainsExtend("", parts[0] + parts[1], Concat(parts[2..]), w);
    } else {
      ConcatContainsPair(parts[1..], k - 1, w);
      assert Concat(parts) == parts[0] + Concat(parts[1..]) + "";
      ContainsExtend(parts[0], Concat(parts[1..]), "", w);
    }
  }

  /** `|s| <= |xs|` when every element of `s` occurs in `xs`. */
  lemma {:induction false} MembersBound<T>(xs: seq<T>, s: set<T>)
    requires forall x :: x in s ==> x in xs
    ensures |s| <= |xs|
  {
    if |xs| > 0 {
      var s' := s - {xs[0]};
      forall x | x in s' ensures x in xs[1..] {
        assert x in xs && x != xs[0];
      }
      MembersBound(xs[1..], s');
    } else {
      assert s == {};
    }
  }
}
