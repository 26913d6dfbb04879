/** The JavaScript string operations the code relies on: `Array.join`,
    template rendering of numbers and `undefined`, `trim`, `split(/\s+/)`,
    `parseInt(_, 10)` and the UTF-16 `length` that the validators measure. */
module Strings {
  import opened Outcomes

  /** `xs.join(sep)`. */
  function Join(xs: seq<string>, sep: string): string
  {
    if |xs| == 0 then "" else if |xs| == 1 then xs[0] else xs[0] + sep + Join(xs[1..], sep)
  }

  /** Joining one more element appends exactly one separator and the element. */
  lemma {:induction false} JoinAppend(xs: seq<string>, x: string, sep: string)
    requires xs != []
    ensures Join(xs + [x], sep) == Join(xs, sep) + sep + x
  {
    if |xs| == 1 {
      assert xs + [x] == [xs[0], x];
      assert [xs[0], x][1..] == [x];
    } else {
      assert (xs + [x])[1..] == xs[1..] + [x];
      JoinAppend(xs[1..], x, sep);
    }
  }

  predicate StartsWith(s: string, prefix: string)
  {
    |prefix| <= |s| && s[..|prefix|] == prefix
  }

  predicate EndsWith(s: string, suffix: string)
  {
    |suffix| <= |s| && s[|s| - |suffix|..] == suffix
  }

  /** Equal texts with a common prefix agree after it. */
  lemma PrefixCancel(a: string, x: string, y: string)
    requires a + x == a + y
    ensures x == y
  {
    assert x == (a + x)[|a|..];
    assert y == (a + y)[|a|..];
  }

  /** Equal texts with a common suffix agree before it. */
  lemma SuffixCancel(x: string, y: string, b: string)
    requires x + b == y + b
    ensures x == y
  {
    assert |x| == |y|;
    assert x == (x + b)[..|x|];
    assert y == (y + b)[..|y|];
  }

  /** A text starts with its first part. */
  lemma StartsWithConcat(a: string, b: string)
    ensures StartsWith(a + b, a)
  {
    assert (a + b)[..|a|] == a;
  }

  /** A prefix of a prefix is a prefix. */
  lemma StartsWithTrans(s: string, p: string, q: string)
    requires StartsWith(s, p) && StartsWith(p, q)
    ensures StartsWith(s, q)
  {
    assert s[..|q|] == p[..|q|];
  }

  /** Two texts joined by one character: each part sits where it should. */
  lemma JoinedByChar(a: string, c: char, b: string)
    ensures var t := a + [c] + b;
            && |t| == |a| + 1 + |b|
            && t[..|a|] == a && t[|a|] == c && t[|a| + 1..] == b
  {
    var t := a + [c] + b;
    assert t[..|a|] == a;
    assert t[|a| + 1..] == b;
  }

  /** A text ends with whatever ends its last part. */
  lemma EndsWithConcat(a: string, b: string, suffix: string)
    requires EndsWith(b, suffix)
    ensures EndsWith(a + b, suffix)
  {
    assert (a + b)[|a + b| - |suffix|..] == b[|b| - |suffix|..];
  }

  /** The middle part of a concatenation sits right after the first part. */
  lemma MiddleOfConcat(a: string, b: string, c: string)
    ensures (a + b + c)[|a|..|a| + |b|] == b
  {
  }

  /** The text after the last `:`, or all of it when there is none. */
  function AfterLastColon(s: string): string
  {
    if |s| == 0 || s[|s| - 1] == ':' then "" else AfterLastColon(s[..|s| - 1]) + [s[|s| - 1]]
  }

  /** The text before the last `:`, or all of it when there is none. */
  function BeforeLastColon(s: string): string
  {
    if |s| == 0 then "" else if s[|s| - 1] == ':' then s[..|s| - 1] else BeforeLastColon(s[..|s| - 1])
  }

  /** A colon followed by colon-free text is the last colon: splitting there
      recovers both parts. */
  lemma {:induction false} SplitAtLastColon(a: string, x: string)
    requires ':' !in x
    ensures AfterLastColon(a + ":" + x) == x
    ensures BeforeLastColon(a + ":" + x) == a
  {
    var s := a + ":" + x;
    if x == [] {
      assert s[..|s| - 1] == a;
    } else {
      var x' := x[..|x| - 1];
      assert s[..|s| - 1] == a + ":" + x';
      assert s[|s| - 1] == x[|x| - 1];
      assert ':' !in x' by {
        forall k | 0 <= k < |x'| ensures x'[k] != ':' {
          assert x'[k] == x[k];
        }
      }
      SplitAtLastColon(a, x');
      assert x' + [x[|x| - 1]] == x;
    }
  }

  /** A joined text begins with its first element. */
  lemma JoinStartsWithFirst(xs: seq<string>, sep: string)
    requires xs != []
    ensures StartsWith(Join(xs, sep), xs[0])
  {
  }

  /** A character found in no element and not in the separator is not in the
      joined text. */
  lemma {:induction false} JoinAvoids(xs: seq<string>, sep: string, c: char)
    requires forall i :: 0 <= i < |xs| ==> c !in xs[i]
    requires c !in sep
    ensures c !in Join(xs, sep)
  {
    if |xs| > 1 {
      JoinAvoids(xs[1..], sep, c);
    }
  }

  /** The number of occurrences of `c` in `s`. */
  function CountChar(s: string, c: char): nat
  {
    if |s| == 0 then 0 else (if s[0] == c then 1 else 0) + CountChar(s[1..], c)
  }

  lemma {:induction false} CountCharConcat(a: string, b: string, c: char)
    ensures CountChar(a + b, c) == CountChar(a, c) + CountChar(b, c)
  {
    if |a| == 0 {
      assert a + b == b;
    } else {
      assert (a + b)[1..] == a[1..] + b;
      CountCharConcat(a[1..], b, c);
    }
  }

  lemma {:induction false} CountCharAbsent(s: string, c: char)
    requires c !in s
    ensures CountChar(s, c) == 0
  {
    if |s| > 0 {
      assert s[0] != c;
      assert forall i :: 0 <= i < |s[1..]| ==> s[1..][i] == s[i + 1];
      CountCharAbsent(s[1..], c);
    }
  }

  /** Two texts without `c` joined by one `c` hold it once. */
  lemma CountCharOnceBetween(a: string, b: string, c: char)
    requires c !in a && c !in b
    ensures CountChar(a + [c] + b, c) == 1
  {
    CountCharAbsent(a, c);
    CountCharAbsent(b, c);
    CountCharConcat(a, [c], c);
    CountCharConcat(a + [c], b, c);
  }

  /** When no element contains `c` and the separator contains it once, the
      joined text contains `c` exactly once between consecutive elements:
      n elements are n lines when `c` is the newline. */
  lemma {:induction false} JoinCountChar(xs: seq<string>, sep: string, c: char)
    requires forall i :: 0 <= i < |xs| ==> c !in xs[i]
    requires CountChar(sep, c) == 1
    ensures CountChar(Join(xs, sep), c) == if |xs| == 0 then 0 else |xs| - 1
  {
    if |xs| == 1 {
      CountCharAbsent(xs[0], c);
    } else if |xs| > 1 {
      CountCharAbsent(xs[0], c);
      JoinCountChar(xs[1..], sep, c);
      CountCharConcat(xs[0], sep, c);
      CountCharConcat(xs[0] + sep, Join(xs[1..], sep), c);
    }
  }

  // ---------------------------------------------------------------------
  // Decimal rendering of numbers, as `${n}` produces it

  predicate IsDigit(c: char) { '0' <= c <= '9' }

  predicate AllDigits(s: string) { forall i :: 0 <= i < |s| ==> IsDigit(s[i]) }

  function DigitChar(d: nat): (c: char)
    requires d < 10
    ensures IsDigit(c)
  {
    (('0' as int) + d) as char
  }

  function DigitValue(c: char): nat
    requires IsDigit(c)
  {
    c as int - '0' as int
  }

  /** The digits of `n`, most significant first, without leading zeros. */
  function NatToDecimal(n: nat): (s: string)
    ensures |s| > 0 && AllDigits(s)
    ensures |s| > 1 ==> s[0] != '0'
    decreases n
  {
    if n < 10 then [DigitChar(n)] else NatToDecimal(n / 10) + [DigitChar(n % 10)]
  }

  /** The value of a string of digits. */
  function DigitsValue(s: string): nat
    requires AllDigits(s)
  {
    if |s| == 0 then 0 else DigitsValue(s[..|s| - 1]) * 10 + DigitValue(s[|s| - 1])
  }

  /** Reading back the digits of `n` gives `n`. */
  lemma {:induction false} NatToDecimalRoundTrip(n: nat)
    ensures DigitsValue(NatToDecimal(n)) == n
    decreases n
  {
    if n >= 10 {
      var s := NatToDecimal(n);
      assert s[..|s| - 1] == NatToDecimal(n / 10);
      NatToDecimalRoundTrip(n / 10);
    }
  }

  /** `${i}` for an integer-valued number: an optional minus sign and digits. */
  function IntToDecimal(i: int): (s: string)
    ensures |s| > 0
    ensures AllDigits(s) || (s[0] == '-' && |s| > 1 && AllDigits(s[1..]))
  {
    if i < 0 then "-" + NatToDecimal(-i) else NatToDecimal(i)
  }

  /** The decimal rendering holds only digits and a leading minus sign. */
  lemma IntToDecimalAvoids(i: int, c: char)
    requires c != '-' && !IsDigit(c)
    ensures c !in IntToDecimal(i)
  {
    var s := IntToDecimal(i);
    forall k | 0 <= k < |s| ensures s[k] != c {
      if !AllDigits(s) && k > 0 {
        assert s[k] == s[1..][k - 1];
      }
    }
  }

  lemma IntToDecimalHasNoColon(i: int)
    ensures ':' !in IntToDecimal(i)
  {
    var s := IntToDecimal(i);
    forall k | 0 <= k < |s| ensures s[k] != ':' {
      if !AllDigits(s) && k > 0 {
        assert s[k] == s[1..][k - 1];
      }
    }
  }

  /** Different numbers render differently. */
  lemma IntToDecimalInjective(a: int, b: int)
    requires IntToDecimal(a) == IntToDecimal(b)
    ensures a == b
  {
    NatToDecimalRoundTrip(if a < 0 then -a else a);
    NatToDecimalRoundTrip(if b < 0 then -b else b);
    if a < 0 {
      assert IntToDecimal(a)[1..] == NatToDecimal(-a);
    }
    if b < 0 {
      assert IntToDecimal(b)[1..] == NatToDecimal(-b);
    }
  }

  /** A template literal `${x}` where `x` may be `undefined`. */
  function Show(o: Option<string>): string
  {
    match o
    case Some(s) => s
    case None => "undefined"
  }

  /** JavaScript truthiness of an optional string: present and non-empty. */
  predicate Truthy(o: Option<string>) { o.Some? && o.value != "" }

  // ---------------------------------------------------------------------
  // Whitespace, trim and split

  /** The characters `\s` matches and `trim` removes (WhiteSpace and
      LineTerminator of ECMAScript). */
  predicate IsSpace(c: char)
  {
    var n := c as int;
    if n < 0xA0 then 0x09 <= n <= 0x0D || n == 0x20
    else n == 0xA0 || n == 0x1680 || (0x2000 <= n <= 0x200A) || n == 0x2028
         || n == 0x2029 || n == 0x202F || n == 0x205F || n == 0x3000 || n == 0xFEFF
  }

  predicate NoSpace(s: string) { forall i :: 0 <= i < |s| ==> !IsSpace(s[i]) }

  predicate AllSpace(s: string) { forall i :: 0 <= i < |s| ==> IsSpace(s[i]) }

  /** `trimStart`: drops the leading whitespace, and only that. */
  function TrimStart(s: string): (t: string)
    ensures |t| <= |s| && t == s[|s| - |t|..]
    ensures AllSpace(s[..|s| - |t|])
    ensures t != [] ==> !IsSpace(t[0])
  {
    if |s| > 0 && IsSpace(s[0]) then
      var rest := s[1..];
      var t := TrimStart(rest);
      var n := |rest| - |t|;
      assert rest[n..] == s[n + 1..];
      AllSpaceCons(s, n + 1);
      t
    else s
  }

  /** A whitespace character before a run of whitespace extends the run. */
  lemma AllSpaceCons(s: string, n: nat)
    requires 0 < n <= |s| && IsSpace(s[0]) && AllSpace(s[1..][..n - 1])
    ensures AllSpace(s[..n])
  {
    forall i | 0 <= i < n ensures IsSpace(s[i]) {
      if i > 0 {
        assert s[i] == s[1..][..n - 1][i - 1];
      }
    }
  }

  /** `trimEnd`: drops the trailing whitespace, and only that. */
  function TrimEnd(s: string): (t: string)
    ensures |t| <= |s| && t == s[..|t|]
    ensures AllSpace(s[|t|..])
    ensures t != [] ==> !IsSpace(t[|t| - 1])
  {
    if |s| > 0 && IsSpace(s[|s| - 1]) then TrimEnd(s[..|s| - 1]) else s
  }

  /** `trim`. */
  function Trim(s: string): string
  {
    TrimEnd(TrimStart(s))
  }

  predicate IsTrimmed(s: string)
  {
    s != [] ==> !IsSpace(s[0]) && !IsSpace(s[|s| - 1])
  }

  /** `trim` leaves no whitespace at either end. */
  lemma TrimIsTrimmed(s: string)
    ensures IsTrimmed(Trim(s))
  {
    var a := TrimStart(s);
    var t := TrimEnd(a);
    if t != [] {
      assert t[0] == a[0];
    }
  }

  /** Trimming the end of text that ends with a non-space changes nothing. */
  lemma TrimEndNoop(s: string)
    requires s == [] || !IsSpace(s[|s| - 1])
    ensures TrimEnd(s) == s
  {
  }

  /** A single leading space before a word is all `trimStart` removes. */
  lemma TrimStartOneSpace(x: string)
    requires x != [] && !IsSpace(x[0])
    ensures TrimStart(" " + x) == x
  {
    assert (" " + x)[1..] == x;
    TrimStartNoop(x);
  }

  /** Trimming trimmed text behind one space gives that text back. */
  lemma TrimAfterSpace(s: string)
    requires IsTrimmed(s)
    ensures Trim(" " + s) == s
  {
    if s == [] {
      assert TrimStart(" ") == TrimStart("");
    } else {
      TrimStartOneSpace(s);
      TrimEndNoop(s);
    }
  }

  /** A whitespace-free word followed by whitespace (or nothing) is the
      first word. */
  lemma {:induction false} WordEndOfWord(w: string, rest: string)
    requires NoSpace(w) && (rest == [] || IsSpace(rest[0]))
    ensures WordEnd(w + rest) == |w|
  {
    if w != [] {
      assert (w + rest)[1..] == w[1..] + rest;
      WordEndOfWord(w[1..], rest);
    } else {
      assert w + rest == rest;
    }
  }

  /** Text made only of whitespace trims to nothing. */
  lemma AllSpaceTrims(s: string)
    requires AllSpace(s)
    ensures Trim(s) == ""
  {
  }

  /** The length of the first run of non-whitespace characters. */
  function WordEnd(s: string): (k: nat)
    ensures k <= |s| && NoSpace(s[..k])
    ensures k < |s| ==> IsSpace(s[k])
  {
    if |s| == 0 || IsSpace(s[0]) then 0
    else
      var k := 1 + WordEnd(s[1..]);
      assert s[..k] == [s[0]] + s[1..][..k - 1];
      k
  }

  /** `s.split(/\s+/)`: the pieces between maximal runs of whitespace;
      `""` splits to `[""]`, and a trailing run leaves a final `""`. */
  function SplitOnSpaces(s: string): (parts: seq<string>)
    ensures |parts| >= 1
    decreases |s|
  {
    var k := WordEnd(s);
    if k == |s| then [s]
    else
      var rest := TrimStart(s[k..]);
      assert rest == TrimStart(s[k + 1..]) by {
        assert s[k..][1..] == s[k + 1..];
      }
      [s[..k]] + SplitOnSpaces(rest)
  }

  /** Trimming text that starts with a non-space changes nothing. */
  lemma TrimStartNoop(s: string)
    requires s == [] || !IsSpace(s[0])
    ensures TrimStart(s) == s
  {
  }

  /** On trimmed text, the first piece of the split is the first word: the
      longest whitespace-free prefix, non-empty unless the text is empty. */
  lemma SplitTrimmedFirst(s: string)
    requires IsTrimmed(s)
    ensures var parts := SplitOnSpaces(s);
            && parts[0] == s[..WordEnd(s)]
            && NoSpace(parts[0])
            && (parts[0] == "" <==> s == "")
            && (|parts| > 1 <==> WordEnd(s) < |s|)
  {
  }

  /** The split of text with a word followed by whitespace: that word,
      then the split of what follows the whitespace run. */
  lemma SplitUnfold(s: string)
    requires WordEnd(s) < |s|
    ensures SplitOnSpaces(s) == [s[..WordEnd(s)]] + SplitOnSpaces(TrimStart(s[WordEnd(s)..]))
  {
  }

  /** Text whose last character is not whitespace does not trim to nothing. */
  lemma {:induction false} TrimStartKeepsLast(s: string)
    requires s != [] && !IsSpace(s[|s| - 1])
    ensures TrimStart(s) != []
  {
    if IsSpace(s[0]) {
      assert |s| >= 2;
      assert s[1..][|s| - 2] == s[|s| - 1];
      TrimStartKeepsLast(s[1..]);
    }
  }

  /** On trimmed text that continues after its first word, the second piece
      of the split is the next word: non-empty, whitespace-free, and the
      first word of what follows the whitespace run. */
  lemma SplitTrimmedSecond(s: string)
    requires IsTrimmed(s) && WordEnd(s) < |s|
    ensures var rest := TrimStart(s[WordEnd(s)..]);
            var parts := SplitOnSpaces(s);
            && |parts| > 1
            && rest != [] && parts[1] == rest[..WordEnd(rest)]
            && parts[1] != "" && NoSpace(parts[1])
  {
    var k := WordEnd(s);
    var tail := s[k..];
    assert tail[|tail| - 1] == s[|s| - 1];
    TrimStartKeepsLast(tail);
    var rest := TrimStart(tail);
    SecondPiece(s, k, rest);
    assert WordEnd(rest) > 0 by { assert !IsSpace(rest[0]); }
  }

  /** The second piece of a split is the first word of what follows the
      first run of whitespace. */
  lemma SecondPiece(s: string, k: nat, rest: string)
    requires k == WordEnd(s) && k < |s| && rest == TrimStart(s[k..])
    ensures |SplitOnSpaces(s)| > 1 && SplitOnSpaces(s)[1] == rest[..WordEnd(rest)]
  {
    SplitUnfold(s);
    SplitFirstPiece(rest);
  }

  /** A whitespace-free word splits to itself. */
  lemma SplitOfWord(w: string)
    requires NoSpace(w)
    ensures SplitOnSpaces(w) == [w]
  {
    WordEndOfWord(w, "");
    assert w + "" == w;
  }

  /** Text whose first word is followed by a single further word splits
      into the two. */
  lemma SplitAfterFirstWord(s: string, k: nat, rest: string)
    requires k == WordEnd(s) && k < |s|
    requires TrimStart(s[k..]) == rest && SplitOnSpaces(rest) == [rest]
    ensures SplitOnSpaces(s) == [s[..k], rest]
  {
    SplitUnfold(s);
  }

  /** Two words separated by one space split into those two words. */
  lemma SplitTwoWords(a: string, b: string)
    requires a != "" && NoSpace(a) && b != "" && NoSpace(b)
    ensures SplitOnSpaces(a + " " + b) == [a, b]
  {
    var s := a + " " + b;
    var tail := " " + b;
    assert s == a + tail;
    WordEndOfWord(a, tail);
    assert s[|a|..] == tail;
    TrimStartOneSpace(b);
    SplitOfWord(b);
    assert s[..|a|] == a;
    SplitAfterFirstWord(s, |a|, b);
  }

  lemma SplitFirstPiece(s: string)
    ensures SplitOnSpaces(s)[0] == s[..WordEnd(s)]
  {
  }

  // ---------------------------------------------------------------------
  // parseInt(text, 10)

  /** The length of the run of digits at the start of `s`. */
  function LeadingDigits(s: string): (k: nat)
    ensures k <= |s| && AllDigits(s[..k])
    ensures k < |s| ==> !IsDigit(s[k])
  {
    if |s| == 0 || !IsDigit(s[0]) then 0
    else
      var k := 1 + LeadingDigits(s[1..]);
      assert s[..k] == [s[0]] + s[1..][..k - 1];
      k
  }

  /** `parseInt(s, 10)`: leading whitespace, an optional sign, then as many
      digits as there are; `None` stands for `NaN` (no digit at all). */
  function ParseInt(s: string): (r: Option<int>)
  {
    var t := TrimStart(s);
    var signed := |t| > 0 && (t[0] == '-' || t[0] == '+');
    var v := LeadingValue(if signed then t[1..] else t);
    if v.None? then None
    else if signed && t[0] == '-' then Some(0 - v.value)
    else Some(v.value)
  }

  /** The value of the run of digits at the start of `body`; none when
      `body` does not start with a digit. */
  function LeadingValue(body: string): (v: Option<nat>)
  {
    var k := LeadingDigits(body);
    if k == 0 then None else Some(DigitsValue(body[..k]))
  }

  /** A run of digits is read whole. */
  lemma LeadingValueOfDigits(d: string)
    requires |d| > 0 && AllDigits(d)
    ensures LeadingValue(d) == Some(DigitsValue(d))
  {
    AllDigitsPrefix(d);
    assert d[..|d|] == d;
  }

  lemma AllDigitsPrefix(s: string)
    requires AllDigits(s)
    ensures LeadingDigits(s) == |s|
  {
  }

  lemma DigitIsNotSpace(c: char)
    requires IsDigit(c) || c == '-'
    ensures !IsSpace(c)
  {
  }

  /** The largest integer a JavaScript number holds exactly, 2^53 - 1;
      beyond it, reading decimal text rounds to a nearby double. */
  const MaxSafeInteger := 9007199254740991

  predicate SafeInteger(i: int)
  {
    -MaxSafeInteger <= i <= MaxSafeInteger
  }

  /** `parseInt` reads back every rendered safe integer. */
  lemma ParseIntRoundTrip(i: int)
    requires SafeInteger(i)
    ensures ParseInt(IntToDecimal(i)) == Some(i)
  {
    if i < 0 {
      ParseIntOfNegative(i);
    } else {
      ParseIntOfNatural(i);
    }
  }

  lemma ParseIntOfNegative(i: int)
    requires i < 0
    ensures ParseInt(IntToDecimal(i)) == Some(i)
  {
    NegativeDecimal(i);
    ParseIntNegative(IntToDecimal(i));
  }

  /** A negative number renders as a minus sign before the digits of its
      magnitude. */
  lemma NegativeDecimal(i: int)
    requires i < 0
    ensures var s := IntToDecimal(i);
            |s| > 1 && s[0] == '-' && AllDigits(s[1..]) && DigitsValue(s[1..]) == -i
  {
    var s := IntToDecimal(i);
    assert s[1..] == NatToDecimal(-i) by {
      assert s == "-" + NatToDecimal(-i);
    }
    NatToDecimalRoundTrip(-i);
  }

  lemma ParseIntOfNatural(n: nat)
    ensures ParseInt(IntToDecimal(n)) == Some(n)
  {
    NatToDecimalRoundTrip(n);
    ParseIntUnsigned(IntToDecimal(n));
  }

  lemma ParseIntUnsigned(d: string)
    requires |d| > 0 && AllDigits(d)
    ensures ParseInt(d) == Some(DigitsValue(d))
  {
    assert TrimStart(d) == d by { DigitIsNotSpace(d[0]); TrimStartNoop(d); }
    assert !(d[0] == '-' || d[0] == '+') by { assert IsDigit(d[0]); }
    assert LeadingValue(d) == Some(DigitsValue(d)) by { LeadingValueOfDigits(d); }
  }

  lemma ParseIntNegative(s: string)
    requires |s| > 1 && s[0] == '-' && AllDigits(s[1..])
    ensures ParseInt(s) == Some(0 - DigitsValue(s[1..]))
  {
    assert TrimStart(s) == s by { DigitIsNotSpace(s[0]); TrimStartNoop(s); }
    LeadingValueOfDigits(s[1..]);
  }

  // ---------------------------------------------------------------------
  // UTF-16 length

  /** `s.length`: characters outside the Basic Multilingual Plane count twice. */
  function Utf16Length(s: string): (n: nat)
    ensures |s| <= n <= 2 * |s|
  {
    if |s| == 0 then 0 else (if s[0] as int >= 0x10000 then 2 else 1) + Utf16Length(s[1..])
  }
}
