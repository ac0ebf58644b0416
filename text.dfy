/**
 * String helpers with the meaning of the Go standard-library calls the system
 * makes: `strings.Join`, `strings.ReplaceAll(s, old, "")`, `strings.Split`,
 * `fmt.Sprintf("%d", n)`, `strconv.ParseInt(s, 10, 64)` and the ASCII `\w`
 * class of Go's regexp syntax.
 */
module Text {
  import opened Wrappers

  // ---------------------------------------------------------------------------
  // Joining

  /** `strings.Join(xs, sep)`. */
  function Join(xs: seq<string>, sep: string): string
  {
    if |xs| == 0 then ""
    else if |xs| == 1 then xs[0]
    else xs[0] + sep + Join(xs[1..], sep)
  }

  /** Plain concatenation: `strings.Join(xs, "")`. */
  function Concat(xs: seq<string>): string
  {
    Join(xs, "")
  }

  /** Appending one more element to a join puts exactly one separator before it. */
  lemma {:induction false} JoinSnoc(xs: seq<string>, x: string, sep: string)
    ensures Join(xs + [x], sep) == if xs == [] then x else Join(xs, sep) + sep + x
  {
    if |xs| == 0 {
      assert xs + [x] == [x];
    } else if |xs| == 1 {
      assert xs + [x] == [xs[0], x];
      assert (xs + [x])[1..] == [x];
    } else {
      assert (xs + [x])[1..] == xs[1..] + [x];
      JoinSnoc(xs[1..], x, sep);
    }
  }

  /** A join of non-empty strings is empty exactly when there is nothing to join. */
  lemma JoinEmptyIff(xs: seq<string>, sep: string)
    requires forall i :: 0 <= i < |xs| ==> xs[i] != ""
    ensures Join(xs, sep) == "" <==> xs == []
  {
    if |xs| >= 2 {
      assert |Join(xs, sep)| >= |xs[0]|;
    }
  }

  // ---------------------------------------------------------------------------
  // Occurrences, deletion and splitting

  /** `pat` occurs in `s` starting at index `i`. */
  predicate OccursAt(s: string, pat: string, i: int)
  {
    0 <= i && i + |pat| <= |s| && s[i..i + |pat|] == pat
  }

  predicate Occurs(s: string, pat: string)
  {
    exists i | 0 <= i <= |s| :: OccursAt(s, pat, i)
  }

  /**
   * `strings.ReplaceAll(s, pat, "")`: scanning left to right, every
   * non-overlapping occurrence of `pat` is dropped. An empty `pat` leaves `s`
   * unchanged.
   */
  function DeleteAll(s: string, pat: string): (r: string)
    ensures |r| <= |s|
    decreases |s|
  {
    if pat == "" || |s| < |pat| then s
    else if s[..|pat|] == pat then DeleteAll(s[|pat|..], pat)
    else [s[0]] + DeleteAll(s[1..], pat)
  }

  /** `strings.Split(s, pat)` for a non-empty separator. */
  function Split(s: string, pat: string): (r: seq<string>)
    requires pat != ""
    ensures |r| >= 1
    decreases |s|
  {
    if |s| < |pat| then [s]
    else if s[..|pat|] == pat then [""] + Split(s[|pat|..], pat)
    else
      var rest := Split(s[1..], pat);
      [[s[0]] + rest[0]] + rest[1..]
  }

  /** When `pat` does not occur in `s`, deleting it changes nothing. */
  lemma {:induction false} DeleteAllAbsent(s: string, pat: string)
    requires !Occurs(s, pat)
    ensures DeleteAll(s, pat) == s
    decreases |s|
  {
    if pat != "" && |s| >= |pat| {
      assert !OccursAt(s, pat, 0);
      forall i | OccursAt(s[1..], pat, i) ensures false {
        assert s[1..][i..i + |pat|] == s[i + 1..i + 1 + |pat|];
        assert OccursAt(s, pat, i + 1);
      }
      DeleteAllAbsent(s[1..], pat);
    }
  }

  /** Splitting at the occurrences of `pat` and joining back with `pat` gives `s` again. */
  lemma {:induction false} SplitJoin(s: string, pat: string)
    requires pat != ""
    ensures Join(Split(s, pat), pat) == s
    decreases |s|
  {
    if |s| >= |pat| {
      if s[..|pat|] == pat {
        SplitJoin(s[|pat|..], pat);
        JoinEmptyHead(Split(s[|pat|..], pat), pat);
        assert s == s[..|pat|] + s[|pat|..];
      } else {
        SplitJoin(s[1..], pat);
        JoinExtendHead(s[0], Split(s[1..], pat), pat);
        assert s == [s[0]] + s[1..];
      }
    }
  }

  /** Deleting `pat` from `s` leaves exactly the pieces of `Split(s, pat)` side by side. */
  lemma {:induction false} DeleteAllConcat(s: string, pat: string)
    requires pat != ""
    ensures DeleteAll(s, pat) == Concat(Split(s, pat))
    decreases |s|
  {
    if |s| >= |pat| {
      if s[..|pat|] == pat {
        DeleteAllConcat(s[|pat|..], pat);
        JoinEmptyHead(Split(s[|pat|..], pat), "");
      } else {
        DeleteAllConcat(s[1..], pat);
        JoinExtendHead(s[0], Split(s[1..], pat), "");
      }
    }
  }

  /** An empty first piece joins to a leading separator. */
  lemma JoinEmptyHead(xs: seq<string>, sep: string)
    requires |xs| >= 1
    ensures Join([""] + xs, sep) == sep + Join(xs, sep)
  {
    assert ([""] + xs)[1..] == xs;
  }

  /** A character put in front of the first piece goes in front of the join. */
  lemma JoinExtendHead(c: char, xs: seq<string>, sep: string)
    requires |xs| >= 1
    ensures Join([[c] + xs[0]] + xs[1..], sep) == [c] + Join(xs, sep)
  {
    var ys := [[c] + xs[0]] + xs[1..];
    assert ys[1..] == xs[1..];
    if |xs| > 1 {
      assert Join(xs, sep) == xs[0] + sep + Join(xs[1..], sep);
      assert Join(ys, sep) == ys[0] + sep + Join(ys[1..], sep);
    }
  }

  /** No piece of `Split(s, pat)` contains `pat`: every occurrence was a cut point. */
  lemma {:induction false} SplitPiecesFree(s: string, pat: string)
    requires pat != ""
    ensures forall k :: 0 <= k < |Split(s, pat)| ==> !Occurs(Split(s, pat)[k], pat)
    decreases |s|
  {
    if |s| < |pat| {
      forall i | OccursAt(s, pat, i) ensures false { }
    } else if s[..|pat|] == pat {
      var rest := Split(s[|pat|..], pat);
      SplitPiecesFree(s[|pat|..], pat);
      forall i | OccursAt("", pat, i) ensures false { }
      forall k | 1 <= k < |[""] + rest| ensures !Occurs(([""] + rest)[k], pat) {
        assert ([""] + rest)[k] == rest[k - 1];
      }
    } else {
      var rest := Split(s[1..], pat);
      SplitPiecesFree(s[1..], pat);
      var head := [s[0]] + rest[0];
      SplitJoin(s[1..], pat);
      PrefixOfJoin(rest, pat);
      assert s[1..][..|rest[0]|] == rest[0];
      ExtendFree(s, pat, rest[0]);
      forall k | 1 <= k < |[head] + rest[1..]| ensures !Occurs(([head] + rest[1..])[k], pat) {
        assert ([head] + rest[1..])[k] == rest[k];
      }
    }
  }

  /** A piece free of `pat`, extended by a character where `pat` does not start, stays free of it. */
  lemma ExtendFree(s: string, pat: string, piece: string)
    requires pat != "" && |piece| < |s| && s[1..][..|piece|] == piece && !Occurs(piece, pat)
    requires |s| >= |pat| && s[..|pat|] != pat
    ensures !Occurs([s[0]] + piece, pat)
  {
    var head := [s[0]] + piece;
    assert s[..|head|] == head;
    forall i | OccursAt(head, pat, i) ensures false {
      if i > 0 {
        assert head[i..i + |pat|] == piece[i - 1..i - 1 + |pat|];
        assert OccursAt(piece, pat, i - 1);
      }
    }
  }

  /** The first element of a join is a prefix of it. */
  lemma PrefixOfJoin(xs: seq<string>, sep: string)
    requires |xs| >= 1
    ensures |xs[0]| <= |Join(xs, sep)| && Join(xs, sep)[..|xs[0]|] == xs[0]
  {
  }

  /** Deleting a one-character pattern removes every copy of that character. */
  lemma {:induction false} DeleteCharGone(s: string, c: char)
    ensures forall k :: 0 <= k < |DeleteAll(s, [c])| ==> DeleteAll(s, [c])[k] != c
    decreases |s|
  {
    if |s| >= 1 {
      DeleteCharGone(s[1..], c);
      if s[..1] != [c] {
        assert s[0] != c;
      }
    }
  }

  /** Deleting a character keeps every other character. */
  lemma {:induction false} DeleteCharKeeps(s: string, c: char, d: char)
    requires d != c
    ensures multiset(DeleteAll(s, [c]))[d] == multiset(s)[d]
    decreases |s|
  {
    if |s| >= 1 {
      DeleteCharKeeps(s[1..], c, d);
      assert s == [s[0]] + s[1..];
      assert multiset(s) == multiset([s[0]]) + multiset(s[1..]);
      if s[..1] == [c] {
        assert s[0] == c;
      } else {
        assert multiset(DeleteAll(s, [c])) == multiset([s[0]]) + multiset(DeleteAll(s[1..], [c]));
      }
    }
  }

  // ---------------------------------------------------------------------------
  // Word characters (the `\w` class of Go's regexp syntax is ASCII only)

  predicate IsWordChar(c: char)
  {
    ('a' <= c <= 'z') || ('A' <= c <= 'Z') || ('0' <= c <= '9') || c == '_'
  }

  /** Length of the longest prefix of `s` made of word characters. */
  function WordRun(s: string): (n: nat)
    ensures n <= |s|
    ensures forall k :: 0 <= k < n ==> IsWordChar(s[k])
    ensures n < |s| ==> !IsWordChar(s[n])
  {
    if |s| > 0 && IsWordChar(s[0]) then 1 + WordRun(s[1..]) else 0
  }

  // ---------------------------------------------------------------------------
  // Decimal numbers

  const MinInt64: int := -0x8000_0000_0000_0000
  const MaxInt64: int := 0x7fff_ffff_ffff_ffff

  type Int64 = x: int | MinInt64 <= x <= MaxInt64

  predicate IsDigit(c: char)
  {
    '0' <= c <= '9'
  }

  predicate AllDigits(s: string)
  {
    forall k :: 0 <= k < |s| ==> IsDigit(s[k])
  }

  function DigitChar(d: nat): (c: char)
    requires d < 10
    ensures IsDigit(c)
  {
    (48 + d) as char
  }

  /** The number a string of decimal digits denotes (most significant first). */
  function Value(s: string): nat
    requires AllDigits(s)
  {
    if s == "" then 0 else Value(s[..|s| - 1]) * 10 + ((s[|s| - 1] as int) - 48)
  }

  function Pow10(w: nat): (p: nat)
    ensures p >= 1
  {
    if w == 0 then 1 else 10 * Pow10(w - 1)
  }

  /** The shortest decimal spelling of `n`, as `%d` prints it. */
  function Decimal(n: nat): string
  {
    if n < 10 then [DigitChar(n)] else Decimal(n / 10) + [DigitChar(n % 10)]
  }

  /** The last `width` decimal digits of `n`, zero-padded. */
  function PadDecimal(n: nat, width: nat): string
  {
    if width == 0 then "" else PadDecimal(n / 10, width - 1) + [DigitChar(n % 10)]
  }

  /** `fmt.Sprintf("%d", n)`. */
  function FormatInt(n: int): (r: string)
    ensures r != "" && (r[0] == '-' <==> n < 0)
  {
    if n < 0 then "-" + Decimal(-n)
    else
      DecimalValue(n);
      Decimal(n)
  }

  /** What follows an optional leading sign. */
  function Unsigned(s: string): string
    requires s != ""
  {
    if s[0] == '+' || s[0] == '-' then s[1..] else s
  }

  /** An optional sign followed by at least one decimal digit and nothing else. */
  predicate DecimalSyntax(s: string)
  {
    s != "" && Unsigned(s) != "" && AllDigits(Unsigned(s))
  }

  /** The number a well-formed decimal spelling denotes, sign included. */
  function SignedValue(s: string): int
    requires DecimalSyntax(s)
  {
    var v: int := Value(Unsigned(s));
    if s[0] == '-' then -v else v
  }

  /**
   * `strconv.ParseInt(s, 10, 64)`: an optional sign, then at least one decimal
   * digit and nothing else, within the signed 64-bit range. `None` stands for
   * both its syntax error and its range error.
   */
  function ParseInt64(s: string): (r: Option<Int64>)
    ensures r.Some? <==> DecimalSyntax(s) && MinInt64 <= SignedValue(s) <= MaxInt64
    ensures r.Some? ==> r.value == SignedValue(s)
    ensures r.Some? && r.value != 0 ==> (s[0] == '-') == (r.value < 0)
  {
    if s == "" then None
    else
      var neg := s[0] == '-';
      var digits := Unsigned(s);
      if digits == "" || !AllDigits(digits) then None
      else
        var u: int := Value(digits);
        if !neg && u > MaxInt64 then None
        else if neg && u > -MinInt64 then None
        else Some(if neg then -u else u)
  }

  const MaxUint64: int := 0xffff_ffff_ffff_ffff

  /**
   * `strconv.ParseUint` reads digits left to right and stops with a range
   * error as soon as the digits read exceed the unsigned 64-bit maximum, even
   * if a character that is not a digit follows.
   */
  predicate DigitsOverflow(d: string)
  {
    exists k :: 0 < k <= |d| && AllDigits(d[..k]) && Value(d[..k]) > MaxUint64
  }

  /** Whether `strconv.ParseInt` rejects `s` with its range error rather than its syntax error. */
  predicate RangeError(s: string)
  {
    s != "" && (DecimalSyntax(s) || DigitsOverflow(Unsigned(s)))
  }

  /**
   * The text of `strconv.ParseInt`'s error for a string it rejects: the input
   * as `strconv.Quote` spells it, then the kind of error.
   */
  function ParseIntError(s: string): string
  {
    "strconv.ParseInt: parsing " + Quote(s) + ": " + (if RangeError(s) then "value out of range" else "invalid syntax")
  }

  // ---------------------------------------------------------------------------
  // Quoting

  const HexDigits := "0123456789abcdef"

  /**
   * `strconv.Quote`: the text in double quotes, with each double quote and
   * backslash escaped, and each ASCII control character written as `\a`,
   * `\b`, `\f`, `\n`, `\r`, `\t`, `\v` or `\x` and two hex digits.
   */
  function Quote(s: string): (q: string)
    ensures |q| >= |s| + 2 && q[0] == '"' && q[|q| - 1] == '"'
  {
    "\"" + QuoteBody(s) + "\""
  }

  function QuoteBody(s: string): (q: string)
    ensures |q| >= |s|
  {
    if s == "" then "" else QuoteChar(s[0]) + QuoteBody(s[1..])
  }

  /** Characters `strconv.Quote` passes through unchanged. */
  predicate Plain(c: char)
  {
    c != '"' && c != '\\' && 0x20 <= c as int && c as int != 0x7f
  }

  function QuoteChar(c: char): (q: string)
    ensures Plain(c) <==> q == [c]
    ensures !Plain(c) ==> |q| >= 2 && q[0] == '\\'
  {
    var n := c as int;
    if c == '"' || c == '\\' then ['\\', c]
    else if n == 7 then "\\a"
    else if n == 8 then "\\b"
    else if n == 12 then "\\f"
    else if n == 10 then "\\n"
    else if n == 13 then "\\r"
    else if n == 9 then "\\t"
    else if n == 11 then "\\v"
    else if n < 0x20 || n == 0x7f then ['\\', 'x', HexDigits[n / 16], HexDigits[n % 16]]
    else [c]
  }

  /** A text with no quote, backslash or control character is quoted as it is. */
  lemma {:induction false} QuotePlain(s: string)
    requires forall k :: 0 <= k < |s| ==> Plain(s[k])
    ensures Quote(s) == "\"" + s + "\""
  {
    QuoteBodyPlain(s);
  }

  lemma {:induction false} QuoteBodyPlain(s: string)
    requires forall k :: 0 <= k < |s| ==> Plain(s[k])
    ensures QuoteBody(s) == s
  {
    if s != "" {
      QuoteBodyPlain(s[1..]);
    }
  }

  /** Quoting works character by character: it distributes over concatenation. */
  lemma {:induction false} QuoteBodyConcat(a: string, b: string)
    ensures QuoteBody(a + b) == QuoteBody(a) + QuoteBody(b)
  {
    if a == "" {
      assert a + b == b;
    } else {
      assert (a + b)[0] == a[0] && (a + b)[1..] == a[1..] + b;
      QuoteBodyConcat(a[1..], b);
    }
  }

  lemma ValueSnoc(s: string, c: char)
    requires AllDigits(s) && IsDigit(c)
    ensures AllDigits(s + [c]) && Value(s + [c]) == Value(s) * 10 + ((c as int) - 48)
  {
    assert (s + [c])[..|s|] == s;
  }

  /** `Decimal` spells `n` in digits, and reading them back gives `n`. */
  lemma {:induction false} DecimalValue(n: nat)
    ensures Decimal(n) != "" && AllDigits(Decimal(n)) && Value(Decimal(n)) == n
  {
    if n < 10 {
      assert Decimal(n)[..0] == "";
    } else {
      DecimalValue(n / 10);
      ValueSnoc(Decimal(n / 10), DigitChar(n % 10));
    }
  }

  /** A zero-padded spelling of a number that fits the width reads back as that number. */
  lemma {:induction false} PadDecimalValue(n: nat, width: nat)
    requires n < Pow10(width)
    ensures |PadDecimal(n, width)| == width
    ensures AllDigits(PadDecimal(n, width)) && Value(PadDecimal(n, width)) == n
  {
    if width > 0 {
      PadDecimalValue(n / 10, width - 1);
      ValueSnoc(PadDecimal(n / 10, width - 1), DigitChar(n % 10));
    }
  }

  /** Parsing what `%d` printed gives back the same 64-bit integer. */
  lemma ParseFormatRoundTrip(n: Int64)
    ensures ParseInt64(FormatInt(n)) == Some(n)
  {
    if n < 0 {
      var m: nat := 0 - n as int;
      DecimalValue(m);
      assert FormatInt(n)[1..] == Decimal(m);
    } else {
      DecimalValue(n);
      assert IsDigit(Decimal(n)[0]);
    }
  }
}
