/**
 * The JavaScript string primitives the front end relies on:
 * `String.prototype.trim`, `String.prototype.split` with a one-character
 * separator, and `Number(string)` on the strings it reads as decimal
 * integers.
 */
module Text {
  import opened Results

  /** ECMAScript WhiteSpace and LineTerminator code points, the set `trim` removes. */
  predicate IsSpace(c: char) {
    var n := c as int;
    n == 0x09 || n == 0x0A || n == 0x0B || n == 0x0C || n == 0x0D || n == 0x20
    || n == 0xA0 || n == 0x1680 || (0x2000 <= n <= 0x200A) || n == 0x2028 || n == 0x2029
    || n == 0x202F || n == 0x205F || n == 0x3000 || n == 0xFEFF
  }

  predicate AllSpace(s: string) {
    forall i :: 0 <= i < |s| ==> IsSpace(s[i])
  }

  /** Neither starts nor ends with whitespace. */
  predicate IsTrimmed(s: string) {
    |s| == 0 || (!IsSpace(s[0]) && !IsSpace(s[|s| - 1]))
  }

  /** Number of whitespace characters before the first other character. */
  function LeadingSpaces(s: string): (n: nat)
    ensures n <= |s|
    ensures AllSpace(s[..n])
    ensures n < |s| ==> !IsSpace(s[n])
  {
    if |s| == 0 || !IsSpace(s[0]) then 0
    else
      var k := LeadingSpaces(s[1..]);
      assert s[..k + 1] == [s[0]] + s[1..][..k];
      k + 1
  }

  /** Number of whitespace characters after the last other character. */
  function TrailingSpaces(s: string): (n: nat)
    ensures n <= |s|
    ensures AllSpace(s[|s| - n..])
    ensures n < |s| ==> !IsSpace(s[|s| - n - 1])
  {
    if |s| == 0 || !IsSpace(s[|s| - 1]) then 0
    else
      var t := s[..|s| - 1];
      var k := TrailingSpaces(t);
      assert AllSpace(s[|s| - (k + 1)..]) by {
        assert s[|s| - (k + 1)..] == t[|t| - k..] + [s[|s| - 1]];
      }
      assert k + 1 < |s| ==> s[|s| - (k + 1) - 1] == t[|t| - k - 1];
      k + 1
  }

  /** `s.trim()`: `s` without its leading and trailing whitespace. */
  function Trim(s: string): (r: string)
    ensures IsTrimmed(r)
    ensures r == [] <==> AllSpace(s)
    ensures exists i :: 0 <= i <= |s| - |r| && r == s[i..i + |r|] && AllSpace(s[..i]) && AllSpace(s[i + |r|..])
  {
    var a := LeadingSpaces(s);
    if a == |s| then
      assert AllSpace(s) by {
        assert s[..a] == s;
      }
      assert [] == s[0..0] && AllSpace(s[..0]) && s[0..] == s;
      []
    else
      var b := |s| - TrailingSpaces(s);
      assert a < b by {
        if b <= a {
          assert false;
        }
      }
      var r := s[a..b];
      assert IsTrimmed(r) by {
        assert r[0] == s[a] && r[|r| - 1] == s[b - 1];
      }
      assert !AllSpace(s) by {
        assert !IsSpace(s[a]);
      }
      assert r == s[a..a + |r|] && AllSpace(s[..a]) && AllSpace(s[a + |r|..]);
      r
  }

  lemma TrimOfTrimmed(s: string)
    requires IsTrimmed(s)
    ensures Trim(s) == s
  {
    if |s| > 0 {
      assert LeadingSpaces(s) == 0;
      assert TrailingSpaces(s) == 0;
    }
  }

  /** A non-blank string is one `trim` leaves non-empty. */
  lemma {:induction false} TrimNonEmpty(s: string)
    ensures Trim(s) != [] <==> exists i :: 0 <= i < |s| && !IsSpace(s[i])
  {
  }

  /** `s.split(sep)` for a one-character separator: every piece between separators, empty ones kept. */
  function Split(s: string, sep: char): (parts: seq<string>)
    ensures |parts| >= 1
    ensures forall i :: 0 <= i < |parts| ==> sep !in parts[i]
  {
    if |s| == 0 then [""]
    else
      var rest := Split(s[1..], sep);
      if s[0] == sep then [""] + rest
      else [[s[0]] + rest[0]] + rest[1..]
  }

  /** `parts.join(sep)`. */
  function Join(parts: seq<string>, sep: char): string
    requires |parts| >= 1
  {
    if |parts| == 1 then parts[0] else parts[0] + [sep] + Join(parts[1..], sep)
  }

  /** A non-empty sequence is its front and its last element. */
  lemma LastSplit<T>(s: seq<T>)
    requires |s| > 0
    ensures s == s[..|s| - 1] + [s[|s| - 1]]
  {
  }

  /** Splitting loses nothing: joining the pieces restores the string. */
  lemma {:induction false} JoinSplit(s: string, sep: char)
    ensures Join(Split(s, sep), sep) == s
  {
    if |s| > 0 {
      var rest := Split(s[1..], sep);
      JoinSplit(s[1..], sep);
      if s[0] == sep {
        assert Split(s, sep)[1..] == rest;
      } else {
        var parts := Split(s, sep);
        if |rest| == 1 {
          assert parts == [[s[0]] + rest[0]];
        } else {
          assert parts[1..] == rest[1..];
          assert Join(rest, sep) == rest[0] + [sep] + Join(rest[1..], sep);
        }
      }
    }
  }

  /** And the other direction: separator-free pieces are recovered by splitting their join. */
  lemma {:induction false} SplitJoin(parts: seq<string>, sep: char)
    requires |parts| >= 1
    requires forall i :: 0 <= i < |parts| ==> sep !in parts[i]
    ensures Split(Join(parts, sep), sep) == parts
  {
    if |parts| == 1 {
      SplitNoSeparator(parts[0], sep);
    } else {
      SplitJoin(parts[1..], sep);
      SplitPrefix(parts[0], Join(parts[1..], sep), sep);
      assert [parts[0]] + parts[1..] == parts;
    }
  }

  lemma {:induction false} SplitNoSeparator(s: string, sep: char)
    requires sep !in s
    ensures Split(s, sep) == [s]
  {
    if |s| > 0 {
      SplitNoSeparator(s[1..], sep);
      assert [s[0]] + s[1..] == s;
    }
  }

  lemma {:induction false} SplitPrefix(a: string, b: string, sep: char)
    requires sep !in a
    ensures Split(a + [sep] + b, sep) == [a] + Split(b, sep)
  {
    if |a| == 0 {
      assert a + [sep] + b == [sep] + b;
      assert ([sep] + b)[1..] == b;
    } else {
      SplitPrefix(a[1..], b, sep);
      assert (a + [sep] + b)[1..] == a[1..] + [sep] + b;
      assert [a[0]] + a[1..] == a;
    }
  }

  predicate IsDigit(c: char) {
    '0' <= c <= '9'
  }

  predicate AllDigits(s: string) {
    forall i :: 0 <= i < |s| ==> IsDigit(s[i])
  }

  /** Decimal value of a digit string, most significant digit first. */
  function DigitsValue(s: string): nat
    requires AllDigits(s)
  {
    if |s| == 0 then 0 else 10 * DigitsValue(s[..|s| - 1]) + (s[|s| - 1] as int - '0' as int)
  }

  /** Shortest decimal numeral of `n`. */
  function ShowNat(n: nat): (s: string)
    ensures |s| >= 1 && AllDigits(s)
  {
    var d := ['0' + (n % 10) as char];
    if n < 10 then d else ShowNat(n / 10) + d
  }

  /** Decimal rendering of an integer, with a leading `-` when negative. */
  function ShowInt(n: int): string {
    if n < 0 then "-" + ShowNat(-n) else ShowNat(n)
  }

  /** An optional sign followed by at least one decimal digit, as `Number` reads it. */
  function ParseNumeral(s: string): (r: Option<int>)
    ensures r.Some? <==> (AllDigits(s) && |s| > 0) || (|s| > 1 && (s[0] == '-' || s[0] == '+') && AllDigits(s[1..]))
  {
    if |s| > 1 && s[0] == '-' && AllDigits(s[1..]) then Some(0 - DigitsValue(s[1..]) as int)
    else if |s| > 1 && s[0] == '+' && AllDigits(s[1..]) then Some(DigitsValue(s[1..]))
    else if |s| > 0 && AllDigits(s) then Some(DigitsValue(s))
    else None
  }

  /**
   * `Number(s)` where it is a decimal integer: a blank string is 0, and a
   * trimmed signed run of decimal digits is its value. `None` stands for
   * every other string: NaN, and also the strings `Number` reads in another
   * notation (a fraction, an exponent, a trailing ".", a hexadecimal, binary
   * or octal prefix, "Infinity").
   */
  function StringToNumber(s: string): (r: Option<int>)
    ensures AllSpace(s) ==> r == Some(0)
    ensures !AllSpace(s) ==> r == ParseNumeral(Trim(s))
  {
    var t := Trim(s);
    if t == [] then Some(0) else ParseNumeral(t)
  }

  /** A trimmed string whose second character is not a digit is not read. */
  lemma SecondNotDigitUnread(s: string)
    requires |s| > 1 && IsTrimmed(s) && !IsDigit(s[1])
    ensures StringToNumber(s) == None
  {
    TrimOfTrimmed(s);
    assert !AllDigits(s) && !AllDigits(s[1..]) by {
      assert s[1..][0] == s[1];
    }
  }

  /** Fractions, and integers written with a point or an exponent, which `Number` reads, stay unread here. */
  lemma DecimalNotationsUnread()
    ensures StringToNumber("2.5") == None && StringToNumber("1.0") == None
    ensures StringToNumber("1.") == None && StringToNumber("1e3") == None
  {
    SecondNotDigitUnread("2.5");
    SecondNotDigitUnread("1.0");
    SecondNotDigitUnread("1.");
    SecondNotDigitUnread("1e3");
  }

  /** Hexadecimal, binary and octal numerals, which `Number` reads, stay unread here. */
  lemma PrefixedNotationsUnread()
    ensures StringToNumber("0x10") == None && StringToNumber("0b101") == None && StringToNumber("0o17") == None
  {
    SecondNotDigitUnread("0x10");
    SecondNotDigitUnread("0b101");
    SecondNotDigitUnread("0o17");
  }

  lemma {:induction false} ShowNatValue(n: nat)
    ensures DigitsValue(ShowNat(n)) == n
  {
    var d := ['0' + (n % 10) as char];
    if n >= 10 {
      ShowNatValue(n / 10);
      var s := ShowNat(n / 10) + d;
      assert s[..|s| - 1] == ShowNat(n / 10);
    }
  }

  /** A rendered integer has no surrounding whitespace. */
  lemma ShowIntTrimmed(n: int)
    ensures IsTrimmed(ShowInt(n))
  {
    var s := ShowInt(n);
    assert IsDigit(s[|s| - 1]);
    if n < 0 {
      assert s[0] == '-';
    } else {
      assert IsDigit(s[0]);
    }
  }

  /** A rendered natural number reads back as itself. */
  lemma ParseShowNat(n: nat)
    ensures ParseNumeral(ShowNat(n)) == Some(n)
  {
    var s := ShowNat(n);
    assert !(|s| > 1 && (s[0] == '-' || s[0] == '+')) by {
      assert IsDigit(s[0]);
    }
    ShowNatValue(n);
  }

  /** A rendered negative number reads back as itself. */
  lemma ParseShowNegative(n: int)
    requires n < 0
    ensures ParseNumeral(ShowInt(n)) == Some(n)
  {
    var s := ShowInt(n);
    assert s[1..] == ShowNat(-n);
    assert s[0] == '-' && |s| > 1;
    ShowNatValue(-n);
  }

  /** Rendering then reading back an integer is the identity. */
  lemma NumberOfShowInt(n: int)
    ensures StringToNumber(ShowInt(n)) == Some(n)
  {
    var s := ShowInt(n);
    assert Trim(s) == s by {
      ShowIntTrimmed(n);
      TrimOfTrimmed(s);
    }
    assert s != [];
    if n < 0 {
      ParseShowNegative(n);
    } else {
      ParseShowNat(n);
    }
  }
}
