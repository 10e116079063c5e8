/** String helpers the client pages rely on: JavaScript's `split` on a
    one-character separator and its inverse `join`, the `\s` character
    class of JavaScript regular expressions, and `toUpperCase` on ASCII
    letters. */
module Text {
  import opened Common

  /** The number of occurrences of `c` in `s`. */
  function CharCount(s: string, c: char): nat
  {
    multiset(s)[c]
  }

  /** `s.split(sep)`: the maximal pieces between separators, empty pieces
      included, so a string with n separators always splits into n + 1 pieces. */
  function Split(s: string, sep: char): (r: seq<string>)
    ensures |r| >= 1
    ensures forall i :: 0 <= i < |r| ==> sep !in r[i]
    decreases |s|
  {
    if s == [] then [""]
    else
      var rest := Split(s[1..], sep);
      if s[0] == sep then [""] + rest
      else [[s[0]] + rest[0]] + rest[1..]
  }

  /** `pieces.join([sep])`. */
  function Join(pieces: seq<string>, sep: char): string
    decreases |pieces|
  {
    if pieces == [] then ""
    else if |pieces| == 1 then pieces[0]
    else pieces[0] + [sep] + Join(pieces[1..], sep)
  }

  /** Splitting yields one piece more than there are separators. */
  lemma {:induction false} SplitCount(s: string, sep: char)
    ensures |Split(s, sep)| == CharCount(s, sep) + 1
    decreases |s|
  {
    if s != [] {
      SplitCount(s[1..], sep);
      assert s == [s[0]] + s[1..];
      assert multiset(s) == multiset{s[0]} + multiset(s[1..]);
    }
  }

  /** Joining the pieces with the separator gives back the original string. */
  lemma {:induction false} SplitJoin(s: string, sep: char)
    ensures Join(Split(s, sep), sep) == s
    decreases |s|
  {
    if s != [] {
      var rest := Split(s[1..], sep);
      SplitJoin(s[1..], sep);
      if s[0] == sep {
        assert Split(s, sep) == [""] + rest;
        assert ([""] + rest)[1..] == rest;
        assert s == [s[0]] + s[1..];
      } else {
        var r := Split(s, sep);
        assert r == [[s[0]] + rest[0]] + rest[1..];
        if |rest| == 1 {
          assert r == [[s[0]] + rest[0]];
          assert s[1..] == rest[0];
          assert s == [s[0]] + s[1..];
        } else {
          assert r[1..] == rest[1..];
          assert Join(rest, sep) == rest[0] + [sep] + Join(rest[1..], sep);
          assert s == [s[0]] + s[1..];
        }
      }
    }
  }

  /** A string without the separator is a single piece. */
  lemma {:induction false} SplitNoSeparator(a: string, sep: char)
    requires sep !in a
    ensures Split(a, sep) == [a]
    decreases |a|
  {
    if a != [] {
      SplitNoSeparator(a[1..], sep);
      assert [a[0]] + a[1..] == a;
    }
  }

  /** A piece without the separator, then the separator, then the rest:
      the piece comes first and the rest splits on its own. */
  lemma {:induction false} SplitAfterPiece(a: string, sep: char, b: string)
    requires sep !in a
    ensures Split(a + [sep] + b, sep) == [a] + Split(b, sep)
    decreases |a|
  {
    var s := a + [sep] + b;
    if a == [] {
      assert s == [sep] + b;
      assert s[1..] == b;
    } else {
      SplitAfterPiece(a[1..], sep, b);
      assert s[1..] == a[1..] + [sep] + b;
      assert [a[0]] + a[1..] == a;
    }
  }

  /** A string made only of separators splits into empty pieces. */
  lemma {:induction false} SplitBlank(s: string, sep: char)
    requires forall i :: 0 <= i < |s| ==> s[i] == sep
    ensures forall i :: 0 <= i < |Split(s, sep)| ==> Split(s, sep)[i] == ""
    decreases |s|
  {
    if s != [] {
      SplitBlank(s[1..], sep);
    }
  }

  /** The characters matched by `\s` in a JavaScript regular expression:
      white space and line terminators. */
  predicate IsSpace(c: char)
  {
    c == '\t' || c == '\n' || c == 0x0B as char || c == 0x0C as char || c == '\r' || c == ' '
    || c == 0xA0 as char || c == 0x1680 as char || (0x2000 as char <= c <= 0x200A as char)
    || c == 0x2028 as char || c == 0x2029 as char || c == 0x202F as char || c == 0x205F as char
    || c == 0x3000 as char || c == 0xFEFF as char
  }

  /** `toUpperCase` on one character, for the ASCII letters. */
  function UpperChar(c: char): (r: char)
    ensures 'a' <= c <= 'z' ==> 'A' <= r <= 'Z' && r as int == c as int - 32
    ensures !('a' <= c <= 'z') ==> r == c
  {
    if 'a' <= c <= 'z' then (c as int - 32) as char else c
  }

  /** `s.toUpperCase()`, letter by letter. */
  function Upper(s: string): (r: string)
    ensures |r| == |s|
    ensures forall i :: 0 <= i < |s| ==> r[i] == UpperChar(s[i])
  {
    if s == [] then "" else [UpperChar(s[0])] + Upper(s[1..])
  }
  /** A decimal digit. */
  predicate IsDigit(c: char)
  {
    '0' <= c <= '9'
  }

  /** `s` without its leading white space. */
  function TrimStart(s: string): (r: string)
    ensures |r| <= |s| && r == s[|s| - |r|..]
    ensures r != [] ==> !IsSpace(r[0])
    ensures s != [] && !IsSpace(s[0]) ==> r == s
  {
    if s != [] && IsSpace(s[0]) then TrimStart(s[1..]) else s
  }

  /** The longest run of digits that `s` starts with. */
  function LeadingDigits(s: string): (r: string)
    ensures |r| <= |s| && r == s[..|r|]
    ensures forall i :: 0 <= i < |r| ==> IsDigit(r[i])
    ensures |r| < |s| ==> !IsDigit(s[|r|])
  {
    if s == [] || !IsDigit(s[0]) then "" else [s[0]] + LeadingDigits(s[1..])
  }

  /** The value of a run of decimal digits. */
  function DigitsValue(d: string): nat
    requires forall i :: 0 <= i < |d| ==> IsDigit(d[i])
  {
    if d == [] then 0
    else
      assert IsDigit(d[|d| - 1]);
      DigitsValue(d[..|d| - 1]) * 10 + (d[|d| - 1] as int - '0' as int)
  }

  /** The digits `u` starts with, read as a number; None when it starts
      with something else. */
  function ParseDigits(u: string): (r: Option<nat>)
    ensures r.Some? <==> u != [] && IsDigit(u[0])
  {
    var digits := LeadingDigits(u);
    if digits == [] then None else Some(DigitsValue(digits))
  }

  /** `Number.parseInt(s)` on decimal text: leading white space and one sign
      are skipped, then the digits up to the first non-digit are read; None
      stands for NaN, when no digit comes.  Called without a radix,
      JavaScript reads a "0x" prefix as hexadecimal; that case is not
      modelled ("0x1A" gives 0 here, 26 there). */
  function ParseInt(s: string): (r: Option<int>)
    ensures r.Some? ==> exists i :: 0 <= i < |s| && IsDigit(s[i])
  {
    var t := TrimStart(s);
    var k := |s| - |t|;
    if t != [] && (t[0] == '-' || t[0] == '+') then
      var p := ParseDigits(t[1..]);
      if p.None? then None
      else
        assert s[k + 1] == t[1..][0];
        Some(if t[0] == '-' then 0 - p.value else p.value)
    else
      var p := ParseDigits(t);
      if p.None? then None
      else
        assert s[k] == t[0];
        Some(p.value)
  }

  /** Every character of a decimal text is a digit. */
  lemma {:induction false} DecimalDigits(n: nat)
    ensures forall i :: 0 <= i < |IntToString(n)| ==> IsDigit(IntToString(n)[i])
  {
    if n >= 10 {
      DecimalDigits(n / 10);
    }
  }

  /** The digits of a decimal text are worth the number. */
  lemma {:induction false} DecimalValue(n: nat)
    ensures forall i :: 0 <= i < |IntToString(n)| ==> IsDigit(IntToString(n)[i])
    ensures DigitsValue(IntToString(n)) == n
  {
    DecimalDigits(n);
    var d := IntToString(n);
    if n >= 10 {
      DecimalValue(n / 10);
      assert d[..|d| - 1] == IntToString(n / 10);
    } else {
      assert d[..0] == [];
    }
  }

  /** Digits followed by a non-digit are read up to the non-digit. */
  lemma {:induction false} LeadingDigitsStop(d: string, rest: string)
    requires forall i :: 0 <= i < |d| ==> IsDigit(d[i])
    requires rest == [] || !IsDigit(rest[0])
    ensures LeadingDigits(d + rest) == d
  {
    if d != [] {
      LeadingDigitsStop(d[1..], rest);
      assert (d + rest)[1..] == d[1..] + rest;
    } else {
      assert d + rest == rest;
    }
  }

  /** `parseInt` reads back the decimal text of a number, whatever
      non-digit text follows it ("12abc" reads as 12). */
  lemma ParseDecimal(n: nat, rest: string)
    requires rest == [] || !IsDigit(rest[0])
    ensures ParseInt(IntToString(n) + rest) == Some(n)
  {
    var d := IntToString(n);
    var s := d + rest;
    DecimalValue(n);
    assert IsDigit(s[0]) by {
      assert s[0] == d[0];
    }
    assert TrimStart(s) == s;
    assert LeadingDigits(s) == d by {
      LeadingDigitsStop(d, rest);
    }
    assert ParseDigits(s) == Some(n);
  }

  /** `parseInt` reads back a minus sign and the decimal text of a number. */
  lemma ParseNegative(n: nat)
    ensures ParseInt("-" + IntToString(n)) == Some(0 - n)
  {
    DecimalValue(n);
    LeadingDigitsStop(IntToString(n), "");
    var s := "-" + IntToString(n);
    assert TrimStart(s) == s;
    assert s[1..] == IntToString(n) + "";
  }
}
