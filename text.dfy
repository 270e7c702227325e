/** The JavaScript string operations the client code uses: `toLowerCase`/`toUpperCase` (on ASCII
    letters), `includes`, `trim`, `split` on one character, `startsWith`, the avatar initials built
    from `split(" ").map(part => part[0]).join("")`, number-to-string conversion and `parseInt(s, 10)`. */
module Text {
  import opened Wrappers

  function LowerChar(c: char): char
  {
    if 'A' <= c <= 'Z' then (c as int + 32) as char else c
  }

  function UpperChar(c: char): (u: char)
    ensures !('a' <= u <= 'z')
  {
    if 'a' <= c <= 'z' then (c as int - 32) as char else c
  }

  /** `s.toLowerCase()` restricted to ASCII letters. */
  function Lower(s: string): (r: string)
    ensures |r| == |s|
    ensures forall i :: 0 <= i < |s| ==> r[i] == LowerChar(s[i])
  {
    seq(|s|, i requires 0 <= i < |s| => LowerChar(s[i]))
  }

  /** Text without upper-case ASCII letters is its own lower-case form. */
  lemma LowerOfLowerCase(s: string)
    requires forall i :: 0 <= i < |s| ==> !('A' <= s[i] <= 'Z')
    ensures Lower(s) == s
  {
  }

  /** `s.toUpperCase()` restricted to ASCII letters. */
  function Upper(s: string): (r: string)
    ensures |r| == |s|
    ensures forall i :: 0 <= i < |s| ==> r[i] == UpperChar(s[i])
  {
    seq(|s|, i requires 0 <= i < |s| => UpperChar(s[i]))
  }

  /** `s.startsWith(p)`. */
  predicate StartsWith(s: string, p: string)
  {
    |p| <= |s| && s[..|p|] == p
  }

  /** `s.includes(q)`: `q` occurs in `s` at some offset (the empty string occurs everywhere). */
  predicate Includes(s: string, q: string)
  {
    exists i :: 0 <= i <= |s| && StartsWith(s[i..], q)
  }

  lemma IncludesEmpty(s: string)
    ensures Includes(s, "")
  {
    assert StartsWith(s[0..], "");
  }

  /** An optional string is truthy when present and non-empty. */
  predicate TruthyString(v: Option<string>)
  {
    v.Some? && v.value != ""
  }

  /** The characters that `String.prototype.trim` and `parseInt` treat as white space or line
      terminators. */
  predicate IsWhiteSpace(c: char)
  {
    var n := c as int;
    (9 <= n <= 13) || n == 32 || n == 0xA0 || n == 0x1680 || (0x2000 <= n <= 0x200A) ||
    n == 0x2028 || n == 0x2029 || n == 0x202F || n == 0x205F || n == 0x3000 || n == 0xFEFF
  }

  function TrimStart(s: string): (r: string)
    ensures |r| <= |s| && r == s[|s| - |r|..]
    ensures r == [] || !IsWhiteSpace(r[0])
  {
    if s != [] && IsWhiteSpace(s[0]) then TrimStart(s[1..]) else s
  }

  function TrimEnd(s: string): (r: string)
    ensures |r| <= |s| && r == s[..|r|]
    ensures r == [] || !IsWhiteSpace(r[|r| - 1])
  {
    if s != [] && IsWhiteSpace(s[|s| - 1]) then TrimEnd(s[..|s| - 1]) else s
  }

  /** `s.trim()`. */
  function Trim(s: string): (r: string)
    ensures |r| <= |s|
    ensures r == [] || (!IsWhiteSpace(r[0]) && !IsWhiteSpace(r[|r| - 1]))
  {
    var t := TrimStart(s);
    var r := TrimEnd(t);
    assert r != [] ==> r[0] == t[0];
    r
  }

  /** A string made only of white space trims to the empty string. */
  lemma {:induction false} TrimAllWhiteSpace(s: string)
    requires forall i :: 0 <= i < |s| ==> IsWhiteSpace(s[i])
    ensures Trim(s) == ""
  {
    if s != [] {
      TrimAllWhiteSpace(s[1..]);
    }
  }

  /** `s.split(c)` for a one-character separator: the pieces between separators, empty pieces
      included, so the result is never empty. */
  function Split(s: string, c: char): (r: seq<string>)
    ensures |r| >= 1
    ensures forall i :: 0 <= i < |r| ==> c !in r[i]
    ensures |r[0]| <= |s| && r[0] == s[..|r[0]|] && (|r[0]| < |s| ==> s[|r[0]|] == c)
  {
    if s == [] then [""]
    else
      var rest := Split(s[1..], c);
      if s[0] == c then [""] + rest else [[s[0]] + rest[0]] + rest[1..]
  }

  /** A string without the separator splits into itself alone. */
  lemma {:induction false} SplitNoSeparator(s: string, c: char)
    requires c !in s
    ensures Split(s, c) == [s]
  {
    if s != [] {
      SplitNoSeparator(s[1..], c);
      assert [s[0]] + s[1..] == s;
    }
  }

  /** Splitting at a separator splits each side independently. */
  lemma {:induction false} SplitAtSeparator(a: string, b: string, c: char)
    ensures Split(a + [c] + b, c) == Split(a, c) + Split(b, c)
  {
    if a == [] {
      assert a + [c] + b == [c] + b;
      assert ([c] + b)[1..] == b;
    } else {
      assert (a + [c] + b)[1..] == a[1..] + [c] + b;
      SplitAtSeparator(a[1..], b, c);
    }
  }

  /** `s.split(" ")[0]`: the text before the first space. */
  function FirstToken(s: string): (r: string)
    ensures ' ' !in r
    ensures |r| <= |s| && r == s[..|r|] && (|r| < |s| ==> s[|r|] == ' ')
  {
    Split(s, ' ')[0]
  }

  /** `s.split(c).pop()`: the text after the last separator. */
  function LastSegment(s: string, c: char): (r: string)
    ensures c !in r
  {
    var parts := Split(s, c);
    parts[|parts| - 1]
  }

  /** The last segment after a final separator is everything behind that separator. */
  lemma LastSegmentAfterSeparator(a: string, b: string, c: char)
    requires c !in b
    ensures LastSegment(a + [c] + b, c) == b
  {
    SplitAtSeparator(a, b, c);
    SplitNoSeparator(b, c);
  }

  /** `parts.map(part => part[0]).join("")`: the first character of every piece; an empty piece
      gives `undefined`, which `join` renders as nothing. */
  function Heads(parts: seq<string>): (r: string)
    ensures |r| <= |parts|
  {
    if parts == [] then ""
    else (if parts[0] == "" then "" else [parts[0][0]]) + Heads(parts[1..])
  }

  /** `name.split(" ").map(part => part[0]).join("").toUpperCase().substring(0, 2)`, the avatar
      initials computed in Users.tsx, Settings.tsx and project-card.tsx. */
  function Initials(name: string): (r: string)
    ensures |r| <= 2
    ensures forall i :: 0 <= i < |r| ==> !('a' <= r[i] <= 'z')
  {
    var u := Upper(Heads(Split(name, ' ')));
    if |u| <= 2 then u else u[..2]
  }

  /** "First Last" gives the two upper-cased first letters. */
  lemma InitialsOfTwoWords(first: string, last: string)
    requires first != "" && last != "" && ' ' !in first && ' ' !in last
    ensures Initials(first + " " + last) == [UpperChar(first[0]), UpperChar(last[0])]
  {
    SplitAtSeparator(first, last, ' ');
    SplitNoSeparator(first, ' ');
    SplitNoSeparator(last, ' ');
    assert first + " " + last == first + [' '] + last;
    assert Split(first + " " + last, ' ') == [first, last];
    assert Heads([first, last]) == [first[0], last[0]];
  }

  /** One word gives its upper-cased first letter. */
  lemma InitialsOfOneWord(word: string)
    requires word != "" && ' ' !in word
    ensures Initials(word) == [UpperChar(word[0])]
  {
    SplitNoSeparator(word, ' ');
    assert Heads([word]) == [word[0]];
  }

  predicate IsDigit(c: char)
  {
    '0' <= c <= '9'
  }

  function DigitChar(d: int): (c: char)
    requires 0 <= d < 10
    ensures IsDigit(c)
  {
    ('0' as int + d) as char
  }

  /** The decimal text of a natural number, as `String(n)` or `"" + n` writes it. */
  function NatToString(n: nat): (r: string)
    ensures r != []
    ensures forall i :: 0 <= i < |r| ==> IsDigit(r[i])
  {
    if n < 10 then [DigitChar(n)] else NatToString(n / 10) + [DigitChar(n % 10)]
  }

  /** The value of a string of decimal digits. */
  function DigitsValue(s: string): nat
    requires forall i :: 0 <= i < |s| ==> IsDigit(s[i])
  {
    if s == [] then 0
    else
      assert IsDigit(s[|s| - 1]);
      10 * DigitsValue(s[..|s| - 1]) + (s[|s| - 1] as int - '0' as int)
  }

  /** The longest prefix made of decimal digits. */
  function LeadingDigits(s: string): (r: string)
    ensures |r| <= |s| && r == s[..|r|]
    ensures forall i :: 0 <= i < |r| ==> IsDigit(r[i])
    ensures |r| < |s| ==> !IsDigit(s[|r|])
  {
    if s != [] && IsDigit(s[0]) then [s[0]] + LeadingDigits(s[1..]) else ""
  }

  /** Whether trimmed text starts with a minus sign. */
  predicate Negative(t: string)
  {
    t != [] && t[0] == '-'
  }

  /** Trimmed text without its sign, if any. */
  function Unsigned(t: string): (u: string)
    ensures |u| <= |t|
  {
    if t != [] && (t[0] == '-' || t[0] == '+') then t[1..] else t
  }

  /** `parseInt(s, 10)`: skips leading white space, reads an optional sign and then the longest run
      of decimal digits; `None` stands for `NaN` (no digit at all). */
  function ParseInt(s: string): (r: Option<int>)
  {
    var t := TrimStart(s);
    var d := LeadingDigits(Unsigned(t));
    if d == [] then None
    else
      var v: int := DigitsValue(d);
      Some(if Negative(t) then -v else v)
  }

  predicate IsHexDigit(c: char)
  {
    IsDigit(c) || 'a' <= c <= 'f' || 'A' <= c <= 'F'
  }

  function HexDigitValue(c: char): (v: nat)
    requires IsHexDigit(c)
    ensures v < 16
  {
    if IsDigit(c) then c as int - '0' as int
    else if 'a' <= c <= 'f' then c as int - 'a' as int + 10
    else c as int - 'A' as int + 10
  }

  /** The value of a string of hexadecimal digits. */
  function HexDigitsValue(s: string): nat
    requires forall i :: 0 <= i < |s| ==> IsHexDigit(s[i])
  {
    if s == [] then 0
    else 16 * HexDigitsValue(s[..|s| - 1]) + HexDigitValue(s[|s| - 1])
  }

  /** The longest prefix made of hexadecimal digits. */
  function LeadingHexDigits(s: string): (r: string)
    ensures |r| <= |s| && r == s[..|r|]
    ensures forall i :: 0 <= i < |r| ==> IsHexDigit(r[i])
    ensures |r| < |s| ==> !IsHexDigit(s[|r|])
  {
    if s != [] && IsHexDigit(s[0]) then [s[0]] + LeadingHexDigits(s[1..]) else ""
  }

  /** The "0x" or "0X" that makes a radix-less `parseInt` read base 16. */
  predicate HasHexPrefix(u: string)
  {
    |u| >= 2 && u[0] == '0' && (u[1] == 'x' || u[1] == 'X')
  }

  /** `parseInt(s)` without a radix: as `parseInt(s, 10)`, except that "0x" or "0X" after the
      sign switches to base 16, and then at least one hexadecimal digit must follow. */
  function ParseIntAuto(s: string): (r: Option<int>)
    ensures !HasHexPrefix(Unsigned(TrimStart(s))) ==> r == ParseInt(s)
    ensures HasHexPrefix(Unsigned(TrimStart(s))) ==>
      (r.None? <==> |Unsigned(TrimStart(s))| == 2 || !IsHexDigit(Unsigned(TrimStart(s))[2]))
  {
    var t := TrimStart(s);
    var u := Unsigned(t);
    if HasHexPrefix(u) then
      var d := LeadingHexDigits(u[2..]);
      if d == [] then None
      else
        var v: int := HexDigitsValue(d);
        Some(if Negative(t) then -v else v)
    else ParseInt(s)
  }

  lemma {:induction false} DigitsValueOfNat(n: nat)
    ensures DigitsValue(NatToString(n)) == n
  {
    if n >= 10 {
      DigitsValueOfNat(n / 10);
      var s := NatToString(n);
      assert s[..|s| - 1] == NatToString(n / 10);
    }
  }

  lemma {:induction false} LeadingDigitsOfDigits(s: string)
    requires forall i :: 0 <= i < |s| ==> IsDigit(s[i])
    ensures LeadingDigits(s) == s
  {
    if s != [] {
      LeadingDigitsOfDigits(s[1..]);
    }
  }

  /** A string that starts with a digit parses to the value of its leading digits. */
  lemma ParseIntOfLeadingDigit(s: string)
    requires s != [] && IsDigit(s[0])
    ensures ParseInt(s) == Some(DigitsValue(LeadingDigits(s)))
  {
    assert TrimStart(s) == s;
    assert !Negative(s) && Unsigned(s) == s;
    assert LeadingDigits(s) != [];
  }

  /** Round trip: `parseInt(String(n), 10) === n` for every natural number. */
  lemma ParseIntOfNatToString(n: nat)
    ensures ParseInt(NatToString(n)) == Some(n)
  {
    var s := NatToString(n);
    assert IsDigit(s[0]);
    ParseIntOfLeadingDigit(s);
    LeadingDigitsOfDigits(s);
    DigitsValueOfNat(n);
  }

  /** Decimal text never carries the hexadecimal prefix, so a radix-less `parseInt` also reads
      `String(n)` back as `n`. */
  lemma ParseIntAutoOfNatToString(n: nat)
    ensures ParseIntAuto(NatToString(n)) == Some(n)
  {
    var s := NatToString(n);
    ParseIntOfNatToString(n);
    assert IsDigit(s[0]);
    assert TrimStart(s) == s;
    assert !HasHexPrefix(s) by {
      if |s| >= 2 {
        assert IsDigit(s[1]);
      }
    }
  }

  /** Where the two readings part: a radix-less `parseInt` takes "0x1a" as 26, while
      `parseInt(s, 10)` stops at the "x" and gives 0. */
  lemma ParseIntAutoReadsHex()
    ensures ParseIntAuto("0x1a") == Some(26)
    ensures ParseInt("0x1a") == Some(0)
  {
    assert TrimStart("0x1a") == "0x1a";
    assert Unsigned("0x1a") == "0x1a";
    assert "0x1a"[2..] == "1a";
    assert LeadingHexDigits("1a") == "1a" by {
      assert LeadingHexDigits("a") == "a" by {
        assert "a"[1..] == "";
      }
      assert "1a"[1..] == "a";
    }
    assert "1a"[..1] == "1";
    assert HexDigitsValue("1a") == 26;
    assert LeadingDigits("0x1a") == "0" by {
      assert "0x1a"[1..] == "x1a";
    }
  }

  /** Different numbers print differently. */
  lemma NatToStringInjective(m: nat, n: nat)
    requires NatToString(m) == NatToString(n)
    ensures m == n
  {
    ParseIntOfNatToString(m);
    ParseIntOfNatToString(n);
  }
}
