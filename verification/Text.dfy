/**
 The string operations the parsers lean on: splitting, trimming and decimal numbers,
 with the behaviour of Rust's `str::split`, `str::trim` and `u16::from_str`.
 */
module Text {
  import opened Basics

  /** The pieces of `s` between separators; there is always at least one. */
  function Split(s: string, sep: char): (pieces: seq<string>)
    ensures |pieces| >= 1
    ensures forall i :: 0 <= i < |pieces| ==> sep !in pieces[i]
    ensures Join(pieces, sep) == s
  {
    if s == "" then [""]
    else
      var rest := Split(s[1..], sep);
      if s[0] == sep then
        assert Join([""] + rest, sep) == [sep] + Join(rest, sep);
        [""] + rest
      else
        assert Join([[s[0]] + rest[0]] + rest[1..], sep) == [s[0]] + Join(rest, sep);
        [[s[0]] + rest[0]] + rest[1..]
  }

  function Join(pieces: seq<string>, sep: char): string
    requires pieces != []
  {
    if |pieces| == 1 then pieces[0] else pieces[0] + [sep] + Join(pieces[1..], sep)
  }

  /** Splitting undoes joining, for pieces free of the separator. */
  lemma {:induction false} SplitJoin(pieces: seq<string>, sep: char)
    requires pieces != [] && forall i :: 0 <= i < |pieces| ==> sep !in pieces[i]
    ensures Split(Join(pieces, sep), sep) == pieces
    decreases |pieces|
  {
    if |pieces| == 1 {
      SplitPlain(pieces[0], "", sep);
      assert pieces[0] + "" == pieces[0];
      assert Split("", sep) == [""];
      assert pieces == [pieces[0] + ""] + [];
    } else {
      var rest := Join(pieces[1..], sep);
      SplitJoin(pieces[1..], sep);
      SplitPlain(pieces[0], [sep] + rest, sep);
      assert pieces[0] + ([sep] + rest) == Join(pieces, sep);
      assert ([sep] + rest)[1..] == rest;
      assert Split([sep] + rest, sep) == [""] + pieces[1..];
      assert ([""] + pieces[1..])[1..] == pieces[1..] && pieces[0] + "" == pieces[0];
      assert pieces == [pieces[0]] + pieces[1..];
    }
  }

  lemma SplitCons(c: char, rest: string, sep: char)
    requires c != sep
    ensures Split([c] + rest, sep) == [[c] + Split(rest, sep)[0]] + Split(rest, sep)[1..]
  {
    assert ([c] + rest)[1..] == rest;
  }

  /** Separator-free text in front of `tail` joins the first piece of `tail`. */
  lemma {:induction false} SplitPlain(head: string, tail: string, sep: char)
    requires sep !in head
    ensures Split(head + tail, sep) == [head + Split(tail, sep)[0]] + Split(tail, sep)[1..]
    decreases |head|
  {
    var pieces := Split(tail, sep);
    if head == "" {
      assert head + tail == tail && "" + pieces[0] == pieces[0];
    } else {
      SplitPlain(head[1..], tail, sep);
      assert head[0] in head;
      SplitCons(head[0], head[1..] + tail, sep);
      assert [head[0]] + (head[1..] + tail) == head + tail;
      assert [head[0]] + (head[1..] + pieces[0]) == head + pieces[0];
    }
  }

  /** Unicode White_Space, as `trim` sees it. */
  predicate IsSpace(c: char) {
    || 0x09 as char <= c <= 0x0D as char || c == ' '
    || c == 0x85 as char || c == 0xA0 as char || c == 0x1680 as char
    || 0x2000 as char <= c <= 0x200A as char
    || c == 0x2028 as char || c == 0x2029 as char || c == 0x202F as char
    || c == 0x205F as char || c == 0x3000 as char
  }

  function TrimStart(s: string): string {
    if s != "" && IsSpace(s[0]) then TrimStart(s[1..]) else s
  }

  function TrimEnd(s: string): string {
    if s != "" && IsSpace(s[|s| - 1]) then TrimEnd(s[..|s| - 1]) else s
  }

  function Trim(s: string): string {
    TrimEnd(TrimStart(s))
  }

  predicate AllSpace(s: string) {
    forall i :: 0 <= i < |s| ==> IsSpace(s[i])
  }

  /** Neither end is white space. */
  predicate Tight(s: string) {
    s != "" ==> !IsSpace(s[0]) && !IsSpace(s[|s| - 1])
  }

  /** Among the ASCII characters, tab to carriage return and the blank are white space. */
  lemma AsciiSpaceIff(c: char)
    requires c < 0x80 as char
    ensures IsSpace(c) <==> c as int in {9, 10, 11, 12, 13, 32}
  {
  }

  lemma {:induction false} TrimStartStrips(a: string, s: string)
    requires AllSpace(a) && (s != "" ==> !IsSpace(s[0]))
    ensures TrimStart(a + s) == s
    decreases |a|
  {
    if a == "" {
      assert a + s == s;
    } else {
      TrimStartStrips(a[1..], s);
      assert (a + s)[1..] == a[1..] + s && IsSpace((a + s)[0]);
    }
  }

  lemma {:induction false} TrimEndStrips(s: string, b: string)
    requires AllSpace(b) && (s != "" ==> !IsSpace(s[|s| - 1]))
    ensures TrimEnd(s + b) == s
    decreases |b|
  {
    if b == "" {
      assert s + b == s;
    } else {
      TrimEndStrips(s, b[..|b| - 1]);
      var t := s + b;
      assert t[..|t| - 1] == s + b[..|b| - 1] && t[|t| - 1] == b[|b| - 1];
    }
  }

  /** Trimming takes away exactly the white space at both ends. */
  lemma TrimStrips(a: string, s: string, b: string)
    requires AllSpace(a) && AllSpace(b) && Tight(s)
    ensures Trim(a + s + b) == s
  {
    if s == "" {
      var blank := a + s + b;
      assert AllSpace(blank) && blank == blank + "";
      TrimStartStrips(blank, "");
    } else {
      assert a + s + b == a + (s + b);
      TrimStartStrips(a, s + b);
      TrimEndStrips(s, b);
    }
  }

  // ---- Numbers ----

  predicate IsDigit(c: char) {
    '0' <= c <= '9'
  }

  predicate AllDigits(s: string) {
    forall i :: 0 <= i < |s| ==> IsDigit(s[i])
  }

  /** The number a digit string denotes. */
  function Value(s: string): nat
    requires AllDigits(s)
  {
    if s == "" then 0 else 10 * Value(s[..|s| - 1]) + (s[|s| - 1] as int - '0' as int)
  }

  /** A 16-bit unsigned number: an optional plus sign and at least one digit. */
  function ParseU16(s: string): Option<Port> {
    var digits := if |s| > 1 && s[0] == '+' then s[1..] else s;
    if digits == "" || !AllDigits(digits) || Value(digits) > 0xFFFF then None else Some(Value(digits))
  }

  function Decimal(n: nat): (s: string)
    ensures s != "" && AllDigits(s) && Value(s) == n
  {
    if n < 10 then
      var s := [('0' as int + n) as char];
      assert s[..0] == "";
      s
    else
      var init := Decimal(n / 10);
      var s := init + [('0' as int + n % 10) as char];
      assert s[..|s| - 1] == init;
      s
  }

  /** Numbers are printed in base ten, the highest digit first. */
  lemma DecimalIsBaseTen(n: nat, d: nat)
    requires d < 10
    ensures Decimal(d) == [('0' as int + d) as char]
    ensures n > 0 ==> Decimal(10 * n + d) == Decimal(n) + [('0' as int + d) as char]
  {
    var m := 10 * n + d;
    assert m / 10 == n && m % 10 == d;
    if n > 0 {
      assert m >= 10;
      assert Decimal(m) == Decimal(m / 10) + [('0' as int + m % 10) as char];
    }
  }

  /** Text without digits, or with any other character than digits after an optional plus sign, is not
      a number. */
  lemma NotANumber(s: string)
    requires s == "" || s == "+" || exists i :: 0 <= i < |s| && !IsDigit(s[i]) && !(i == 0 && s[0] == '+')
    ensures ParseU16(s) == None
  {
    if i :| 0 <= i < |s| && !IsDigit(s[i]) && !(i == 0 && s[0] == '+') {
      var digits := if |s| > 1 && s[0] == '+' then s[1..] else s;
      assert if |s| > 1 && s[0] == '+' then digits[i - 1] == s[i] else digits[i] == s[i];
    }
  }

  /** A plus sign and leading zeros change nothing. */
  lemma SignAndZeros(n: nat)
    ensures ParseU16("+" + Decimal(n)) == ParseU16(Decimal(n)) == ParseU16("0" + Decimal(n))
  {
    var s := Decimal(n);
    assert IsDigit(s[0]);
    assert ("+" + s)[1..] == s;
    ZeroInFront(s);
  }

  lemma {:induction false} ZeroInFront(s: string)
    requires AllDigits(s)
    ensures AllDigits("0" + s) && Value("0" + s) == Value(s)
  {
    var t := "0" + s;
    if s != "" {
      ZeroInFront(s[..|s| - 1]);
      assert t[..|t| - 1] == "0" + s[..|s| - 1] && t[|t| - 1] == s[|s| - 1];
    } else {
      assert t[..|t| - 1] == "" && Value("") == 0;
    }
  }

  lemma ParseDecimal(n: nat)
    ensures ParseU16(Decimal(n)) == if n <= 0xFFFF then Some(n) else None
  {
  }
}
