/**
 The textual port-pool specification, such as "9000-9010,9020".
 */
module PortSpec {
  import opened Basics
  import opened Text

  datatype SpecError = BadStart | BadEnd | Reversed(start: Port, end: Port) | BadPort

  /** The text before and after the first separator. */
  function Cut(s: string, sep: char): (cut: (string, string))
    requires sep in s
    ensures s == cut.0 + [sep] + cut.1 && sep !in cut.0
  {
    if s[0] == sep then ("", s[1..])
    else
      var rest := Cut(s[1..], sep);
      ([s[0]] + rest.0, rest.1)
  }

  function Expand(start: Port, end: Port): (ports: seq<Port>)
    requires start <= end
    ensures |ports| == end - start + 1 && forall i :: 0 <= i < |ports| ==> ports[i] == start + i
  {
    seq(end - start + 1, i requires 0 <= i <= end - start => start + i)
  }

  /** One comma-separated part. */
  function ParsePart(raw: string): (r: Result<seq<Port>, SpecError>)
    ensures r.Ok? ==> r.value != []
  {
    var part := Trim(raw);
    if '-' in part then
      var (left, right) := Cut(part, '-');
      match ParseU16(Trim(left))
      case None => Err(BadStart)
      case Some(start) =>
        match ParseU16(Trim(right))
        case None => Err(BadEnd)
        case Some(end) => if start > end then Err(Reversed(start, end)) else Ok(Expand(start, end))
    else
      match ParseU16(part)
      case None => Err(BadPort)
      case Some(p) => Ok([p])
  }

  /** Ports already read, in front of what is still to be read. */
  function Prepend(ports: seq<Port>, r: Result<seq<Port>, SpecError>): Result<seq<Port>, SpecError> {
    match r
    case Err(e) => Err(e)
    case Ok(more) => Ok(ports + more)
  }

  lemma PrependNothing(r: Result<seq<Port>, SpecError>)
    ensures Prepend([], r) == r
  {
    if r.Ok? {
      assert [] + r.value == r.value;
    }
  }

  lemma PrependTwice(a: seq<Port>, b: seq<Port>, r: Result<seq<Port>, SpecError>)
    ensures Prepend(a, Prepend(b, r)) == Prepend(a + b, r)
  {
    if r.Ok? {
      assert a + (b + r.value) == (a + b) + r.value;
    }
  }

  /** All parts in order; the first error wins. */
  function ParseParts(parts: seq<string>): (r: Result<seq<Port>, SpecError>)
    ensures r.Ok? && parts != [] ==> r.value != []
    ensures r.Ok? <==> forall i :: 0 <= i < |parts| ==> ParsePart(parts[i]).Ok?
  {
    if parts == [] then Ok([])
    else
      match ParsePart(parts[0])
      case Err(e) => Err(e)
      case Ok(ports) => Prepend(ports, ParseParts(parts[1..]))
  }

  /** Appends the ports of a range, one after the other. */
  method PushRange(start: Port, end: Port, ports: seq<Port>) returns (pushed: seq<Port>)
    requires start <= end
    ensures pushed == ports + Expand(start, end)
  {
    pushed := ports;
    for p := start to end + 1
      invariant pushed == ports + Expand(start, end)[..p - start]
    {
      pushed := pushed + [p];
    }
  }

  /** Appends the ports of one part, or reports what is wrong with it. */
  method PushPart(raw: string, ports: seq<Port>) returns (r: Result<seq<Port>, SpecError>)
    ensures r == Prepend(ports, ParsePart(raw))
  {
    var part := Trim(raw);
    if '-' in part {
      var cut := Cut(part, '-');
      var start := ParseU16(Trim(cut.0));
      if start.None? {
        return Err(BadStart);
      }
      var end := ParseU16(Trim(cut.1));
      if end.None? {
        return Err(BadEnd);
      }
      if start.value > end.value {
        return Err(Reversed(start.value, end.value));
      }
      var pushed := PushRange(start.value, end.value, ports);
      return Ok(pushed);
    }
    var port := ParseU16(part);
    if port.None? {
      return Err(BadPort);
    }
    r := Ok(ports + [port.value]);
  }

  lemma ParseNext(parts: seq<string>, k: nat, ports: seq<Port>)
    requires k < |parts|
    ensures Prepend(ports, ParseParts(parts[k..])) ==
      match Prepend(ports, ParsePart(parts[k]))
      case Err(e) => Err(e)
      case Ok(more) => Prepend(more, ParseParts(parts[k + 1..]))
  {
    assert parts[k..][1..] == parts[k + 1..];
    if ParsePart(parts[k]).Ok? {
      PrependTwice(ports, ParsePart(parts[k]).value, ParseParts(parts[k + 1..]));
    }
  }

  lemma ParseStart(parts: seq<string>)
    ensures ParseParts(parts) == Prepend([], ParseParts(parts[0..]))
  {
    assert parts[0..] == parts;
    PrependNothing(ParseParts(parts));
  }

  lemma ParseDone(parts: seq<string>, ports: seq<Port>)
    ensures Prepend(ports, ParseParts(parts[|parts|..])) == Ok(ports)
  {
    assert parts[|parts|..] == [] && ports + [] == ports;
  }

  /** Part after part, giving up at the first error. */
  method ParseList(parts: seq<string>) returns (r: Result<seq<Port>, SpecError>)
    ensures r == ParseParts(parts)
  {
    var ports: seq<Port> := [];
    ParseStart(parts);
    for k := 0 to |parts|
      invariant ParseParts(parts) == Prepend(ports, ParseParts(parts[k..]))
    {
      ParseNext(parts, k, ports);
      var next := PushPart(parts[k], ports);
      if next.Err? {
        return next;
      }
      ports := next.value;
    }
    ParseDone(parts, ports);
    r := Ok(ports);
  }

  /** The parser as the server runs it. */
  method ParsePortRange(spec: string) returns (r: Result<seq<Port>, SpecError>)
    ensures r == ParseParts(Split(spec, ','))
    ensures r.Ok? ==> r.value != []
  {
    r := ParseList(Split(spec, ','));
  }

  // ---- Printing ----

  datatype Item = Single(port: Port) | Range(start: Port, end: Port)

  predicate WellFormed(item: Item) {
    item.Range? ==> item.start <= item.end
  }

  function Ports(item: Item): seq<Port>
    requires WellFormed(item)
  {
    match item
    case Single(p) => [p]
    case Range(a, b) => Expand(a, b)
  }

  function PrintItem(item: Item): string {
    match item
    case Single(p) => Decimal(p)
    case Range(a, b) => Decimal(a) + "-" + Decimal(b)
  }

  function Print(items: seq<Item>): string
    requires items != []
  {
    Join(seq(|items|, i requires 0 <= i < |items| => PrintItem(items[i])), ',')
  }

  function AllPorts(items: seq<Item>): seq<Port>
    requires forall i :: 0 <= i < |items| ==> WellFormed(items[i])
  {
    if items == [] then [] else Ports(items[0]) + AllPorts(items[1..])
  }

  /** Digits and the dash are neither separators nor white space. */
  lemma PlainText(item: Item)
    ensures ',' !in PrintItem(item) && PrintItem(item) != ""
    ensures Trim(PrintItem(item)) == PrintItem(item)
  {
    var s := PrintItem(item);
    assert forall i :: 0 <= i < |s| ==> IsDigit(s[i]) || s[i] == '-';
    assert TrimStart(s) == s && TrimEnd(s) == s;
  }

  lemma TrimDigits(s: string)
    requires AllDigits(s)
    ensures Trim(s) == s && '-' !in s
  {
  }

  lemma {:induction false} CutAt(a: string, sep: char, b: string)
    requires sep !in a
    ensures Cut(a + [sep] + b, sep) == (a, b)
    decreases |a|
  {
    var s := a + [sep] + b;
    if a != "" {
      CutAt(a[1..], sep, b);
      assert s[1..] == a[1..] + [sep] + b;
      assert a[0] in a && [a[0]] + a[1..] == a;
    }
  }

  /** A printed item is spelled without any white space. */
  lemma ParseItem(item: Item)
    requires WellFormed(item)
    ensures ParsePart(PrintItem(item)) == Ok(Ports(item))
  {
    match item
    case Single(p) =>
      PaddedPort("", p, "");
      NoPadding(Decimal(p), "");
    case Range(a, b) =>
      PaddedRange("", a, "", "", b, "");
      NoPadding(Decimal(a), Decimal(b));
  }

  lemma NoPadding(x: string, y: string)
    ensures "" + x + "" == x
    ensures "" + (x + "") + "-" + ("" + y) + "" == x + "-" + y
  {
  }

  lemma {:induction false} ParseItems(items: seq<Item>, parts: seq<string>)
    requires forall i :: 0 <= i < |items| ==> WellFormed(items[i])
    requires |parts| == |items| && forall i :: 0 <= i < |items| ==> ParsePart(parts[i]) == Ok(Ports(items[i]))
    ensures ParseParts(parts) == Ok(AllPorts(items))
    decreases |items|
  {
    if items != [] {
      ParseItems(items[1..], parts[1..]);
    }
  }

  /** Parsing inverts printing: every nonempty list of ports and ranges, printed, parses back
      to exactly its ports in order. */
  lemma ParseInvertsPrint(items: seq<Item>)
    requires items != [] && forall i :: 0 <= i < |items| ==> WellFormed(items[i])
    ensures ParseParts(Split(Print(items), ',')) == Ok(AllPorts(items))
  {
    var parts := seq(|items|, i requires 0 <= i < |items| => PrintItem(items[i]));
    forall i | 0 <= i < |parts| ensures ',' !in parts[i] && ParsePart(parts[i]) == Ok(Ports(items[i])) {
      PlainText(items[i]);
      ParseItem(items[i]);
    }
    SplitJoin(parts, ',');
    ParseItems(items, parts);
  }

  // ---- White space and errors ----

  lemma DecimalIsTight(n: nat)
    ensures Tight(Decimal(n)) && '-' !in Decimal(n) && ',' !in Decimal(n)
  {
    TrimDigits(Decimal(n));
    assert IsDigit(Decimal(n)[0]) && IsDigit(Decimal(n)[|Decimal(n)| - 1]);
  }

  /** A number with white space around it is one port, or refused if it has more than 16 bits. */
  lemma PaddedPort(a: string, n: nat, b: string)
    requires AllSpace(a) && AllSpace(b)
    ensures ParsePart(a + Decimal(n) + b) == if n <= 0xFFFF then Ok([n]) else Err(BadPort)
  {
    DecimalIsTight(n);
    TrimStrips(a, Decimal(n), b);
    ParseDecimal(n);
  }

  /** What the two numbers of a range come to. */
  function RangeOf(start: Option<Port>, end: Option<Port>): Result<seq<Port>, SpecError> {
    if start.None? then Err(BadStart) else if end.None? then Err(BadEnd)
    else if start.value > end.value then Err(Reversed(start.value, end.value)) else Ok(Expand(start.value, end.value))
  }

  /** The first dash of a part separates its two numbers. */
  lemma RangeText(raw: string, left: string, right: string)
    requires Trim(raw) == left + ['-'] + right && '-' !in left
    ensures ParsePart(raw) == RangeOf(ParseU16(Trim(left)), ParseU16(Trim(right)))
  {
    assert Trim(raw)[|left|] == '-';
    CutAt(left, '-', right);
  }

  lemma PaddedRangeTrims(a: string, left: string, right: string, b: string)
    requires AllSpace(a) && AllSpace(b) && left != "" && right != "" && !IsSpace(left[0]) && !IsSpace(right[|right| - 1])
    ensures Trim(a + left + "-" + right + b) == left + ['-'] + right
  {
    var s := left + ['-'] + right;
    assert a + left + "-" + right + b == a + s + b;
    assert s[0] == left[0] && s[|s| - 1] == right[|right| - 1];
    TrimStrips(a, s, b);
  }

  lemma PaddedLeft(x: string, c: string)
    requires Tight(x) && x != "" && '-' !in x && AllSpace(c)
    ensures Trim(x + c) == x && '-' !in x + c && x + c != "" && !IsSpace((x + c)[0])
  {
    TrimStrips("", x, c);
    assert "" + x + c == x + c;
    assert !IsSpace('-');
  }

  lemma PaddedRight(d: string, y: string)
    requires Tight(y) && y != "" && AllSpace(d)
    ensures Trim(d + y) == y && d + y != "" && !IsSpace((d + y)[|d + y| - 1])
  {
    TrimStrips(d, y, "");
    assert d + y + "" == d + y;
  }

  lemma PaddedRangeText(a: string, x: string, c: string, d: string, y: string, b: string)
    requires AllSpace(a) && AllSpace(b) && AllSpace(c) && AllSpace(d)
    requires Tight(x) && Tight(y) && x != "" && y != "" && '-' !in x
    ensures ParsePart(a + (x + c) + "-" + (d + y) + b) == RangeOf(ParseU16(x), ParseU16(y))
  {
    PaddedLeft(x, c);
    PaddedRight(d, y);
    PaddedRangeTrims(a, x + c, d + y, b);
    RangeText(a + (x + c) + "-" + (d + y) + b, x + c, d + y);
  }

  /** A range may have white space around itself and around both numbers.  It is refused for its start
      first, then for its end, then for running backwards. */
  lemma PaddedRange(a: string, x: nat, c: string, d: string, y: nat, b: string)
    requires AllSpace(a) && AllSpace(b) && AllSpace(c) && AllSpace(d)
    ensures ParsePart(a + (Decimal(x) + c) + "-" + (d + Decimal(y)) + b) ==
      if x > 0xFFFF then Err(BadStart) else if y > 0xFFFF then Err(BadEnd)
      else if x > y then Err(Reversed(x, y)) else Ok(Expand(x, y))
  {
    DecimalIsTight(x);
    DecimalIsTight(y);
    PaddedRangeText(a, Decimal(x), c, d, Decimal(y), b);
    ParseDecimal(x);
    ParseDecimal(y);
  }

  /** The text is the item with white space around it and around its numbers. */
  ghost predicate Spells(text: string, item: Item) {
    match item
    case Single(p) => exists a, b :: AllSpace(a) && AllSpace(b) && text == a + Decimal(p) + b
    case Range(x, y) =>
      exists a, b, c, d :: AllSpace(a) && AllSpace(b) && AllSpace(c) && AllSpace(d)
                           && text == a + (Decimal(x) + c) + "-" + (d + Decimal(y)) + b
  }

  lemma SpelledItem(text: string, item: Item)
    requires WellFormed(item) && Spells(text, item)
    ensures ParsePart(text) == Ok(Ports(item))
  {
    match item
    case Single(p) =>
      var a, b :| AllSpace(a) && AllSpace(b) && text == a + Decimal(p) + b;
      PaddedPort(a, p, b);
    case Range(x, y) =>
      var a, b, c, d :| AllSpace(a) && AllSpace(b) && AllSpace(c) && AllSpace(d)
                        && text == a + (Decimal(x) + c) + "-" + (d + Decimal(y)) + b;
      PaddedRange(a, x, c, d, y, b);
  }

  /** A specification with white space anywhere between its numbers, dashes and commas parses to the
      ports of its items. */
  lemma SpelledSpec(items: seq<Item>, parts: seq<string>)
    requires items != [] && |parts| == |items|
    requires forall i :: 0 <= i < |items| ==> WellFormed(items[i]) && Spells(parts[i], items[i]) && ',' !in parts[i]
    ensures ParseParts(Split(Join(parts, ','), ',')) == Ok(AllPorts(items))
  {
    forall i | 0 <= i < |items| ensures ParsePart(parts[i]) == Ok(Ports(items[i])) {
      SpelledItem(parts[i], items[i]);
    }
    SplitJoin(parts, ',');
    ParseItems(items, parts);
  }

  /** A part that is not a number, blank ones included, is refused. */
  lemma BadPartIsRefused(a: string, s: string, b: string)
    requires AllSpace(a) && AllSpace(b) && Tight(s) && '-' !in s
    requires s == "" || s == "+" || exists i :: 0 <= i < |s| && !IsDigit(s[i]) && !(i == 0 && s[0] == '+')
    ensures ParsePart(a + s + b) == Err(BadPort)
  {
    TrimStrips(a, s, b);
    NotANumber(s);
  }

  /** The first bad part gives the error. */
  lemma {:induction false} FirstErrorWins(parts: seq<string>, k: nat)
    requires k < |parts| && ParsePart(parts[k]).Err? && forall i :: 0 <= i < k ==> ParsePart(parts[i]).Ok?
    ensures ParseParts(parts) == Err(ParsePart(parts[k]).error)
  {
    if k > 0 {
      FirstErrorWins(parts[1..], k - 1);
    }
  }

  lemma PartIsItem(raw: string) returns (item: Item)
    requires ParsePart(raw).Ok?
    ensures WellFormed(item) && Ports(item) == ParsePart(raw).value
  {
    var part := Trim(raw);
    if '-' in part {
      var cut := Cut(part, '-');
      item := Range(ParseU16(Trim(cut.0)).value, ParseU16(Trim(cut.1)).value);
    } else {
      item := Single(ParseU16(part).value);
    }
  }

  lemma {:induction false} PartsAreItems(parts: seq<string>) returns (items: seq<Item>)
    requires ParseParts(parts).Ok?
    ensures |items| == |parts| && (forall i :: 0 <= i < |items| ==> WellFormed(items[i]))
    ensures AllPorts(items) == ParseParts(parts).value
    decreases |parts|
  {
    items := [];
    if parts != [] {
      var first := PartIsItem(parts[0]);
      var rest := PartsAreItems(parts[1..]);
      items := [first] + rest;
      assert items[1..] == rest;
    }
  }

  /** Every text that parses says the same as some printed list of ports and ranges, with one item
      for each of its parts. */
  lemma EveryParseIsAPrint(spec: string) returns (items: seq<Item>)
    requires ParseParts(Split(spec, ',')).Ok?
    ensures |items| == |Split(spec, ',')| && forall i :: 0 <= i < |items| ==> WellFormed(items[i])
    ensures ParseParts(Split(Print(items), ',')) == ParseParts(Split(spec, ','))
  {
    items := PartsAreItems(Split(spec, ','));
    ParseInvertsPrint(items);
  }
}
