/** Range headers, and cutting a range out of unevenly sized chunks. */
module Ranges {
  import opened Splitting

  // ------------------------------------------------------------------ the header

  /** An absolute range, inclusive on both ends. */
  datatype Parsed = Range(start: int, end: int) | Unsatisfiable | Ignorable

  datatype Int = Value(n: int) | NotANumber

  const MAX_INT64: int := 0x7FFF_FFFF_FFFF_FFFF

  /** Unicode white space, which TrimSpace strips. */
  predicate IsSpace(c: char) {
    || c in {' ', '\t', '\n', '\r'}
    || c as int in {0x0B, 0x0C, 0x85, 0xA0, 0x1680, 0x2028, 0x2029, 0x202F, 0x205F, 0x3000}
    || 0x2000 <= c as int <= 0x200A
  }

  /** The code points with the Unicode property White_Space, as ranges. */
  const WHITE_SPACE: seq<(int, int)> :=
    [(0x9, 0xD), (0x20, 0x20), (0x85, 0x85), (0xA0, 0xA0), (0x1680, 0x1680), (0x2000, 0x200A), (0x2028, 0x2029),
     (0x202F, 0x202F), (0x205F, 0x205F), (0x3000, 0x3000)]

  lemma SpaceMeans(c: char)
    ensures IsSpace(c) <==> exists i :: 0 <= i < |WHITE_SPACE| && WHITE_SPACE[i].0 <= c as int <= WHITE_SPACE[i].1
  {
    if IsSpace(c) {
      var x := c as int;
      var i :=
        if x <= 0xD then 0 else if x == 0x20 then 1 else if x == 0x85 then 2 else if x == 0xA0 then 3
        else if x == 0x1680 then 4 else if x <= 0x200A then 5 else if x <= 0x2029 then 6
        else if x == 0x202F then 7 else if x == 0x205F then 8 else 9;
      assert WHITE_SPACE[i].0 <= x <= WHITE_SPACE[i].1;
    }
  }

  function TrimStart(s: string): string {
    if s != [] && IsSpace(s[0]) then TrimStart(s[1..]) else s
  }

  function TrimEnd(s: string): string {
    if s != [] && IsSpace(s[|s| - 1]) then TrimEnd(s[..|s| - 1]) else s
  }

  function TrimSpace(s: string): string {
    TrimEnd(TrimStart(s))
  }

  predicate IsDigit(c: char) {
    '0' <= c <= '9'
  }

  predicate AllDigits(s: string) {
    forall i | 0 <= i < |s| :: IsDigit(s[i])
  }

  function Decimal(s: string): nat
    requires AllDigits(s)
  {
    if s == [] then 0 else Decimal(s[..|s| - 1]) * 10 + (s[|s| - 1] as int - '0' as int)
  }

  /** strconv.ParseInt(s, 10, 64): an optional sign, then digits, within 64 bits. */
  function ParseInt(s: string): Int {
    var sign, digits := if s != [] && s[0] == '-' then -1 else 1, if s != [] && s[0] in {'+', '-'} then s[1..] else s;
    if digits == [] || !AllDigits(digits) then NotANumber
    else
      var n := sign * Decimal(digits);
      if -MAX_INT64 - 1 <= n <= MAX_INT64 then Value(n) else NotANumber
  }

  function IndexOfDash(s: string, i: nat): int
    requires i <= |s|
    decreases |s| - i
    ensures var k := IndexOfDash(s, i); k == -1 || (i <= k < |s| && s[k] == '-')
    ensures var k := IndexOfDash(s, i); forall j | i <= j < (if k == -1 then |s| else k) :: s[j] != '-'
  {
    if i == |s| then -1 else if s[i] == '-' then i else IndexOfDash(s, i + 1)
  }

  function Suffix(n: int, size: nat): Parsed
    requires size > 0
  {
    if n <= 0 then Ignorable else Range(if n > size then 0 else size - n, size - 1)
  }

  function Resolve(start: int, end: int, size: nat): Parsed {
    if start < 0 || end < start then Ignorable
    else if start >= size then Unsatisfiable
    else Range(start, if end >= size then size - 1 else end)
  }

  function ParseSpec(from: string, to: string, size: nat): Parsed
    requires size > 0
  {
    if from == [] then
      match ParseInt(to)
      case NotANumber => Ignorable
      case Value(n) => Suffix(n, size)
    else if to == [] then
      match ParseInt(from)
      case NotANumber => Ignorable
      case Value(start) =>
        if start < 0 then Ignorable else if start >= size then Unsatisfiable else Range(start, size - 1)
    else
      match (ParseInt(from), ParseInt(to))
      case (Value(start), Value(end)) => Resolve(start, end, size)
      case _ => Ignorable
  }

  const PREFIX := "bytes="

  function ParseRange(header: string, size: nat): Parsed {
    if !(PREFIX <= header) then Ignorable
    else
      var spec := TrimSpace(header[|PREFIX|..]);
      if spec == [] || ',' in spec then Ignorable
      else
        var dash := IndexOfDash(spec, 0);
        if dash < 0 then Ignorable
        else if size == 0 then Unsatisfiable
        else ParseSpec(TrimSpace(spec[..dash]), TrimSpace(spec[dash + 1..]), size)
  }

  /** A resolved range always lies inside the object. */
  lemma ParseInBounds(header: string, size: nat)
    ensures ParseRange(header, size).Range? ==>
      0 <= ParseRange(header, size).start <= ParseRange(header, size).end < size
  {
  }

  // ------------------------------------------------------------------- round trips

  /** The decimal digits of a number. */
  function Digits(n: nat): (s: string)
    ensures s != [] && AllDigits(s)
  {
    if n < 10 then [('0' as int + n) as char] else Digits(n / 10) + [('0' as int + n % 10) as char]
  }

  lemma {:induction false} DigitsDecimal(n: nat)
    ensures Decimal(Digits(n)) == n
    decreases n
  {
    var s := Digits(n);
    if n < 10 {
      assert s[..|s| - 1] == [];
    } else {
      DigitsDecimal(n / 10);
      assert s[..|s| - 1] == Digits(n / 10);
    }
  }

  lemma TrimDigits(s: string)
    requires s == [] || (!IsSpace(s[0]) && !IsSpace(s[|s| - 1]))
    ensures TrimSpace(s) == s
  {
  }

  /** The header a client sends for bytes a..b. */
  function Format(from: string, to: string): string {
    PREFIX + from + "-" + to
  }

  lemma {:induction false} DashAt(s: string, i: nat, k: nat)
    requires i <= k < |s| && s[k] == '-' && forall j | i <= j < k :: s[j] != '-'
    ensures IndexOfDash(s, i) == k
    decreases k - i
  {
    if i < k {
      DashAt(s, i + 1, k);
    }
  }

  lemma SpecSplits(from: string, to: string)
    requires AllDigits(from) && AllDigits(to)
    ensures var spec := from + "-" + to;
      && TrimSpace(spec) == spec && ',' !in spec
      && IndexOfDash(spec, 0) == |from| && spec[..|from|] == from && spec[|from| + 1..] == to
  {
    var spec := from + "-" + to;
    assert forall i | 0 <= i < |spec| :: IsDigit(spec[i]) || spec[i] == '-';
    TrimDigits(spec);
    DashAt(spec, 0, |from|);
  }

  lemma FormatParses(from: string, to: string, size: nat)
    requires AllDigits(from) && AllDigits(to)
    ensures ParseRange(Format(from, to), size) == if size == 0 then Unsatisfiable else ParseSpec(from, to, size)
  {
    var header, spec := Format(from, to), from + "-" + to;
    assert header == PREFIX + spec;
    assert header[|PREFIX|..] == spec && PREFIX <= header;
    SpecSplits(from, to);
    TrimDigits(from);
    TrimDigits(to);
  }

  // ---------------------------------------------------- the header and the standard

  /** What the standard makes of a header: one of the code's answers, or all of an object that has no bytes. */
  datatype Meaning = Gives(answer: Parsed) | Entire

  /**
   What section 2.1 of RFC 7233 makes of "bytes=<from>-<to>", both digit strings. A non-zero suffix is always
   satisfiable and selects everything when the object is shorter, even when the object is empty; a zero suffix
   and a first position past the end are unsatisfiable; a last position before the first is invalid, and an
   invalid header is ignored.
   */
  function Standard(from: string, to: string, size: nat): Meaning
    requires AllDigits(from) && AllDigits(to)
  {
    if from == [] && to == [] then Gives(Ignorable)
    else if from == [] then
      if Decimal(to) == 0 then Gives(Unsatisfiable)
      else if size == 0 then Entire
      else Gives(Range(if Decimal(to) > size then 0 else size - Decimal(to), size - 1))
    else if to != [] && Decimal(to) < Decimal(from) then Gives(Ignorable)
    else if Decimal(from) >= size then Gives(Unsatisfiable)
    else Gives(Range(Decimal(from), if to == [] || Decimal(to) >= size then size - 1 else Decimal(to)))
  }

  /**
   When the code and the standard agree. On an object with bytes: 64-bit positions and no zero suffix. On an
   empty object: a valid header, whose suffix, if it is one, is zero.
   */
  predicate Conforms(from: string, to: string, size: nat)
    requires AllDigits(from) && AllDigits(to)
  {
    if size == 0 then
      if from == [] then to != [] && Decimal(to) == 0 else to == [] || Decimal(from) <= Decimal(to)
    else if from == [] then to == [] || 0 < Decimal(to) <= MAX_INT64
    else if to == [] then Decimal(from) <= MAX_INT64
    else Decimal(from) <= Decimal(to) ==> Decimal(to) <= MAX_INT64
  }

  lemma ParseDigits(s: string)
    requires AllDigits(s)
    ensures ParseInt(s) == if s == [] || Decimal(s) > MAX_INT64 then NotANumber else Value(Decimal(s))
  {
    assert s != [] ==> IsDigit(s[0]);
  }

  /** A header made of digits gets the standard's answer exactly when it conforms. */
  lemma StandardIff(from: string, to: string, size: nat)
    requires AllDigits(from) && AllDigits(to)
    ensures Gives(ParseRange(Format(from, to), size)) == Standard(from, to, size) <==> Conforms(from, to, size)
  {
    FormatParses(from, to, size);
    ParseDigits(from);
    ParseDigits(to);
  }

  /** "bytes=a-b" for any two numbers. */
  lemma ParseClosed(a: nat, b: nat, size: nat)
    ensures ParseRange(Format(Digits(a), Digits(b)), size) ==
      if size == 0 then Unsatisfiable
      else if b < a || b > MAX_INT64 then Ignorable
      else if a >= size then Unsatisfiable
      else Range(a, if b >= size then size - 1 else b)
  {
    FormatParses(Digits(a), Digits(b), size);
    DigitsDecimal(a);
    DigitsDecimal(b);
    ParseDigits(Digits(a));
    ParseDigits(Digits(b));
  }

  /** "bytes=a-" for any number. */
  lemma ParseOpenEnded(a: nat, size: nat)
    ensures ParseRange(Format(Digits(a), ""), size) ==
      if size == 0 then Unsatisfiable
      else if a > MAX_INT64 then Ignorable
      else if a >= size then Unsatisfiable
      else Range(a, size - 1)
  {
    FormatParses(Digits(a), "", size);
    DigitsDecimal(a);
    ParseDigits(Digits(a));
  }

  /** "bytes=-n" for any number. */
  lemma ParseSuffix(n: nat, size: nat)
    ensures ParseRange(Format("", Digits(n)), size) ==
      if size == 0 then Unsatisfiable
      else if n == 0 || n > MAX_INT64 then Ignorable
      else Range(if n > size then 0 else size - n, size - 1)
  {
    FormatParses("", Digits(n), size);
    DigitsDecimal(n);
    ParseDigits(Digits(n));
  }

  // -------------------------------------------------------- headers off the grammar

  predicate Blank(s: string) {
    forall i | 0 <= i < |s| :: IsSpace(s[i])
  }

  /** A digit header with blanks around its parts and a sign before its numbers. */
  datatype Dressed = Dressed(lead: string, fromSign: string, from: string, left: string,
                             right: string, toSign: string, to: string, trail: string)

  /** A plus sign may stand before either number, a minus sign only before a last position of zero. */
  predicate Wearable(d: Dressed) {
    && Blank(d.lead) && Blank(d.left) && Blank(d.right) && Blank(d.trail)
    && AllDigits(d.from) && AllDigits(d.to)
    && (d.fromSign == "" || (d.fromSign == "+" && d.from != []))
    && (d.toSign == "" || (d.toSign == "+" && d.to != []) || (d.toSign == "-" && d.to != [] && Decimal(d.to) == 0))
  }

  function Text(d: Dressed): string {
    PREFIX + (d.lead + (d.fromSign + d.from) + d.left) + "-" + (d.right + (d.toSign + d.to) + d.trail)
  }

  predicate Plain(d: Dressed) {
    d.lead + d.fromSign + d.left + d.right + d.toSign + d.trail == ""
  }

  /** The single-range headers of the grammar. */
  ghost predicate InGrammar(header: string) {
    exists from: string, to: string :: AllDigits(from) && AllDigits(to) && from + to != [] && header == Format(from, to)
  }

  lemma {:induction false} TrimStartBlank(b: string, m: string)
    requires Blank(b) && m != [] && !IsSpace(m[0])
    ensures TrimStart(b + m) == m
  {
    if b == [] {
      assert b + m == m;
    } else {
      assert (b + m)[1..] == b[1..] + m;
      TrimStartBlank(b[1..], m);
    }
  }

  lemma {:induction false} TrimEndBlank(m: string, b: string)
    requires Blank(b) && m != [] && !IsSpace(m[|m| - 1])
    ensures TrimEnd(m + b) == m
  {
    if b == [] {
      assert m + b == m;
    } else {
      assert (m + b)[..|m + b| - 1] == m + b[..|b| - 1];
      TrimEndBlank(m, b[..|b| - 1]);
    }
  }

  lemma {:induction false} TrimAllBlank(b: string)
    requires Blank(b)
    ensures TrimStart(b) == []
  {
    if b != [] {
      TrimAllBlank(b[1..]);
    }
  }

  /** Trimming undoes blanks put around a text that has none at its ends. */
  lemma TrimSurround(b: string, m: string, e: string)
    requires Blank(b) && Blank(e)
    requires m == [] || (!IsSpace(m[0]) && !IsSpace(m[|m| - 1]))
    ensures TrimSpace(b + m + e) == m
  {
    if m == [] {
      assert b + m + e == b + e;
      TrimAllBlank(b + e);
    } else {
      assert b + m + e == b + (m + e);
      TrimStartBlank(b, m + e);
      TrimEndBlank(m, e);
    }
  }

  lemma {:induction false} StartParts(s: string) returns (b: string)
    ensures Blank(b) && s == b + TrimStart(s)
  {
    if s != [] && IsSpace(s[0]) {
      var rest := StartParts(s[1..]);
      b := [s[0]] + rest;
      assert s == [s[0]] + s[1..];
    } else {
      b := [];
    }
  }

  lemma {:induction false} EndParts(s: string) returns (b: string)
    ensures Blank(b) && s == TrimEnd(s) + b
  {
    if s != [] && IsSpace(s[|s| - 1]) {
      var rest := EndParts(s[..|s| - 1]);
      b := rest + [s[|s| - 1]];
      assert s == s[..|s| - 1] + [s[|s| - 1]];
    } else {
      b := [];
    }
  }

  /** What trimming took off was blank. */
  lemma TrimParts(s: string) returns (b: string, e: string)
    ensures Blank(b) && Blank(e) && s == b + TrimSpace(s) + e
  {
    b := StartParts(s);
    e := EndParts(TrimStart(s));
  }

  /** A sign in front of digits leaves their value, except that a minus sign needs it to be zero. */
  lemma ParseSigned(sign: string, s: string)
    requires AllDigits(s)
    requires sign == "" || (sign == "+" && s != []) || (sign == "-" && s != [] && Decimal(s) == 0)
    ensures ParseInt(sign + s) == ParseInt(s)
  {
    assert sign == "" ==> sign + s == s;
    assert sign != "" ==> (sign + s)[1..] == s;
    ParseDigits(s);
  }

  /** What is left of the dash once the outer blanks are gone. */
  function Left(d: Dressed): string {
    if d.fromSign + d.from == [] then [] else d.fromSign + d.from + d.left
  }

  function Right(d: Dressed): string {
    if d.toSign + d.to == [] then [] else d.right + (d.toSign + d.to)
  }

  lemma DressedText(d: Dressed)
    requires Wearable(d)
    ensures PREFIX <= Text(d) && TrimSpace(Text(d)[|PREFIX|..]) == Left(d) + "-" + Right(d)
  {
    var before := if d.fromSign + d.from == [] then d.lead + d.left else d.lead;
    var after := if d.toSign + d.to == [] then d.right + d.trail else d.trail;
    LeadingBlanks(d.lead, d.fromSign + d.from, d.left);
    TrailingBlanks(d.right, d.toSign + d.to, d.trail);
    Regroup(PREFIX, before, Left(d), Right(d), after);
    DressedEnds(d);
    TrimSurround(before, Left(d) + "-" + Right(d), after);
  }

  lemma LeadingBlanks(lead: string, from: string, left: string)
    ensures lead + from + left == (if from == [] then lead + left else lead) + (if from == [] then [] else from + left)
  {
  }

  lemma TrailingBlanks(right: string, to: string, trail: string)
    ensures right + to + trail == (if to == [] then [] else right + to) + (if to == [] then right + trail else trail)
  {
  }

  lemma Regroup(p: string, before: string, left: string, right: string, after: string)
    ensures var all := p + (before + left) + "-" + (right + after);
      p <= all && all[|p|..] == before + (left + "-" + right) + after
  {
    var all := p + (before + left) + "-" + (right + after);
    assert all == p + (before + (left + "-" + right) + after);
  }

  lemma DressedEnds(d: Dressed)
    requires Wearable(d)
    ensures var spec := Left(d) + "-" + Right(d); !IsSpace(spec[0]) && !IsSpace(spec[|spec| - 1])
  {
    var from, to := d.fromSign + d.from, d.toSign + d.to;
    assert from != [] ==> Left(d)[0] == from[0] && !IsSpace(from[0]);
    assert to != [] ==> Right(d)[|Right(d)| - 1] == to[|to| - 1] && !IsSpace(to[|to| - 1]);
  }

  lemma LeftHasNoDash(d: Dressed)
    requires Wearable(d)
    ensures forall j | 0 <= j < |Left(d)| :: Left(d)[j] != '-' && Left(d)[j] != ','
  {
  }

  lemma RightHasNoComma(d: Dressed)
    requires Wearable(d)
    ensures forall j | 0 <= j < |Right(d)| :: Right(d)[j] != ','
  {
  }

  lemma DressedNumbers(d: Dressed)
    requires Wearable(d)
    ensures TrimSpace(Left(d)) == d.fromSign + d.from && TrimSpace(Right(d)) == d.toSign + d.to
  {
    LeftNumber(d.fromSign + d.from, d.left);
    RightNumber(d.right, d.toSign + d.to);
  }

  lemma LeftNumber(from: string, left: string)
    requires Blank(left) && (from == [] || (!IsSpace(from[0]) && !IsSpace(from[|from| - 1])))
    ensures TrimSpace(if from == [] then [] else from + left) == from
  {
    assert [] + from + left == from + left;
    TrimSurround([], from, left);
  }

  lemma RightNumber(right: string, to: string)
    requires Blank(right) && (to == [] || (!IsSpace(to[0]) && !IsSpace(to[|to| - 1])))
    ensures TrimSpace(if to == [] then [] else right + to) == to
  {
    assert right + to + [] == right + to;
    TrimSurround(right, to, []);
  }

  lemma DressedParses(d: Dressed, size: nat)
    requires Wearable(d)
    ensures ParseRange(Text(d), size) ==
      if size == 0 then Unsatisfiable else ParseSpec(d.fromSign + d.from, d.toSign + d.to, size)
  {
    var left, right := Left(d), Right(d);
    var spec := left + "-" + right;
    DressedText(d);
    LeftHasNoDash(d);
    RightHasNoComma(d);
    DashAt(spec, 0, |left|);
    assert spec[..|left|] == left && spec[|left| + 1..] == right;
    DressedNumbers(d);
  }

  /** The code reads through the blanks and signs. */
  lemma DressedSame(d: Dressed, size: nat)
    requires Wearable(d)
    ensures ParseRange(Text(d), size) == ParseRange(Format(d.from, d.to), size)
  {
    DressedParses(d, size);
    FormatParses(d.from, d.to, size);
    ParseSigned(d.fromSign, d.from);
    ParseSigned(d.toSign, d.to);
  }

  /** A field the code accepts is empty, or digits behind at most one sign. */
  lemma SignedDigits(s: string) returns (sign: string, digits: string)
    requires s == [] || (ParseInt(s).Value? && ParseInt(s).n >= 0)
    ensures s == sign + digits && AllDigits(digits)
    ensures sign == "" || (sign == "+" && digits != []) || (sign == "-" && digits != [] && Decimal(digits) == 0)
    ensures s == [] || s[0] != '-' ==> sign != "-"
  {
    if s != [] && (s[0] == '+' || s[0] == '-') {
      sign, digits := [s[0]], s[1..];
    } else {
      sign, digits := [], s;
    }
  }

  /** A header the code acts on, cut into its fields and the blanks around them. */
  lemma ActedOnFields(header: string, size: nat)
      returns (lead: string, from: string, left: string, right: string, to: string, trail: string)
    requires size > 0 && ParseRange(header, size) != Ignorable
    ensures Blank(lead) && Blank(left) && Blank(right) && Blank(trail)
    ensures from == [] || (from[0] != '-' && ParseInt(from).Value? && ParseInt(from).n >= 0)
    ensures to == [] || (ParseInt(to).Value? && ParseInt(to).n >= 0)
    ensures header == PREFIX + (lead + from + left) + "-" + (right + to + trail)
  {
    var rest := header[|PREFIX|..];
    var spec := TrimSpace(rest);
    var dash := IndexOfDash(spec, 0);
    var x, y := TrimParts(rest);
    var p, q := TrimParts(spec[..dash]);
    var r, w := TrimParts(spec[dash + 1..]);
    from, to := TrimSpace(spec[..dash]), TrimSpace(spec[dash + 1..]);
    lead, left, right, trail := x + p, q, r, w + y;
    if from != [] {
      NoDashInside(spec[..dash], p, from, q);
    }
    Reassemble(header, x, p, from, q, r, to, w, y, spec, dash);
  }

  /** Every header the code acts on is a digit header, dressed. */
  lemma ActedOnIsDressed(header: string, size: nat) returns (d: Dressed)
    requires size > 0 && ParseRange(header, size) != Ignorable
    ensures Wearable(d) && Text(d) == header
  {
    var lead, from, left, right, to, trail := ActedOnFields(header, size);
    var fromSign, f := SignedDigits(from);
    var toSign, t := SignedDigits(to);
    d := Dressed(lead, fromSign, f, left, right, toSign, t, trail);
  }

  lemma NoDashInside(s: string, p: string, m: string, q: string)
    requires '-' !in s && s == p + m + q && m != []
    ensures m[0] != '-'
  {
    assert s[|p|] == m[0];
  }

  lemma Reassemble(header: string, x: string, p: string, from: string, q: string,
                   r: string, to: string, w: string, y: string, spec: string, dash: nat)
    requires PREFIX <= header && header[|PREFIX|..] == x + spec + y && dash < |spec| && spec[dash] == '-'
    requires spec[..dash] == p + from + q && spec[dash + 1..] == r + to + w
    ensures header == PREFIX + (x + p + from + q) + "-" + (r + to + (w + y))
  {
    var a, b := spec[..dash], spec[dash + 1..];
    assert spec == a + "-" + b;
    assert header == PREFIX + (x + (a + "-" + b) + y);
    assert x + (p + from + q) == x + p + from + q && (r + to + w) + y == r + to + (w + y);
    assert PREFIX + (x + (a + "-" + b) + y) == PREFIX + (x + a) + "-" + (b + y);
  }

  /** Whatever the code does with a header, it does with the digit header inside it, and with nothing else. */
  lemma ActedOnIff(header: string, size: nat)
    requires size > 0
    ensures ParseRange(header, size) != Ignorable <==>
      exists d: Dressed :: Wearable(d) && Text(d) == header && ParseRange(Format(d.from, d.to), size) != Ignorable
  {
    if ParseRange(header, size) != Ignorable {
      var d := ActedOnIsDressed(header, size);
      DressedSame(d, size);
    }
    forall d: Dressed | Wearable(d) && Text(d) == header
      ensures ParseRange(header, size) == ParseRange(Format(d.from, d.to), size)
    {
      DressedSame(d, size);
    }
  }

  /** A header off the grammar is acted on exactly when blanks or signs are all that keeps it off. */
  lemma OffGrammarIff(header: string, size: nat)
    requires size > 0 && !InGrammar(header)
    ensures ParseRange(header, size) != Ignorable <==>
      exists d: Dressed :: Wearable(d) && Text(d) == header && !Plain(d) && Format(d.from, d.to) != header
        && ParseRange(Format(d.from, d.to), size) != Ignorable
  {
    ActedOnIff(header, size);
    if ParseRange(header, size) != Ignorable {
      var d: Dressed :| Wearable(d) && Text(d) == header && ParseRange(Format(d.from, d.to), size) != Ignorable;
      if d.from + d.to == [] {
        FormatParses("", "", size);
        assert false;
      }
      assert Format(d.from, d.to) != header;
      assert Plain(d) ==> Text(d) == Format(d.from, d.to) by {
        if Plain(d) {
          PlainText(d);
        }
      }
    }
  }

  /** A plus sign before the first position is off the grammar and makes no difference. */
  lemma SignedPositionAccepted(from: string, to: string, size: nat)
    requires AllDigits(from) && AllDigits(to) && from != []
    ensures !InGrammar(Format("+" + from, to))
    ensures ParseRange(Format("+" + from, to), size) == ParseRange(Format(from, to), size)
  {
    var d := Dressed("", "+", from, "", "", "", to, "");
    assert Text(d) == Format("+" + from, to);
    DressedSame(d, size);
    forall f: string, t: string | AllDigits(f) && AllDigits(t) ensures Format("+" + from, to) != Format(f, t) {
      assert Format(f, t)[6] == if f == [] then '-' else f[0];
      assert Format("+" + from, to)[6] == '+';
    }
  }

  /** A non-zero suffix of an empty object is all of it by the standard, and refused by the code. */
  lemma EmptySuffixRefused(digits: string)
    requires AllDigits(digits) && Decimal(digits) > 0
    ensures Standard("", digits, 0) == Entire && ParseRange(Format("", digits), 0) == Unsatisfiable
  {
    FormatParses("", digits, 0);
  }

  /** A zero suffix is on the grammar, unsatisfiable by the standard, and ignored. */
  lemma ZeroSuffixIgnored(zeros: string, size: nat)
    requires AllDigits(zeros) && zeros != [] && Decimal(zeros) == 0 && size > 0
    ensures Standard("", zeros, size) == Gives(Unsatisfiable) && ParseRange(Format("", zeros), size) == Ignorable
  {
    FormatParses("", zeros, size);
    ParseDigits(zeros);
  }

  lemma PlainText(d: Dressed)
    requires Plain(d)
    ensures Text(d) == Format(d.from, d.to)
  {
    var all := d.lead + d.fromSign + d.left + d.right + d.toSign + d.trail;
    assert |all| == |d.lead| + |d.fromSign| + |d.left| + |d.right| + |d.toSign| + |d.trail|;
    assert d.lead == "" && d.fromSign == "" && d.left == "" && d.right == "" && d.toSign == "" && d.trail == "";
  }

  /** An empty object refuses every single-range header with a dash in it, on the grammar or off. */
  lemma EmptyObjectRefuses(header: string)
    ensures ParseRange(header, 0) == (if PREFIX <= header && '-' in header[|PREFIX|..] && ',' !in header[|PREFIX|..]
                                      then Unsatisfiable else Ignorable)
  {
    if PREFIX <= header {
      var rest := header[|PREFIX|..];
      var b, e := TrimParts(rest);
      assert forall c: char :: c in rest ==> c in TrimSpace(rest) || IsSpace(c);
      assert forall c: char :: c in TrimSpace(rest) ==> c in rest;
    }
  }

  // ---------------------------------------------------------- cutting out a range

  /** One chunk of the response: its place in the layout and the bytes of it asked for. */
  datatype Span = Span(chunk: nat, from: nat, to: nat)

  /** The recorded sizes of the chunks that hold these bytes. */
  function Sizes(parts: seq<Bytes>): (sizes: seq<nat>)
    ensures |sizes| == |parts| && forall i | 0 <= i < |parts| :: sizes[i] == |parts[i]|
  {
    seq(|parts|, i requires 0 <= i < |parts| => |parts[i]|)
  }

  ghost predicate Fits(parts: seq<Bytes>, spans: seq<Span>) {
    forall i | 0 <= i < |spans| :: spans[i].chunk < |parts| && spans[i].from <= spans[i].to <= |parts[spans[i].chunk]|
  }

  /** The bytes the spans select, in order. */
  ghost function Cut(parts: seq<Bytes>, spans: seq<Span>): Bytes
    requires Fits(parts, spans)
  {
    if spans == [] then []
    else
      var last := spans[|spans| - 1];
      Cut(parts, spans[..|spans| - 1]) + parts[last.chunk][last.from..last.to]
  }

  /** The part of bytes start..end that lies before `offset`. */
  function Window(whole: Bytes, start: nat, end: nat, offset: nat): Bytes
    requires start <= end < |whole| && offset <= |whole|
  {
    if offset <= start then [] else if offset <= end then whole[start..offset] else whole[start..end + 1]
  }

  /** The offsets within a chunk at `s` of the bytes start..end it holds. */
  predicate Trimmed(start: nat, end: nat, s: nat, size: nat, from: nat, to: nat) {
    && from == (if start > s then start - s else 0)
    && to == (if end < s + size - 1 then end - s + 1 else size)
  }

  lemma WindowStep(whole: Bytes, start: nat, end: nat, s: nat, part: Bytes, from: nat, to: nat)
    requires start <= end < |whole| && s + |part| <= |whole| && whole[s..s + |part|] == part
    requires start < s + |part| && s <= end && Trimmed(start, end, s, |part|, from, to)
    ensures from <= to <= |part|
    ensures Window(whole, start, end, s + |part|) == Window(whole, start, end, s) + part[from..to]
  {
    SliceOfSlice(whole, s, s + |part|, from, to);
    if s <= start {
      assert Window(whole, start, end, s) == [];
    } else {
      assert whole[start..s + to] == whole[start..s] + whole[s..s + to];
    }
  }

  lemma SliceOfSlice(whole: Bytes, s: nat, e: nat, from: nat, to: nat)
    requires s <= e <= |whole| && from <= to <= e - s
    ensures whole[s..e][from..to] == whole[s + from..s + to]
  {
    var a, b := whole[s..e][from..to], whole[s + from..s + to];
    forall i | 0 <= i < to - from ensures a[i] == b[i] {
      assert a[i] == whole[s..e][from + i];
    }
  }

  /** Where chunk `i` starts. */
  function Offset(parts: seq<Bytes>, i: nat): nat
    requires i <= |parts|
  {
    if i == 0 then 0 else Offset(parts, i - 1) + |parts[i - 1]|
  }

  lemma {:induction false} OffsetPrefix(parts: seq<Bytes>, i: nat)
    requires i <= |parts|
    ensures Offset(parts, i) == |Concat(parts[..i])|
  {
    if i > 0 {
      OffsetPrefix(parts, i - 1);
      assert parts[..i] == parts[..i - 1] + [parts[i - 1]];
      ConcatSnoc(parts[..i - 1], parts[i - 1]);
    }
  }

  /** Chunk `i` holds the object's bytes from its offset on. */
  lemma PartAt(parts: seq<Bytes>, i: nat)
    requires i < |parts|
    ensures Offset(parts, i) + |parts[i]| == Offset(parts, i + 1) <= |Concat(parts)|
    ensures Concat(parts)[Offset(parts, i)..Offset(parts, i + 1)] == parts[i]
  {
    OffsetPrefix(parts, i);
    var before, after := Concat(parts[..i]), Concat(parts[i + 1..]);
    assert parts == parts[..i] + ([parts[i]] + parts[i + 1..]);
    ConcatAppend(parts[..i], [parts[i]] + parts[i + 1..]);
    assert Concat(parts) == before + (parts[i] + after);
  }

  lemma OffsetEnd(parts: seq<Bytes>)
    ensures Offset(parts, |parts|) == |Concat(parts)|
  {
    OffsetPrefix(parts, |parts|);
    assert parts[..|parts|] == parts;
  }

  lemma CutSnoc(parts: seq<Bytes>, spans: seq<Span>, span: Span)
    requires Fits(parts, spans) && span.chunk < |parts| && span.from <= span.to <= |parts[span.chunk]|
    ensures Fits(parts, spans + [span])
    ensures Cut(parts, spans + [span]) == Cut(parts, spans) + parts[span.chunk][span.from..span.to]
  {
    assert (spans + [span])[..|spans|] == spans;
  }

  /** The first `i` chunks have given what they hold of the range. */
  ghost predicate Swept(parts: seq<Bytes>, start: nat, end: nat, i: nat, offset: nat, out: seq<Span>)
    requires start <= end < |Concat(parts)|
  {
    && i <= |parts| && offset == Offset(parts, i) <= |Concat(parts)|
    && Fits(parts, out) && Cut(parts, out) == Window(Concat(parts), start, end, offset)
  }

  lemma SweptPast(parts: seq<Bytes>, start: nat, end: nat, i: nat, s: nat, out: seq<Span>)
    requires start <= end < |Concat(parts)| && i < |parts| && Swept(parts, start, end, i, s, out)
    requires s + |parts[i]| <= start
    ensures Swept(parts, start, end, i + 1, s + |parts[i]|, out)
  {
    PartAt(parts, i);
  }

  lemma SweptInto(parts: seq<Bytes>, start: nat, end: nat, i: nat, s: nat, out: seq<Span>, from: nat, to: nat)
    requires start <= end < |Concat(parts)| && i < |parts| && Swept(parts, start, end, i, s, out)
    requires start < s + |parts[i]| && s <= end && Trimmed(start, end, s, |parts[i]|, from, to)
    ensures Swept(parts, start, end, i + 1, s + |parts[i]|, out + [Span(i, from, to)])
  {
    PartAt(parts, i);
    WindowStep(Concat(parts), start, end, s, parts[i], from, to);
    CutSnoc(parts, out, Span(i, from, to));
  }

  /**
   Only the chunks overlapping the range, each trimmed to it: together exactly bytes start..end,
   for any chunk sizes, short or empty ones in the middle included.
   */
  method SelectChunks(sizes: seq<nat>, start: nat, end: nat, ghost parts: seq<Bytes>) returns (out: seq<Span>)
    requires sizes == Sizes(parts) && start <= end < |Concat(parts)|
    ensures Fits(parts, out) && Cut(parts, out) == Concat(parts)[start..end + 1]
  {
    out := [];
    var offset: nat, i: nat := 0, 0;
    while i < |sizes|
      invariant i <= |sizes| && Swept(parts, start, end, i, offset, out)
    {
      var s, e := offset, offset + sizes[i];
      if e > start && s > end {
        break;
      }
      offset := e;
      if e > start {
        var from := if start > s then start - s else 0;
        var to := if end < e - 1 then end - s + 1 else sizes[i];
        SweptInto(parts, start, end, i, s, out, from, to);
        out := out + [Span(i, from, to)];
      } else {
        SweptPast(parts, start, end, i, s, out);
      }
      i := i + 1;
    }
    OffsetEnd(parts);
  }

  method ObjectSize(sizes: seq<nat>, ghost parts: seq<Bytes>) returns (n: nat)
    requires sizes == Sizes(parts)
    ensures n == |Concat(parts)|
  {
    n := 0;
    for i := 0 to |sizes|
      invariant n == Offset(parts, i)
    {
      n := n + sizes[i];
    }
    OffsetEnd(parts);
  }

  /** Every chunk, full width: the whole object. */
  method AllChunks(sizes: seq<nat>, ghost parts: seq<Bytes>) returns (out: seq<Span>)
    requires sizes == Sizes(parts)
    ensures Fits(parts, out) && Cut(parts, out) == Concat(parts)
  {
    out := [];
    for i := 0 to |sizes|
      invariant Fits(parts, out) && Cut(parts, out) == Concat(parts[..i])
    {
      CutSnoc(parts, out, Span(i, 0, sizes[i]));
      assert parts[..i + 1] == parts[..i] + [parts[i]] && parts[i][0..sizes[i]] == parts[i];
      ConcatSnoc(parts[..i], parts[i]);
      out := out + [Span(i, 0, sizes[i])];
    }
    assert parts[..|sizes|] == parts;
  }
}
