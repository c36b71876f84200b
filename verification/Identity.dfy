/**
 * The canonical identity of a reusable KV prefix (infra/inference/kv_transfer/identity.py): compact JSON
 * with sorted keys and the string escapes of section 7 of RFC 8259, encoded as UTF-8 and hashed.
 *
 * The encoding of any JSON value is shown to be injective; the hash is a parameter.
 */
module Identity {
  import opened Basics

  datatype Json =
    | Num(n: nat)
    | Str(s: string)
    | Arr(items: Items)
    | Obj(fields: Fields)

  datatype Items = NoItem | Item(value: Json, rest: Items)

  datatype Fields = NoField | Field(key: string, value: Json, rest: Fields)

  // ---- Encoding ----

  function Digit(d: nat): char
    requires d < 10
  {
    "0123456789"[d]
  }

  function HexDigit(d: nat): char
    requires d < 16
  {
    "0123456789abcdef"[d]
  }

  function Decimal(n: nat): (s: string)
    ensures s != "" && forall i :: 0 <= i < |s| ==> IsDigit(s[i])
  {
    if n < 10 then [Digit(n)] else Decimal(n / 10) + [Digit(n % 10)]
  }

  predicate IsDigit(c: char) {
    '0' <= c <= '9'
  }

  /** One character inside a string: short escapes, \u00XX for other controls, anything else as it is. */
  function Escape(c: char): (s: string)
    ensures s != ""
  {
    if c == '"' then "\\\""
    else if c == '\\' then "\\\\"
    else if c == '\n' then "\\n"
    else if c == '\r' then "\\r"
    else if c == '\t' then "\\t"
    else if c as int == 12 then "\\f"
    else if c as int == 8 then "\\b"
    else if c as int < 32 then ['\\', 'u', '0', '0', HexDigit(c as int / 16), HexDigit(c as int % 16)]
    else [c]
  }

  function Inside(s: string): string {
    if s == "" then "" else Escape(s[0]) + Inside(s[1..])
  }

  function Quoted(s: string): string {
    "\"" + Inside(s) + "\""
  }

  function Encode(v: Json): string
    decreases v, 0
  {
    match v
    case Num(n) => Decimal(n)
    case Str(s) => Quoted(s)
    case Arr(items) => "[" + EncodeItems(items)
    case Obj(fields) => "{" + EncodeFields(fields)
  }

  function EncodeItems(q: Items): string
    decreases q, 0
  {
    match q
    case NoItem => "]"
    case Item(v, rest) => Encode(v) + AfterItem(rest)
  }

  /** What follows an item: the end of the list, or a comma and the other items. */
  function AfterItem(rest: Items): (s: string)
    ensures s != "" && !IsDigit(s[0]) && (s[0] == ']' <==> rest.NoItem?)
    decreases rest, 1
  {
    if rest.NoItem? then "]" else "," + EncodeItems(rest)
  }

  function EncodeFields(q: Fields): string
    decreases q, 0
  {
    match q
    case NoField => "}"
    case Field(k, v, rest) => Quoted(k) + (":" + (Encode(v) + AfterField(rest)))
  }

  function AfterField(rest: Fields): (s: string)
    ensures s != "" && !IsDigit(s[0]) && (s[0] == '}' <==> rest.NoField?)
    decreases rest, 1
  {
    if rest.NoField? then "}" else "," + EncodeFields(rest)
  }

  // ---- Numbers ----

  function ValueOf(s: string): int
    requires forall i :: 0 <= i < |s| ==> IsDigit(s[i])
  {
    if s == "" then 0 else ValueOf(s[..|s| - 1]) * 10 + (s[|s| - 1] as int - '0' as int)
  }

  lemma {:induction false} DecimalRoundTrip(n: nat)
    ensures ValueOf(Decimal(n)) == n
  {
    if n >= 10 {
      DecimalRoundTrip(n / 10);
      var s := Decimal(n);
      assert s[..|s| - 1] == Decimal(n / 10);
    } else {
      assert Decimal(n)[..0] == "";
    }
  }

  /** Not a digit at the start: a number before it has ended. */
  predicate Ends(r: string) {
    r == "" || !IsDigit(r[0])
  }

  lemma NumberIsPrefixFree(n: nat, a: string, m: nat, b: string)
    requires Decimal(n) + a == Decimal(m) + b && Ends(a) && Ends(b)
    ensures n == m && a == b
  {
    var x, y := Decimal(n), Decimal(m);
    RunIs(x, a);
    RunIs(y, b);
    SameLengthSplits(x, a, y, b);
    DecimalRoundTrip(n);
    DecimalRoundTrip(m);
  }

  /** Length of the digits at the start. */
  function DigitRun(s: string): nat {
    if s == "" || !IsDigit(s[0]) then 0 else 1 + DigitRun(s[1..])
  }

  lemma {:induction false} RunIs(x: string, a: string)
    requires Ends(a) && forall i :: 0 <= i < |x| ==> IsDigit(x[i])
    ensures DigitRun(x + a) == |x|
  {
    if x == "" {
      assert x + a == a;
    } else {
      RunIs(x[1..], a);
      assert (x + a)[1..] == x[1..] + a;
    }
  }

  lemma SameLengthSplits(x: string, a: string, y: string, b: string)
    requires x + a == y + b && |x| == |y|
    ensures x == y && a == b
  {
    assert x == (x + a)[..|x|] && y == (y + b)[..|y|];
    assert a == (x + a)[|x|..] && b == (y + b)[|y|..];
  }

  lemma {:induction false} NoLeadingZero(n: nat)
    ensures Decimal(n)[0] == '0' ==> n == 0
  {
    if n >= 10 {
      NoLeadingZero(n / 10);
      assert Decimal(n)[0] == Decimal(n / 10)[0];
    }
  }

  // ---- Reading JSON text without white space (RFC 8259) ----

  datatype Read<T> = Got(value: T, rest: string) | Bad

  /** Section 6: an integer has no leading zero. */
  function ReadNumber(s: string): (r: Read<nat>)
    ensures r.Got? ==> |r.rest| < |s|
  {
    var k := DigitRun(s);
    if k == 0 || (s[0] == '0' && k > 1) then Bad
    else
      DigitsOnly(s);
      Got(ValueOf(s[..k]), s[k..])
  }

  lemma {:induction false} DigitsOnly(s: string)
    ensures DigitRun(s) <= |s| && forall i :: 0 <= i < DigitRun(s) ==> IsDigit(s[i])
    ensures forall t: string :: (forall i :: 0 <= i < |t| ==> IsDigit(t[i])) ==> ValueOf(t) >= 0
  {
    if s != "" && IsDigit(s[0]) {
      DigitsOnly(s[1..]);
      assert forall i :: 1 <= i < |s| ==> s[i] == s[1..][i - 1];
    }
    forall t: string | forall i :: 0 <= i < |t| ==> IsDigit(t[i])
      ensures ValueOf(t) >= 0
    {
      NotNegative(t);
    }
  }

  lemma {:induction false} NotNegative(t: string)
    requires forall i :: 0 <= i < |t| ==> IsDigit(t[i])
    ensures ValueOf(t) >= 0
  {
    if t != "" {
      NotNegative(t[..|t| - 1]);
    }
  }

  function HexValue(c: char): Option<nat> {
    if '0' <= c <= '9' then Some(c as int - '0' as int)
    else if 'a' <= c <= 'f' then Some(c as int - 'a' as int + 10)
    else if 'A' <= c <= 'F' then Some(c as int - 'A' as int + 10)
    else None
  }

  /** Section 7: what a backslash and one character stand for. */
  function Unescaped(c: char): Option<char> {
    if c == '"' || c == '\\' || c == '/' then Some(c)
    else if c == 'b' then Some(8 as char)
    else if c == 'f' then Some(12 as char)
    else if c == 'n' then Some(10 as char)
    else if c == 'r' then Some(13 as char)
    else if c == 't' then Some(9 as char)
    else None
  }

  /** One character of a string, and how much text it takes. Escapes of surrogates are not read. */
  function ReadChar(s: string): (r: Read<char>)
    ensures r.Got? ==> |r.rest| < |s|
  {
    if s == "" || s[0] == '"' || s[0] as int < 0x20 then Bad
    else if s[0] != '\\' then Got(s[0], s[1..])
    else if |s| >= 6 && s[1] == 'u' then
      var h := (HexValue(s[2]), HexValue(s[3]), HexValue(s[4]), HexValue(s[5]));
      if h.0.None? || h.1.None? || h.2.None? || h.3.None? then Bad
      else
        var n := h.0.value * 4096 + h.1.value * 256 + h.2.value * 16 + h.3.value;
        if n < 0xD800 || 0xE000 <= n < 0x10000 then Got(n as char, s[6..]) else Bad
    else if |s| >= 2 && Unescaped(s[1]).Some? then Got(Unescaped(s[1]).value, s[2..])
    else Bad
  }

  /** The characters up to the closing quote. */
  function ReadInside(s: string): (r: Read<string>)
    ensures r.Got? ==> |r.rest| < |s|
    decreases |s|
  {
    if s == "" then Bad
    else if s[0] == '"' then Got("", s[1..])
    else
      match ReadChar(s)
      case Bad => Bad
      case Got(c, rest) =>
        match ReadInside(rest)
        case Bad => Bad
        case Got(more, after) => Got([c] + more, after)
  }

  function ReadValue(s: string): (r: Read<Json>)
    ensures r.Got? ==> |r.rest| < |s|
    decreases |s|, 0
  {
    if s == "" then Bad
    else if IsDigit(s[0]) then
      match ReadNumber(s)
      case Bad => Bad
      case Got(n, rest) => Got(Num(n), rest)
    else if s[0] == '"' then
      match ReadInside(s[1..])
      case Bad => Bad
      case Got(t, rest) => Got(Str(t), rest)
    else if s[0] == '[' then
      if |s| > 1 && s[1] == ']' then Got(Arr(NoItem), s[2..])
      else
        match ReadItems(s[1..])
        case Bad => Bad
        case Got(q, rest) => Got(Arr(q), rest)
    else if s[0] == '{' then
      if |s| > 1 && s[1] == '}' then Got(Obj(NoField), s[2..])
      else
        match ReadFields(s[1..])
        case Bad => Bad
        case Got(q, rest) => Got(Obj(q), rest)
    else Bad
  }

  /** One or more values, up to the closing bracket. */
  function ReadItems(s: string): (r: Read<Items>)
    ensures r.Got? ==> |r.rest| < |s|
    decreases |s|, 1
  {
    match ReadValue(s)
    case Bad => Bad
    case Got(v, rest) =>
      if rest != "" && rest[0] == ']' then Got(Item(v, NoItem), rest[1..])
      else if rest != "" && rest[0] == ',' then
        match ReadItems(rest[1..])
        case Bad => Bad
        case Got(more, after) => Got(Item(v, more), after)
      else Bad
  }

  /** One or more names with their values, up to the closing brace. */
  function ReadFields(s: string): (r: Read<Fields>)
    ensures r.Got? ==> |r.rest| < |s|
    decreases |s|, 1
  {
    if s == "" || s[0] != '"' then Bad
    else
      match ReadInside(s[1..])
      case Bad => Bad
      case Got(k, rest) =>
        if rest == "" || rest[0] != ':' then Bad
        else
          match ReadValue(rest[1..])
          case Bad => Bad
          case Got(v, after) =>
            if after != "" && after[0] == '}' then Got(Field(k, v, NoField), after[1..])
            else if after != "" && after[0] == ',' then
              match ReadFields(after[1..])
              case Bad => Bad
              case Got(more, end) => Got(Field(k, v, more), end)
            else Bad
  }

  // ---- What is written is read back ----

  lemma NumberReadsBack(n: nat, a: string)
    requires Ends(a)
    ensures ReadNumber(Decimal(n) + a) == Got(n, a)
  {
    var x := Decimal(n);
    RunIs(x, a);
    DecimalRoundTrip(n);
    NoLeadingZero(n);
    assert (x + a)[..|x|] == x && (x + a)[|x|..] == a && (x + a)[0] == x[0];
  }

  lemma HexReadsBack(d: nat)
    requires d < 16
    ensures HexValue(HexDigit(d)) == Some(d)
  {
    assert d < 10 ==> HexDigit(d) as int == 48 + d;
    assert d >= 10 ==> HexDigit(d) as int == 87 + d;
  }

  lemma ControlReadsBack(c: char, a: string)
    requires c as int < 32 && |Escape(c)| == 6
    ensures ReadChar(Escape(c) + a) == Got(c, a)
  {
    var e, s := Escape(c), Escape(c) + a;
    HexReadsBack(c as int / 16);
    HexReadsBack(c as int % 16);
    assert HexValue('0') == Some(0);
    assert s[6..] == a && s[0] == '\\' && s[1] == 'u' && s[2] == '0' && s[3] == '0' && s[4] == e[4] && s[5] == e[5];
  }

  lemma OtherReadsBack(c: char, a: string)
    requires |Escape(c)| < 6
    ensures ReadChar(Escape(c) + a) == Got(c, a)
  {
    var e, s := Escape(c), Escape(c) + a;
    assert s[0] == e[0] && s[|e|..] == a;
    assert |e| == 2 ==> s[1] == e[1];
  }

  /** Every character is read back from its escape, which is six long only where no escape of two exists. */
  lemma CharReadsBack(c: char, a: string)
    ensures ReadChar(Escape(c) + a) == Got(c, a)
    ensures (Escape(c) + a)[0] != '"'
    ensures |Escape(c)| == 6 ==> forall e :: Unescaped(e) != Some(c)
  {
    assert (Escape(c) + a)[0] == Escape(c)[0];
    if |Escape(c)| == 6 {
      ControlReadsBack(c, a);
    } else {
      OtherReadsBack(c, a);
    }
  }

  lemma Peel(s: string, x: string)
    requires s != ""
    ensures Inside(s) + x == Escape(s[0]) + (Inside(s[1..]) + x)
  {
    Reassociate(Escape(s[0]), Inside(s[1..]), x);
  }

  lemma {:induction false} InsideReadsBack(s: string, a: string)
    ensures ReadInside(Inside(s) + ("\"" + a)) == Got(s, a)
    decreases |s|
  {
    var x := "\"" + a;
    if s == "" {
      assert Inside(s) + x == x && x[1..] == a;
    } else {
      var rest := Inside(s[1..]) + x;
      Peel(s, x);
      CharReadsBack(s[0], rest);
      InsideReadsBack(s[1..], a);
      assert s == [s[0]] + s[1..];
    }
  }

  lemma QuotedReadsBack(s: string, a: string)
    ensures (Quoted(s) + a)[0] == '"' && ReadInside((Quoted(s) + a)[1..]) == Got(s, a)
  {
    var x := Inside(s) + ("\"" + a);
    assert Quoted(s) + a == "\"" + x;
    assert ("\"" + x)[1..] == x;
    InsideReadsBack(s, a);
  }

  lemma QuotedIsPrefixFree(s: string, a: string, t: string, b: string)
    requires Quoted(s) + a == Quoted(t) + b
    ensures s == t && a == b
  {
    QuotedReadsBack(s, a);
    QuotedReadsBack(t, b);
  }

  lemma FirstIs(v: Json, a: string)
    ensures |Encode(v) + a| > 0 && (Encode(v) + a)[0] == Encode(v)[0]
    ensures v.Num? <==> IsDigit(Encode(v)[0])
    ensures v.Str? <==> Encode(v)[0] == '"'
    ensures v.Arr? <==> Encode(v)[0] == '['
    ensures v.Obj? <==> Encode(v)[0] == '{'
  {
  }

  lemma AfterFirst(c: char, x: string, a: string)
    ensures ([c] + x) + a == [c] + (x + a) && (([c] + x) + a)[1..] == x + a
  {
    Reassociate([c], x, a);
  }

  /** Round trip: every value is read back from its text, whatever follows that cannot continue a number. */
  lemma {:induction false} ValueReadsBack(v: Json, a: string)
    requires Ends(a)
    ensures ReadValue(Encode(v) + a) == Got(v, a)
    decreases v, 0
  {
    FirstIs(v, a);
    match v
    case Num(n) => NumberReadsBack(n, a);
    case Str(s) => QuotedReadsBack(s, a);
    case Arr(items) =>
      AfterFirst('[', EncodeItems(items), a);
      if items.Item? {
        ItemsReadBack(items, a);
        FirstIs(items.value, AfterItem(items.rest) + a);
      }
    case Obj(fields) =>
      AfterFirst('{', EncodeFields(fields), a);
      if fields.Field? {
        FieldsReadBack(fields, a);
        assert (EncodeFields(fields) + a)[0] == Quoted(fields.key)[0];
      }
  }

  lemma {:induction false} ItemsReadBack(q: Items, a: string)
    requires q.Item?
    ensures ReadItems(EncodeItems(q) + a) == Got(q, a)
    ensures EncodeItems(q) + a == Encode(q.value) + (AfterItem(q.rest) + a)
    decreases q, 1
  {
    var x := AfterItem(q.rest) + a;
    Reassociate(Encode(q.value), AfterItem(q.rest), a);
    assert x[0] == AfterItem(q.rest)[0];
    ValueReadsBack(q.value, x);
    if q.rest.NoItem? {
      AfterFirst(']', "", a);
      assert "" + a == a;
    } else {
      AfterFirst(',', EncodeItems(q.rest), a);
      ItemsReadBack(q.rest, a);
    }
  }

  lemma FieldSplits(q: Fields, a: string)
    requires q.Field?
    ensures EncodeFields(q) + a == Quoted(q.key) + (":" + (Encode(q.value) + (AfterField(q.rest) + a)))
  {
    var v, z := Encode(q.value), AfterField(q.rest);
    Reassociate(Quoted(q.key), ":" + (v + z), a);
    Reassociate(":", v + z, a);
    Reassociate(v, z, a);
  }

  lemma {:induction false} FieldsReadBack(q: Fields, a: string)
    requires q.Field?
    ensures ReadFields(EncodeFields(q) + a) == Got(q, a)
    decreases q, 1
  {
    var x := AfterField(q.rest) + a;
    var y := ":" + (Encode(q.value) + x);
    FieldSplits(q, a);
    QuotedReadsBack(q.key, y);
    assert y[1..] == Encode(q.value) + x;
    assert x[0] == AfterField(q.rest)[0];
    ValueReadsBack(q.value, x);
    if q.rest.NoField? {
      AfterFirst('}', "", a);
      assert "" + a == a;
    } else {
      AfterFirst(',', EncodeFields(q.rest), a);
      FieldsReadBack(q.rest, a);
    }
  }

  /** No encoding of a value is the start of another one, once numbers are followed by a delimiter. */
  lemma EncodingIsPrefixFree(v: Json, a: string, u: Json, b: string)
    requires Encode(v) + a == Encode(u) + b && Ends(a) && Ends(b)
    ensures v == u && a == b
  {
    ValueReadsBack(v, a);
    ValueReadsBack(u, b);
  }

  /** Different values have different encodings. */
  lemma EncodingIsInjective(v: Json, u: Json)
    requires Encode(v) == Encode(u)
    ensures v == u
  {
    assert Encode(v) + "" == Encode(v) && Encode(u) + "" == Encode(u);
    EncodingIsPrefixFree(v, "", u, "");
  }

  // ---- UTF-8 ----

  /** The bytes of one character. */
  function CharBytes(c: char): (s: seq<nat>)
    ensures s != []
  {
    var n := c as int;
    if n < 0x80 then [n]
    else if n < 0x800 then [0xC0 + n / 64, 0x80 + n % 64]
    else if n < 0x10000 then [0xE0 + n / 4096, 0x80 + n / 64 % 64, 0x80 + n % 64]
    else [0xF0 + n / 262144, 0x80 + n / 4096 % 64, 0x80 + n / 64 % 64, 0x80 + n % 64]
  }

  function Utf8(s: string): seq<nat> {
    if s == "" then [] else CharBytes(s[0]) + Utf8(s[1..])
  }

  predicate IsTail(b: nat) {
    0x80 <= b <= 0xBF
  }

  /** Characters are the code points up to 0x10FFFF without the surrogates. */
  function CharOf(n: nat): Option<char> {
    if n < 0xD800 || 0xE000 <= n < 0x110000 then Some(n as char) else None
  }

  /** Section 4 of RFC 3629: one character and its length; no sequence longer than needed, no surrogate. */
  function ReadPoint(b: seq<nat>): (r: Option<(char, nat)>)
    ensures r.Some? ==> 0 < r.value.1 <= |b|
  {
    if b == [] then None
    else
      var (n, k) :=
        if b[0] < 0x80 then (b[0], 1)
        else if 0xC2 <= b[0] <= 0xDF && |b| >= 2 && IsTail(b[1]) then ((b[0] - 0xC0) * 64 + (b[1] - 0x80), 2)
        else if 0xE0 <= b[0] <= 0xEF && |b| >= 3 && IsTail(b[1]) && IsTail(b[2]) then
          ((b[0] - 0xE0) * 4096 + (b[1] - 0x80) * 64 + (b[2] - 0x80), 3)
        else if 0xF0 <= b[0] <= 0xF4 && |b| >= 4 && IsTail(b[1]) && IsTail(b[2]) && IsTail(b[3]) then
          ((b[0] - 0xF0) * 262144 + (b[1] - 0x80) * 4096 + (b[2] - 0x80) * 64 + (b[3] - 0x80), 4)
        else (0, 0);
      if k == 0 || (k == 3 && n < 0x800) || (k == 4 && n < 0x10000) || CharOf(n).None? then None
      else Some((CharOf(n).value, k))
  }

  function ReadUtf8(b: seq<nat>): Option<string>
    decreases |b|
  {
    if b == [] then Some("")
    else
      match ReadPoint(b)
      case None => None
      case Some((c, k)) =>
        match ReadUtf8(b[k..])
        case None => None
        case Some(more) => Some([c] + more)
  }

  lemma Digits64(n: nat)
    ensures n == n / 4096 * 4096 + n / 64 % 64 * 64 + n % 64
    ensures n == n / 262144 * 262144 + n / 4096 % 64 * 4096 + n / 64 % 64 * 64 + n % 64
  {
    assert n / 4096 == n / 64 / 64 && n / 262144 == n / 4096 / 64;
  }

  lemma ShortPointReadsBack(c: char, a: seq<nat>)
    requires c as int < 0x800
    ensures ReadPoint(CharBytes(c) + a) == Some((c, |CharBytes(c)|))
  {
    var n, b := c as int, CharBytes(c) + a;
    assert b[0] == CharBytes(c)[0] && |b| >= |CharBytes(c)|;
    assert n >= 0x80 ==> b[1] == CharBytes(c)[1];
  }

  lemma ThreePointReadsBack(c: char, a: seq<nat>)
    requires 0x800 <= c as int < 0x10000
    ensures ReadPoint(CharBytes(c) + a) == Some((c, 3)) && |CharBytes(c)| == 3
  {
    var n, b := c as int, CharBytes(c) + a;
    assert b[0] == 0xE0 + n / 4096 && b[1] == 0x80 + n / 64 % 64 && b[2] == 0x80 + n % 64;
    Digits64(n);
  }

  lemma FourPointReadsBack(c: char, a: seq<nat>)
    requires 0x10000 <= c as int
    ensures ReadPoint(CharBytes(c) + a) == Some((c, 4)) && |CharBytes(c)| == 4
  {
    var n, b := c as int, CharBytes(c) + a;
    assert b[0] == 0xF0 + n / 262144 && b[1] == 0x80 + n / 4096 % 64 && b[2] == 0x80 + n / 64 % 64 && b[3] == 0x80 + n % 64;
    Digits64(n);
  }

  lemma PointReadsBack(c: char, a: seq<nat>)
    ensures ReadPoint(CharBytes(c) + a) == Some((c, |CharBytes(c)|))
  {
    if c as int < 0x800 {
      ShortPointReadsBack(c, a);
    } else if c as int < 0x10000 {
      ThreePointReadsBack(c, a);
    } else {
      FourPointReadsBack(c, a);
    }
  }

  /** Every text is read back from its bytes. */
  lemma {:induction false} Utf8ReadsBack(s: string)
    ensures ReadUtf8(Utf8(s)) == Some(s)
  {
    if s != "" {
      var x, a := CharBytes(s[0]), Utf8(s[1..]);
      PointReadsBack(s[0], a);
      Utf8ReadsBack(s[1..]);
      assert (x + a)[|x|..] == a;
      assert s == [s[0]] + s[1..];
    }
  }

  lemma Utf8IsInjective(s: string, t: string)
    requires Utf8(s) == Utf8(t)
    ensures s == t
  {
    Utf8ReadsBack(s);
    Utf8ReadsBack(t);
  }

  // ---- Identities ----

  datatype CompatibilitySpec = CompatibilitySpec(
    modelId: string,
    modelRevision: string,
    tokenizerRevision: string,
    chatTemplateVersion: string,
    prefixContractVersion: string,
    weightDtype: string,
    kvDtype: string,
    adapterNamespace: string,
    cacheNamespace: string,
    engineVersion: string,
    blockLayoutVersion: string)

  const IdentityVersion := "kv-prefix-identity-v1"
  const CompatibilityVersion := "kv-compat-v1"

  /** The fields, sorted by name. */
  function SpecPairs(c: CompatibilitySpec): seq<(string, string)> {
    [("adapter_namespace", c.adapterNamespace),
     ("block_layout_version", c.blockLayoutVersion),
     ("cache_namespace", c.cacheNamespace),
     ("chat_template_version", c.chatTemplateVersion),
     ("engine_version", c.engineVersion),
     ("kv_dtype", c.kvDtype),
     ("model_id", c.modelId),
     ("model_revision", c.modelRevision),
     ("prefix_contract_version", c.prefixContractVersion),
     ("tokenizer_revision", c.tokenizerRevision),
     ("weight_dtype", c.weightDtype)]
  }

  function TextFields(ps: seq<(string, string)>): Fields {
    if ps == [] then NoField else Field(ps[0].0, Str(ps[0].1), TextFields(ps[1..]))
  }

  function SpecFields(c: CompatibilitySpec): Fields {
    TextFields(SpecPairs(c))
  }

  function TokenItems(tokens: seq<int>): Items
    requires forall i :: 0 <= i < |tokens| ==> tokens[i] >= 0
  {
    if tokens == [] then NoItem else Item(Num(tokens[0]), TokenItems(tokens[1..]))
  }

  function NamespaceJson(c: CompatibilitySpec): Json {
    Obj(Field("compatibility", Obj(SpecFields(c)), Field("version", Str(CompatibilityVersion), NoField)))
  }

  function IdentityJson(tokens: seq<int>, c: CompatibilitySpec): Json
    requires forall i :: 0 <= i < |tokens| ==> tokens[i] >= 0
  {
    Obj(Field("compatibility", Obj(SpecFields(c)),
        Field("rendered_token_ids", Arr(TokenItems(tokens)),
        Field("version", Str(IdentityVersion), NoField))))
  }

  function CanonicalJson(v: Json): seq<nat> {
    Utf8(Encode(v))
  }

  lemma CanonicalIsInjective(v: Json, u: Json)
    ensures CanonicalJson(v) == CanonicalJson(u) <==> v == u
  {
    if CanonicalJson(v) == CanonicalJson(u) {
      Utf8IsInjective(Encode(v), Encode(u));
      EncodingIsInjective(v, u);
    }
  }

  lemma {:induction false} TokensAreInjective(a: seq<int>, b: seq<int>)
    requires forall i :: 0 <= i < |a| ==> a[i] >= 0
    requires forall i :: 0 <= i < |b| ==> b[i] >= 0
    requires TokenItems(a) == TokenItems(b)
    ensures a == b
  {
    if a == [] {
    } else {
      TokensAreInjective(a[1..], b[1..]);
      assert a == [a[0]] + a[1..] && b == [b[0]] + b[1..];
    }
  }

  datatype PrefixIdentity = PrefixIdentity(value: string, namespace: string, tokenCount: nat)

  datatype Built = Ok(id: PrefixIdentity) | NoTokens | NegativeToken

  function Namespace(sha: seq<nat> -> string, c: CompatibilitySpec): string {
    "kv-compat-v1:sha256:" + sha(CanonicalJson(NamespaceJson(c)))
  }

  predicate AllNonNegative(tokens: seq<int>) {
    forall i :: 0 <= i < |tokens| ==> tokens[i] >= 0
  }

  // ---- What the hashed text says ----

  /** The value of a name, the first if it were repeated. */
  function Named(q: Fields, name: string): Option<Json> {
    match q
    case NoField => None
    case Field(k, v, rest) => if k == name then Some(v) else Named(rest, name)
  }

  function CountFields(q: Fields): nat {
    if q.NoField? then 0 else 1 + CountFields(q.rest)
  }

  /** Each name comes before the next in the order of its characters. */
  predicate SortedNames(q: Fields) {
    q.Field? && q.rest.Field? ==> StringBefore(q.key, q.rest.key) && SortedNames(q.rest)
  }

  function ListOf(q: Items): seq<Json> {
    if q.NoItem? then [] else [q.value] + ListOf(q.rest)
  }

  /** The eleven fields under their own names. */
  predicate NamesSpec(q: Fields, c: CompatibilitySpec) {
    && CountFields(q) == 11 && SortedNames(q)
    && Named(q, "model_id") == Some(Str(c.modelId))
    && Named(q, "model_revision") == Some(Str(c.modelRevision))
    && Named(q, "tokenizer_revision") == Some(Str(c.tokenizerRevision))
    && Named(q, "chat_template_version") == Some(Str(c.chatTemplateVersion))
    && Named(q, "prefix_contract_version") == Some(Str(c.prefixContractVersion))
    && Named(q, "weight_dtype") == Some(Str(c.weightDtype))
    && Named(q, "kv_dtype") == Some(Str(c.kvDtype))
    && Named(q, "adapter_namespace") == Some(Str(c.adapterNamespace))
    && Named(q, "cache_namespace") == Some(Str(c.cacheNamespace))
    && Named(q, "engine_version") == Some(Str(c.engineVersion))
    && Named(q, "block_layout_version") == Some(Str(c.blockLayoutVersion))
  }

  lemma OneBefore(a: string, b: string, n: nat)
    requires n < |a| && n < |b| && a[..n] == b[..n] && a[n] < b[n]
    ensures StringBefore(a, b)
  {
    StringsCompare(a, b);
  }

  ghost predicate PairsSorted(ps: seq<(string, string)>) {
    forall j, k :: 0 <= j && k == j + 1 && k < |ps| ==> StringBefore(ps[j].0, ps[k].0)
  }

  lemma {:induction false} FirstIsLeast(ps: seq<(string, string)>, i: nat)
    requires PairsSorted(ps) && 0 < i < |ps|
    ensures StringBefore(ps[0].0, ps[i].0) && ps[0].0 != ps[i].0
  {
    var h := i - 1;
    assert StringBefore(ps[h].0, ps[i].0);
    if i > 1 {
      FirstIsLeast(ps, i - 1);
      StringsTransitive(ps[0].0, ps[h].0, ps[i].0);
    }
    StringsChain(ps[0].0, ps[i].0, "");
  }

  /** In sorted fields every name finds its own value. */
  lemma {:induction false} NamedAt(ps: seq<(string, string)>, i: nat)
    requires PairsSorted(ps) && i < |ps|
    ensures Named(TextFields(ps), ps[i].0) == Some(Str(ps[i].1))
  {
    if i > 0 {
      FirstIsLeast(ps, i);
      TailSorted(ps);
      NamedAt(ps[1..], i - 1);
    }
  }

  lemma TailSorted(ps: seq<(string, string)>)
    requires PairsSorted(ps) && ps != []
    ensures PairsSorted(ps[1..])
  {
    forall j, k | 0 <= j && k == j + 1 && k < |ps[1..]|
      ensures StringBefore(ps[1..][j].0, ps[1..][k].0)
    {
      var m := k + 1;
      assert StringBefore(ps[k].0, ps[m].0);
    }
  }

  lemma {:induction false} TextFieldsSorted(ps: seq<(string, string)>)
    requires PairsSorted(ps)
    ensures SortedNames(TextFields(ps)) && CountFields(TextFields(ps)) == |ps|
  {
    if ps != [] {
      TailSorted(ps);
      TextFieldsSorted(ps[1..]);
      if |ps| > 1 {
        assert StringBefore(ps[0].0, ps[1].0);
      }
    }
  }

  lemma PairBefore(c: CompatibilitySpec, j: nat, k: nat)
    requires k == j + 1 && k < 11
    ensures StringBefore(SpecPairs(c)[j].0, SpecPairs(c)[k].0)
  {
    var ps := SpecPairs(c);
    if j == 0 {
      OneBefore("adapter_namespace", "block_layout_version", 0);
    } else if j == 1 {
      OneBefore("block_layout_version", "cache_namespace", 0);
    } else if j == 2 {
      OneBefore("cache_namespace", "chat_template_version", 1);
    } else if j == 3 {
      OneBefore("chat_template_version", "engine_version", 0);
    } else if j == 4 {
      OneBefore("engine_version", "kv_dtype", 0);
    } else if j == 5 {
      OneBefore("kv_dtype", "model_id", 0);
    } else if j == 6 {
      OneBefore("model_id", "model_revision", 6);
    } else if j == 7 {
      OneBefore("model_revision", "prefix_contract_version", 0);
    } else if j == 8 {
      OneBefore("prefix_contract_version", "tokenizer_revision", 0);
    } else {
      OneBefore("tokenizer_revision", "weight_dtype", 0);
    }
  }

  lemma SpecSorted(c: CompatibilitySpec)
    ensures PairsSorted(SpecPairs(c))
  {
    var ps := SpecPairs(c);
    forall j, k | 0 <= j && k == j + 1 && k < |ps|
      ensures StringBefore(ps[j].0, ps[k].0)
    {
      PairBefore(c, j, k);
    }
  }

  lemma SpecIsNamed(c: CompatibilitySpec)
    ensures NamesSpec(SpecFields(c), c)
  {
    var ps := SpecPairs(c);
    SpecSorted(c);
    TextFieldsSorted(ps);
    NamedAt(ps, 0);
    NamedAt(ps, 1);
    NamedAt(ps, 2);
    NamedAt(ps, 3);
    NamedAt(ps, 4);
    NamedAt(ps, 5);
    NamedAt(ps, 6);
    NamedAt(ps, 7);
    NamedAt(ps, 8);
    NamedAt(ps, 9);
    NamedAt(ps, 10);
  }

  lemma {:induction false} TokensAreListed(tokens: seq<int>)
    requires AllNonNegative(tokens)
    ensures |ListOf(TokenItems(tokens))| == |tokens|
    ensures forall i :: 0 <= i < |tokens| ==> ListOf(TokenItems(tokens))[i] == Num(tokens[i])
  {
    if tokens != [] {
      TokensAreListed(tokens[1..]);
    }
  }

  /** The bytes are UTF-8 for a text that reads as an object with these fields, and nothing after it. */
  predicate ReadsAsObject(b: seq<nat>, q: Fields) {
    ReadUtf8(b).Some? && ReadValue(ReadUtf8(b).value) == Got(Obj(q), "")
  }

  lemma CanonicalReadsBack(q: Fields)
    ensures ReadsAsObject(CanonicalJson(Obj(q)), q)
  {
    var text := Encode(Obj(q));
    Utf8ReadsBack(text);
    ValueReadsBack(Obj(q), "");
    assert text + "" == text;
  }

  /** What is hashed for an identity: the version, the tokens in order and the eleven fields, under sorted names. */
  predicate TellsIdentity(q: Fields, tokens: seq<int>, c: CompatibilitySpec) {
    && CountFields(q) == 3 && SortedNames(q)
    && Named(q, "version") == Some(Str("kv-prefix-identity-v1"))
    && (match Named(q, "rendered_token_ids")
        case Some(Arr(items)) =>
          |ListOf(items)| == |tokens| && forall i :: 0 <= i < |tokens| ==> tokens[i] >= 0 && ListOf(items)[i] == Num(tokens[i])
        case _ => false)
    && (match Named(q, "compatibility")
        case Some(Obj(fields)) => NamesSpec(fields, c)
        case _ => false)
  }

  /** What is hashed for a namespace: the version and the eleven fields. */
  predicate TellsNamespace(q: Fields, c: CompatibilitySpec) {
    && CountFields(q) == 2 && SortedNames(q)
    && Named(q, "version") == Some(Str("kv-compat-v1"))
    && (match Named(q, "compatibility")
        case Some(Obj(fields)) => NamesSpec(fields, c)
        case _ => false)
  }

  lemma IdentityIsTold(tokens: seq<int>, c: CompatibilitySpec)
    requires AllNonNegative(tokens)
    ensures TellsIdentity(IdentityJson(tokens, c).fields, tokens, c)
  {
    SpecIsNamed(c);
    TokensAreListed(tokens);
    OneBefore("compatibility", "rendered_token_ids", 0);
    OneBefore("rendered_token_ids", "version", 0);
    var q := IdentityJson(tokens, c).fields;
    assert |"compatibility"| == 13 && |"rendered_token_ids"| == 18 && |"version"| == 7;
    assert Named(q, "compatibility") == Some(Obj(SpecFields(c)));
    assert Named(q, "rendered_token_ids") == Named(q.rest, "rendered_token_ids") == Some(Arr(TokenItems(tokens)));
    assert Named(q, "version") == Named(q.rest, "version") == Named(q.rest.rest, "version") == Some(Str(IdentityVersion));
    assert CountFields(q) == 1 + CountFields(q.rest) && CountFields(q.rest) == 1 + CountFields(q.rest.rest);
  }

  lemma NamespaceIsTold(c: CompatibilitySpec)
    ensures TellsNamespace(NamespaceJson(c).fields, c)
  {
    SpecIsNamed(c);
    OneBefore("compatibility", "version", 0);
    assert |"compatibility"| == 13 && |"version"| == 7;
  }

  ghost predicate HashesIdentity(sha: seq<nat> -> string, value: string, tokens: seq<int>, c: CompatibilitySpec) {
    exists b, q :: value == "sha256:" + sha(b) && ReadsAsObject(b, q) && TellsIdentity(q, tokens, c)
  }

  ghost predicate HashesNamespace(sha: seq<nat> -> string, namespace: string, c: CompatibilitySpec) {
    exists b, q :: namespace == "kv-compat-v1:sha256:" + sha(b) && ReadsAsObject(b, q) && TellsNamespace(q, c)
  }

  /**
   * Building is exact: no token and a negative token are told apart and refused; otherwise the value is the hash of a
   * text that reads back as the tokens and the fields, the namespace that of the fields alone, with the number of tokens.
   */
  lemma BuildIsExact(sha: seq<nat> -> string, tokens: seq<int>, c: CompatibilitySpec)
    ensures match Build(sha, tokens, c)
            case NoTokens => |tokens| == 0
            case NegativeToken => exists i :: 0 <= i < |tokens| && tokens[i] < 0
            case Ok(id) =>
              && |tokens| > 0 && (forall i :: 0 <= i < |tokens| ==> tokens[i] >= 0) && id.tokenCount == |tokens|
              && HashesIdentity(sha, id.value, tokens, c) && HashesNamespace(sha, id.namespace, c)
  {
    if Build(sha, tokens, c).Ok? {
      var q, n := IdentityJson(tokens, c).fields, NamespaceJson(c).fields;
      var b, m := CanonicalJson(Obj(q)), CanonicalJson(Obj(n));
      CanonicalReadsBack(q);
      CanonicalReadsBack(n);
      IdentityIsTold(tokens, c);
      NamespaceIsTold(c);
      var id := Build(sha, tokens, c).id;
      assert id.value == "sha256:" + sha(b) && id.namespace == "kv-compat-v1:sha256:" + sha(m);
    }
  }

  /** `PrefixIdentity.build`. */
  function Build(sha: seq<nat> -> string, tokens: seq<int>, c: CompatibilitySpec): (r: Built)
    ensures r.Ok? <==> tokens != [] && AllNonNegative(tokens)
  {
    if tokens == [] then NoTokens
    else if !AllNonNegative(tokens) then NegativeToken
    else Ok(PrefixIdentity("sha256:" + sha(CanonicalJson(IdentityJson(tokens, c))), Namespace(sha, c), |tokens|))
  }

  /** Two inputs are told apart by the hash. */
  predicate NoCollision(sha: seq<nat> -> string, x: seq<nat>, y: seq<nat>) {
    sha(x) == sha(y) ==> x == y
  }

  /** Up to a hash collision, identities are equal if and only if tokens and compatibility fields are. */
  lemma EqualIdentitiesIff(sha: seq<nat> -> string, a: seq<int>, c: CompatibilitySpec, b: seq<int>, d: CompatibilitySpec)
    requires Build(sha, a, c).Ok? && Build(sha, b, d).Ok?
    requires NoCollision(sha, CanonicalJson(IdentityJson(a, c)), CanonicalJson(IdentityJson(b, d)))
    ensures Build(sha, a, c).id.value == Build(sha, b, d).id.value <==> a == b && c == d
    ensures Build(sha, a, c) == Build(sha, b, d) <==> a == b && c == d
  {
    var p := "sha256:";
    var x, y := CanonicalJson(IdentityJson(a, c)), CanonicalJson(IdentityJson(b, d));
    if Build(sha, a, c).id.value == Build(sha, b, d).id.value {
      assert sha(x) == (p + sha(x))[|p|..] && sha(y) == (p + sha(y))[|p|..];
      CanonicalIsInjective(IdentityJson(a, c), IdentityJson(b, d));
      assert SpecFields(c) == SpecFields(d);
      TokensAreInjective(a, b);
      SpecsAreInjective(c, d);
    }
  }

  lemma SpecsAreInjective(c: CompatibilitySpec, d: CompatibilitySpec)
    requires SpecFields(c) == SpecFields(d)
    ensures c == d
  {
    SpecIsNamed(c);
    SpecIsNamed(d);
  }

  lemma EqualNamespacesIff(sha: seq<nat> -> string, c: CompatibilitySpec, d: CompatibilitySpec)
    requires NoCollision(sha, CanonicalJson(NamespaceJson(c)), CanonicalJson(NamespaceJson(d)))
    ensures Namespace(sha, c) == Namespace(sha, d) <==> c == d
  {
    var p := "kv-compat-v1:sha256:";
    var x, y := sha(CanonicalJson(NamespaceJson(c))), sha(CanonicalJson(NamespaceJson(d)));
    if Namespace(sha, c) == Namespace(sha, d) {
      assert x == (p + x)[|p|..] && y == (p + y)[|p|..];
      CanonicalIsInjective(NamespaceJson(c), NamespaceJson(d));
      SpecsAreInjective(c, d);
    }
  }

  /** What is hashed for an identity is never what is hashed for a namespace. */
  lemma DomainsAreSeparate(tokens: seq<int>, c: CompatibilitySpec, d: CompatibilitySpec)
    requires AllNonNegative(tokens)
    ensures CanonicalJson(IdentityJson(tokens, c)) != CanonicalJson(NamespaceJson(d))
  {
    CanonicalIsInjective(IdentityJson(tokens, c), NamespaceJson(d));
  }
}
