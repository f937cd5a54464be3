/**
 * JSON trees, the compact printer `json.dumps(..., separators=(",", ":"), ensure_ascii=False)`
 * and the reader `json.loads` (RFC 8259, sections 2 to 7). Main result: `ParsePrint`.
 */
module Json {
  import opened Text
  import opened Wrappers

  // ---- Number tokens (section 6 of RFC 8259) ------------------------------

  /** Length of the leading run of digits. */
  function DigitRun(s: string): (n: nat)
    ensures n <= |s|
  {
    if s == "" || !IsDigit(s[0]) then 0 else 1 + DigitRun(s[1..])
  }

  /** `-?(0|[1-9][0-9]*)`, or 0 when `s` does not start with an integer part. */
  function IntLen(s: string): (n: nat)
    ensures n <= |s|
  {
    var sign := if s != "" && s[0] == '-' then 1 else 0;
    if sign == |s| || !IsDigit(s[sign]) then 0
    else if s[sign] == '0' then sign + 1
    else sign + DigitRun(s[sign..])
  }

  function FracLen(s: string): (n: nat)
    ensures n <= |s|
  {
    if |s| >= 2 && s[0] == '.' && IsDigit(s[1]) then 1 + DigitRun(s[1..]) else 0
  }

  function ExpLen(s: string): (n: nat)
    ensures n <= |s|
  {
    if s == "" || (s[0] != 'e' && s[0] != 'E') then 0
    else
      var sign := if |s| > 1 && (s[1] == '+' || s[1] == '-') then 1 else 0;
      var digits := DigitRun(s[1 + sign..]);
      if digits == 0 then 0 else 1 + sign + digits
  }

  datatype NumberToken = NumberToken(len: nat, isFloat: bool)

  /** The longest number token at the start of `s`; an exponent or fraction makes it a float. */
  function ScanNumber(s: string): (t: NumberToken)
    ensures t.len <= |s|
  {
    var i := IntLen(s);
    if i == 0 then NumberToken(0, false)
    else
      var f := FracLen(s[i..]);
      var e := ExpLen(s[i + f..]);
      NumberToken(i + f + e, f + e > 0)
  }

  predicate IsFloatLexeme(s: string) { s != "" && ScanNumber(s) == NumberToken(|s|, true) }

  /** The text `repr` gives a finite float; the float itself is not modelled. */
  type FloatLexeme = s: string | IsFloatLexeme(s) witness "0.0"

  // ---- Trees --------------------------------------------------------------

  datatype Scalar = Null | Bool(b: bool) | Int(i: int) | Float(lexeme: FloatLexeme) | Str(s: string)

  datatype Json = Leaf(scalar: Scalar) | Arr(items: seq<Json>) | Obj(fields: seq<Field>)

  /** An object's members in order: a Python dict keeps insertion order. */
  datatype Field = Field(key: string, val: Json)

  predicate HasKey(fields: seq<Field>, key: string) { exists f | f in fields :: f.key == key }

  /** The value a dict built from these pairs holds for `key`: the last one given. */
  function Get(fields: seq<Field>, key: string): (r: Option<Json>)
    ensures r.Some? <==> HasKey(fields, key)
  {
    if fields == [] then None
    else if Get(fields[1..], key).Some? then Get(fields[1..], key)
    else if fields[0].key == key then Some(fields[0].val)
    else None
  }

  function Without(fields: seq<Field>, key: string): (r: seq<Field>)
    ensures forall k | k != key :: HasKey(r, k) <==> HasKey(fields, k)
    ensures !HasKey(r, key)
    ensures |r| <= |fields|
  {
    if fields == [] then []
    else if fields[0].key == key then Without(fields[1..], key)
    else
      var r := Without(fields[1..], key);
      assert forall k :: HasKey([fields[0]] + r, k) <==> k == fields[0].key || HasKey(r, k);
      assert forall k :: HasKey(fields, k) <==> k == fields[0].key || HasKey(fields[1..], k);
      [fields[0]] + r
  }

  /** `{k: v for k, v in pairs}`: a repeated key keeps its first place and its last value. */
  function DictOf(pairs: seq<Field>): (d: seq<Field>)
    ensures forall k :: HasKey(d, k) <==> HasKey(pairs, k)
    ensures |d| <= |pairs|
  {
    if pairs == [] then []
    else
      var d := DictOf(pairs[1..]);
      var k := pairs[0].key;
      assert forall k' :: HasKey(pairs, k') <==> k' == k || HasKey(pairs[1..], k');
      if HasKey(d, k) then
        var r := Without(d, k);
        assert forall k' :: HasKey([Field(k, Get(d, k).value)] + r, k') <==> k' == k || HasKey(r, k');
        [Field(k, Get(d, k).value)] + r
      else
        assert forall k' :: HasKey([pairs[0]] + d, k') <==> k' == k || HasKey(d, k');
        [pairs[0]] + d
  }

  /** No object in the tree repeats a key. */
  predicate DistinctKeys(j: Json)
    decreases j, 0
  {
    match j
    case Leaf(_) => true
    case Arr(items) => forall i | 0 <= i < |items| :: DistinctKeys(items[i])
    case Obj(fields) => DistinctFields(fields)
  }

  predicate DistinctFields(fields: seq<Field>)
    decreases fields
  {
    fields == [] ||
    (!HasKey(fields[1..], fields[0].key) && DistinctKeys(fields[0].val) && DistinctFields(fields[1..]))
  }

  predicate DistinctNames(fields: seq<Field>) {
    fields == [] || (!HasKey(fields[1..], fields[0].key) && DistinctNames(fields[1..]))
  }

  /** The tree `json.loads` builds: every object becomes a dict, in which a repeated key keeps its last value. */
  function Rebuilt(j: Json): Json
    decreases j
  {
    match j
    case Leaf(_) => j
    case Arr(items) => Arr(RebuiltItems(items))
    case Obj(fields) => Obj(DictOf(RebuiltFields(fields)))
  }

  function RebuiltItems(items: seq<Json>): (r: seq<Json>)
    ensures |r| == |items|
    decreases items
  {
    if items == [] then [] else [Rebuilt(items[0])] + RebuiltItems(items[1..])
  }

  function RebuiltFields(fields: seq<Field>): (r: seq<Field>)
    ensures |r| == |fields| && forall i | 0 <= i < |fields| :: r[i].key == fields[i].key
    decreases fields
  {
    if fields == [] then [] else [Field(fields[0].key, Rebuilt(fields[0].val))] + RebuiltFields(fields[1..])
  }

  // ---- Printer ------------------------------------------------------------

  function HexChar(d: nat): char
    requires d < 16
  {
    if d < 10 then DigitChar(d) else ('a' as int + (d - 10)) as char
  }

  function HexValue(c: char): (r: Option<nat>)
    ensures r.Some? ==> r.value < 16
  {
    if IsDigit(c) then Some(DigitValue(c))
    else if 'a' <= c <= 'f' then Some(c as int - 'a' as int + 10)
    else if 'A' <= c <= 'F' then Some(c as int - 'A' as int + 10)
    else None
  }

  function EscapeChar(c: char): string {
    if c == '\"' then "\\\""
    else if c == '\\' then "\\\\"
    else if c == '\n' then "\\n"
    else if c == '\r' then "\\r"
    else if c == '\t' then "\\t"
    else if c == 8 as char then "\\b"
    else if c == 12 as char then "\\f"
    else if c < ' ' then "\\u00" + [HexChar(c as int / 16), HexChar(c as int % 16)]
    else [c]
  }

  function Escape(s: string): string {
    if s == "" then "" else EscapeChar(s[0]) + Escape(s[1..])
  }

  function Quote(s: string): string { "\"" + Escape(s) + "\"" }

  function PrintScalar(v: Scalar): string {
    match v
    case Null => "null"
    case Bool(b) => if b then "true" else "false"
    case Int(i) => PrintInt(i)
    case Float(lexeme) => lexeme
    case Str(s) => Quote(s)
  }

  function Print(j: Json): string
    decreases j
  {
    match j
    case Leaf(v) => PrintScalar(v)
    case Arr(items) => "[" + PrintItems(items) + "]"
    case Obj(fields) => "{" + PrintFields(fields) + "}"
  }

  function PrintItems(items: seq<Json>): string
    decreases items
  {
    if items == [] then ""
    else if |items| == 1 then Print(items[0])
    else Print(items[0]) + "," + PrintItems(items[1..])
  }

  function PrintFields(fields: seq<Field>): string
    decreases fields
  {
    if fields == [] then ""
    else
      var f := fields[0];
      var first := Quote(f.key) + ":" + Print(f.val);
      if |fields| == 1 then first else first + "," + PrintFields(fields[1..])
  }

  // ---- Reader -------------------------------------------------------------

  datatype Parsed<+T> = Fail | Read(value: T, rest: string)

  function SkipWs(s: string): (r: string)
    ensures |r| <= |s|
  {
    if s != "" && s[0] in {' ', '\t', '\n', '\r'} then SkipWs(s[1..]) else s
  }

  /** Four hex digits. */
  function Hex4(s: string): (r: Option<nat>)
    ensures r.Some? ==> |s| >= 4 && r.value < 0x10000
  {
    if |s| < 4 then None
    else
      match (HexValue(s[0]), HexValue(s[1]), HexValue(s[2]), HexValue(s[3]))
      case (Some(a), Some(b), Some(c), Some(d)) => Some(((a * 16 + b) * 16 + c) * 16 + d)
      case _ => None
  }

  /** `\uXXXX`, joining a surrogate pair; a lone surrogate is not a character here. */
  function ReadUnicode(s: string): (r: Parsed<char>)
    ensures r.Read? ==> |r.rest| < |s|
  {
    match Hex4(s)
    case None => Fail
    case Some(u) =>
      if u < 0xD800 || u >= 0xE000 then Read(u as char, s[4..])
      else if u < 0xDC00 && |s| >= 10 && s[4] == '\\' && s[5] == 'u' then
        match Hex4(s[6..])
        case Some(v) =>
          if 0xDC00 <= v < 0xE000
          then Read((0x10000 + (u - 0xD800) * 0x400 + (v - 0xDC00)) as char, s[10..])
          else Fail
        case None => Fail
      else Fail
  }

  function ReadEscape(s: string): (r: Parsed<char>)
    ensures r.Read? ==> |r.rest| < |s|
  {
    if s == "" then Fail
    else
      match s[0]
      case '\"' => Read('\"', s[1..])
      case '\\' => Read('\\', s[1..])
      case '/' => Read('/', s[1..])
      case 'n' => Read('\n', s[1..])
      case 'r' => Read('\r', s[1..])
      case 't' => Read('\t', s[1..])
      case 'b' => Read(8 as char, s[1..])
      case 'f' => Read(12 as char, s[1..])
      case 'u' => ReadUnicode(s[1..])
      case _ => Fail
  }

  /** The rest of a string literal, after its opening quote. */
  function ReadString(s: string): (r: Parsed<string>)
    ensures r.Read? ==> |r.rest| < |s|
  {
    if s == "" || s[0] < ' ' then Fail
    else if s[0] == '\"' then Read("", s[1..])
    else
      var head := if s[0] == '\\' then ReadEscape(s[1..]) else Read(s[0], s[1..]);
      match head
      case Fail => Fail
      case Read(c, rest) =>
        match ReadString(rest)
        case Fail => Fail
        case Read(cs, rest') => Read([c] + cs, rest')
  }

  function IntOf(lexeme: string): int {
    if lexeme != "" && lexeme[0] == '-' then -NatOf(lexeme[1..]) else NatOf(lexeme)
  }

  /** A number token scans to itself. */
  lemma ScanPrefix(s: string)
    ensures ScanNumber(s[..ScanNumber(s).len]) == ScanNumber(s)
  {
    hide IntLen, FracLen, ExpLen, DigitRun;
    var i := IntLen(s);
    if i > 0 {
      var f := FracLen(s[i..]);
      var e := ExpLen(s[i + f..]);
      var p := s[..i + f + e];
      IntLenPrefix(s, i + f + e);
      FracLenPrefix(s[i..], f + e);
      assert s[i..][..f + e] == p[i..];
      ExpLenPrefix(s[i + f..]);
      assert s[i + f..][..e] == p[i + f..];
    } else {
      assert ScanNumber(s).len == 0;
      IntLenEmpty();
    }
  }

  lemma IntLenEmpty()
    ensures IntLen("") == 0
  {
  }

  lemma {:induction false} DigitRunPrefix(s: string, n: nat)
    requires n <= |s|
    ensures DigitRun(s[..n]) == if n <= DigitRun(s) then n else DigitRun(s)
  {
    if n > 0 && IsDigit(s[0]) {
      DigitRunPrefix(s[1..], n - 1);
      assert s[..n][1..] == s[1..][..n - 1];
    }
  }

  lemma IntLenPrefix(s: string, n: nat)
    requires IntLen(s) <= n <= |s|
    ensures IntLen(s) > 0 ==> IntLen(s[..n]) == IntLen(s)
  {
    var sign := if s != "" && s[0] == '-' then 1 else 0;
    if IntLen(s) > 0 && s[sign] != '0' {
      DigitRunPrefix(s[sign..], n - sign);
      assert s[..n][sign..] == s[sign..][..n - sign];
    }
  }

  lemma FracLenPrefix(s: string, n: nat)
    requires FracLen(s) <= n <= |s|
    ensures FracLen(s[..n]) == FracLen(s)
  {
    if n >= 1 {
      assert s[..n][1..] == s[1..][..n - 1];
      DigitRunPrefix(s[1..], n - 1);
    }
  }

  lemma ExpLenPrefix(s: string)
    ensures ExpLen(s[..ExpLen(s)]) == ExpLen(s)
  {
    var n := ExpLen(s);
    if n > 0 {
      var sign := if |s| > 1 && (s[1] == '+' || s[1] == '-') then 1 else 0;
      assert s[..n][1 + sign..] == s[1 + sign..][..n - 1 - sign];
      DigitRunPrefix(s[1 + sign..], n - 1 - sign);
    }
  }

  function ReadNumber(s: string): (r: Parsed<Scalar>)
    ensures r.Read? ==> |r.rest| < |s|
  {
    var t := ScanNumber(s);
    ScanPrefix(s);
    if t.len == 0 then Fail
    else if t.isFloat then Read(Float(s[..t.len]), s[t.len..])
    else Read(Int(IntOf(s[..t.len])), s[t.len..])
  }

  function ReadValue(s: string): (r: Parsed<Json>)
    ensures r.Read? ==> |r.rest| < |s|
    decreases |s|, 0
  {
    var t := SkipWs(s);
    if t == "" then Fail
    else if t[0] == '\"' then
      match ReadString(t[1..])
      case Fail => Fail
      case Read(str, rest) => Read(Leaf(Str(str)), rest)
    else if t[0] == '[' then
      var u := SkipWs(t[1..]);
      if u != "" && u[0] == ']' then Read(Arr([]), u[1..])
      else
        match ReadItems(u)
        case Fail => Fail
        case Read(items, rest) => Read(Arr(items), rest)
    else if t[0] == '{' then
      var u := SkipWs(t[1..]);
      if u != "" && u[0] == '}' then Read(Obj([]), u[1..])
      else
        match ReadMembers(u)
        case Fail => Fail
        case Read(pairs, rest) => Read(Obj(DictOf(pairs)), rest)
    else if "null" <= t then Read(Leaf(Null), t[4..])
    else if "true" <= t then Read(Leaf(Bool(true)), t[4..])
    else if "false" <= t then Read(Leaf(Bool(false)), t[5..])
    else
      match ReadNumber(t)
      case Fail => Fail
      case Read(n, rest) => Read(Leaf(n), rest)
  }

  /** One or more array elements and the closing bracket. */
  function ReadItems(s: string): (r: Parsed<seq<Json>>)
    ensures r.Read? ==> |r.rest| < |s|
    decreases |s|, 1
  {
    match ReadValue(s)
    case Fail => Fail
    case Read(v, rest) =>
      var t := SkipWs(rest);
      if t == "" then Fail
      else if t[0] == ']' then Read([v], t[1..])
      else if t[0] != ',' then Fail
      else
        match ReadItems(t[1..])
        case Fail => Fail
        case Read(vs, rest') => Read([v] + vs, rest')
  }

  /** One or more members, as pairs in text order, and the closing brace. */
  function ReadMembers(s: string): (r: Parsed<seq<Field>>)
    ensures r.Read? ==> |r.rest| < |s|
    decreases |s|, 1
  {
    var t := SkipWs(s);
    if t == "" || t[0] != '\"' then Fail
    else
      match ReadString(t[1..])
      case Fail => Fail
      case Read(key, afterKey) =>
        var colon := SkipWs(afterKey);
        if colon == "" || colon[0] != ':' then Fail
        else
          match ReadValue(colon[1..])
          case Fail => Fail
          case Read(v, rest) =>
            var u := SkipWs(rest);
            if u == "" then Fail
            else if u[0] == '}' then Read([Field(key, v)], u[1..])
            else if u[0] != ',' then Fail
            else
              match ReadMembers(u[1..])
              case Fail => Fail
              case Read(fs, rest') => Read([Field(key, v)] + fs, rest')
  }

  /** `json.loads`. */
  function Loads(s: string): Option<Json> {
    match ReadValue(s)
    case Fail => None
    case Read(j, rest) => if SkipWs(rest) == "" then Some(j) else None
  }

  // ---- The reader inverts the printer -------------------------------------

  /** What can follow a value in printed text. */
  predicate Delimited(rest: string) { rest == "" || rest[0] in {',', ']', '}'} }

  lemma {:induction false} DigitRunAppend(s: string, rest: string)
    requires rest == "" || !IsDigit(rest[0])
    ensures DigitRun(s + rest) == DigitRun(s)
  {
    if s == "" {
      assert s + rest == rest;
    } else {
      assert (s + rest)[1..] == s[1..] + rest;
      DigitRunAppend(s[1..], rest);
    }
  }

  lemma ScanAppend(s: string, rest: string)
    requires s != "" && ScanNumber(s).len == |s| && Delimited(rest)
    ensures ScanNumber(s + rest) == ScanNumber(s)
  {
    hide IntLen, FracLen, ExpLen, DigitRun;
    var i := IntLen(s);
    IntAppend(s, rest);
    assert (s + rest)[i..] == s[i..] + rest;
    FracAppend(s[i..], rest);
    var f := FracLen(s[i..]);
    assert (s + rest)[i + f..] == s[i + f..] + rest;
    ExpAppend(s[i + f..], rest);
  }

  lemma IntAppend(s: string, rest: string)
    requires IntLen(s) > 0 && Delimited(rest)
    ensures IntLen(s + rest) == IntLen(s)
  {
    var sign := if s[0] == '-' then 1 else 0;
    assert (s + rest)[sign..] == s[sign..] + rest;
    DigitRunAppend(s[sign..], rest);
  }

  lemma FracAppend(s: string, rest: string)
    requires Delimited(rest)
    ensures FracLen(s + rest) == FracLen(s)
  {
    if s == "" {
      assert s + rest == rest;
    } else {
      assert (s + rest)[1..] == s[1..] + rest;
      DigitRunAppend(s[1..], rest);
    }
  }

  lemma ExpAppend(s: string, rest: string)
    requires Delimited(rest)
    ensures ExpLen(s + rest) == ExpLen(s)
  {
    if s == "" {
      assert s + rest == rest;
    } else {
      var sign := if |s| > 1 && (s[1] == '+' || s[1] == '-') then 1 else 0;
      assert (s + rest)[1 + sign..] == s[1 + sign..] + rest;
      DigitRunAppend(s[1 + sign..], rest);
    }
  }

  lemma {:induction false} DigitRunAll(s: string)
    requires AllDigits(s)
    ensures DigitRun(s) == |s|
  {
    if s != "" {
      DigitRunAll(s[1..]);
    }
  }

  lemma ReadPrintedInt(i: int, rest: string)
    requires Delimited(rest)
    ensures ReadNumber(PrintInt(i) + rest) == Read(Int(i), rest)
  {
    var lex := PrintInt(i);
    var digits := PrintNat(if i < 0 then -i else i);
    DigitRunAll(digits);
    NatOfPrintNat(if i < 0 then -i else i);
    assert lex[if i < 0 then 1 else 0..] == digits;
    assert IntLen(lex) == |lex|;
    assert lex[|lex|..] == "";
    ScanAppend(lex, rest);
    assert (lex + rest)[..|lex|] == lex && (lex + rest)[|lex|..] == rest;
  }

  lemma ReadPrintedFloat(lexeme: FloatLexeme, rest: string)
    requires Delimited(rest)
    ensures ReadNumber(lexeme + rest) == Read(Float(lexeme), rest)
  {
    hide DigitRun, IntLen, FracLen, ExpLen;
    ScanAppend(lexeme, rest);
    assert (lexeme + rest)[..|lexeme|] == lexeme && (lexeme + rest)[|lexeme|..] == rest;
  }

  lemma {:induction false} ReadQuoted(s: string, rest: string)
    ensures ReadString(Escape(s) + "\"" + rest) == Read(s, rest)
  {
    hide ReadString, EscapeChar;
    if s == "" {
      assert Escape(s) + "\"" + rest == "\"" + rest;
      ReadClosingQuote(rest);
    } else {
      var c, tail := s[0], Escape(s[1..]) + "\"" + rest;
      assert Escape(s) + "\"" + rest == EscapeChar(c) + tail;
      ReadQuoted(s[1..], rest);
      assert s == [c] + s[1..];
      ReadEscapedChar(c, tail);
    }
  }

  lemma ReadClosingQuote(rest: string)
    ensures ReadString("\"" + rest) == Read("", rest)
  {
    assert ("\"" + rest)[1..] == rest;
  }

  lemma ReadEscapedChar(c: char, tail: string)
    requires ReadString(tail).Read?
    ensures ReadString(EscapeChar(c) + tail) == Read([c] + ReadString(tail).value, ReadString(tail).rest)
  {
    hide ReadEscape, ReadString;
    var e := EscapeChar(c);
    var t := e + tail;
    if |e| == 1 {
      assert t[1..] == tail;
      ReadPlain(t);
    } else {
      assert t[1..] == e[1..] + tail;
      if |e| == 2 {
        ReadShort(c, tail);
      } else {
        ReadControl(c, tail);
      }
      ReadAfterBackslash(t, c, tail);
    }
  }

  lemma ReadPlain(t: string)
    requires t != "" && t[0] >= ' ' && t[0] !in {'\"', '\\'} && ReadString(t[1..]).Read?
    ensures ReadString(t) == Read([t[0]] + ReadString(t[1..]).value, ReadString(t[1..]).rest)
  {
    hide ReadEscape;
  }

  lemma ReadAfterBackslash(t: string, c: char, tail: string)
    requires t != "" && t[0] == '\\' && ReadEscape(t[1..]) == Read(c, tail) && ReadString(tail).Read?
    ensures ReadString(t) == Read([c] + ReadString(tail).value, ReadString(tail).rest)
  {
    hide ReadEscape;
  }

  lemma ReadShort(c: char, tail: string)
    requires |EscapeChar(c)| == 2
    ensures ReadEscape(EscapeChar(c)[1..] + tail) == Read(c, tail)
  {
    hide ReadUnicode;
    var u := EscapeChar(c)[1..] + tail;
    assert u[1..] == tail;
  }

  /** A control character comes back from its four hex digits. */
  lemma ReadControl(c: char, tail: string)
    requires |EscapeChar(c)| == 6
    ensures ReadEscape(EscapeChar(c)[1..] + tail) == Read(c, tail)
  {
    hide ReadString, HexChar;
    var n := c as int;
    var u := (EscapeChar(c)[1..] + tail)[1..];
    assert EscapeChar(c) == ['\\', 'u', '0', '0', HexChar(n / 16), HexChar(n % 16)];
    assert u[0] == '0' && u[1] == '0' && u[2] == HexChar(n / 16) && u[3] == HexChar(n % 16);
    HexDigits(n / 16);
    HexDigits(n % 16);
    assert HexValue('0') == Some(0);
    assert Hex4(u) == Some(n);
    assert u[4..] == tail;
  }

  lemma HexDigits(d: nat)
    requires d < 16
    ensures HexValue(HexChar(d)) == Some(d)
  {
  }

  /** Printed text starts with a character that is not white space. */
  lemma PrintStarts(j: Json, rest: string)
    ensures var t := Print(j) + rest;
            Print(j) != "" && SkipWs(t) == t && t[0] !in {']', '}', ',', ':'}
  {
    if j.Leaf? && j.scalar.Float? {
      assert IntLen(j.scalar.lexeme) > 0;
    }
  }

  /** Reading printed text gives the tree back, its objects as dicts, and stops exactly where the text ended. */
  lemma {:induction false} ReadPrint(j: Json, rest: string)
    requires Delimited(rest)
    ensures ReadValue(Print(j) + rest) == Read(Rebuilt(j), rest)
    decreases j, 0
  {
    hide ReadValue, DictOf, PrintItems, PrintFields, PrintScalar, RebuiltItems, RebuiltFields;
    match j {
      case Leaf(v) => ReadPrintedScalar(v, rest);
      case Arr(items) =>
        assert Print(j) + rest == "[" + (PrintItems(items) + ("]" + rest));
        if items == [] {
          ReadEmptyArray(rest);
        } else {
          ReadPrintItems(items, rest);
          PrintItemsStart(items, "]" + rest);
          ReadArray(PrintItems(items) + ("]" + rest));
        }
      case Obj(fields) =>
        assert Print(j) + rest == "{" + (PrintFields(fields) + ("}" + rest));
        if fields == [] {
          ReadEmptyObject(rest);
        } else {
          ReadPrintFields(fields, rest);
          ReadObject(PrintFields(fields) + ("}" + rest));
        }
    }
  }

  lemma ReadEmptyArray(rest: string)
    ensures ReadValue("[" + (PrintItems([]) + ("]" + rest))) == Read(Arr(RebuiltItems([])), rest)
  {
    hide ReadItems, ReadMembers, ReadNumber, ReadString, DictOf;
    var t := "[" + (PrintItems([]) + ("]" + rest));
    PrintEmpty();
    assert t[1..] == "]" + rest && ("]" + rest)[1..] == rest;
  }

  lemma ReadEmptyObject(rest: string)
    ensures ReadValue("{" + (PrintFields([]) + ("}" + rest))) == Read(Obj(DictOf(RebuiltFields([]))), rest)
  {
    hide ReadItems, ReadMembers, ReadNumber, ReadString;
    var t := "{" + (PrintFields([]) + ("}" + rest));
    PrintEmpty();
    assert t[1..] == "}" + rest && ("}" + rest)[1..] == rest;
  }

  lemma ReadArray(u: string)
    requires SkipWs(u) == u && u != "" && u[0] != ']' && ReadItems(u).Read?
    ensures ReadValue("[" + u) == Read(Arr(ReadItems(u).value), ReadItems(u).rest)
  {
    hide ReadItems, ReadMembers, ReadNumber, ReadString, DictOf;
    assert ("[" + u)[1..] == u;
  }

  lemma ReadObject(u: string)
    requires SkipWs(u) == u && u != "" && u[0] != '}' && ReadMembers(u).Read?
    ensures ReadValue("{" + u) == Read(Obj(DictOf(ReadMembers(u).value)), ReadMembers(u).rest)
  {
    hide ReadItems, ReadMembers, ReadNumber, ReadString, DictOf;
    assert ("{" + u)[1..] == u;
  }

  lemma PrintEmpty()
    ensures PrintItems([]) == "" && PrintFields([]) == ""
  {
  }

  lemma ReadPrintedScalar(v: Scalar, rest: string)
    requires Delimited(rest)
    ensures ReadValue(PrintScalar(v) + rest) == Read(Leaf(v), rest)
  {
    hide ReadValue, ReadNumber, ReadString, Escape;
    var t := PrintScalar(v) + rest;
    PrintStarts(Leaf(v), rest);
    match v {
      case Null => ReadWords(rest);
      case Bool(b) => ReadWords(rest);
      case Int(i) =>
        ReadPrintedInt(i, rest);
        ReadNumberValue(t);
      case Float(lexeme) =>
        ReadPrintedFloat(lexeme, rest);
        NumberStarts(lexeme);
        ReadNumberValue(t);
      case Str(s) =>
        assert t[1..] == Escape(s) + "\"" + rest;
        ReadQuoted(s, rest);
        ReadStringValue(t);
    }
  }

  lemma NumberStarts(lexeme: FloatLexeme)
    ensures lexeme[0] == '-' || IsDigit(lexeme[0])
  {
  }

  lemma ReadWords(rest: string)
    ensures ReadValue("null" + rest) == Read(Leaf(Null), rest)
    ensures ReadValue("true" + rest) == Read(Leaf(Bool(true)), rest)
    ensures ReadValue("false" + rest) == Read(Leaf(Bool(false)), rest)
  {
    hide ReadItems, ReadMembers, ReadNumber, ReadString, DictOf;
    assert ("null" + rest)[..4] == "null" && ("null" + rest)[4..] == rest;
    assert ("true" + rest)[..4] == "true" && ("true" + rest)[4..] == rest;
    assert ("false" + rest)[..5] == "false" && ("false" + rest)[5..] == rest;
  }

  lemma ReadNumberValue(t: string)
    requires SkipWs(t) == t && t != "" && (t[0] == '-' || IsDigit(t[0])) && ReadNumber(t).Read?
    ensures ReadValue(t) == Read(Leaf(ReadNumber(t).value), ReadNumber(t).rest)
  {
    hide ReadItems, ReadMembers, ReadNumber, ReadString, DictOf;
  }

  lemma ReadStringValue(t: string)
    requires SkipWs(t) == t && t != "" && t[0] == '\"' && ReadString(t[1..]).Read?
    ensures ReadValue(t) == Read(Leaf(Str(ReadString(t[1..]).value)), ReadString(t[1..]).rest)
  {
    hide ReadItems, ReadMembers, ReadNumber, ReadString, DictOf;
  }

  lemma PrintItemsStart(items: seq<Json>, rest: string)
    requires items != []
    ensures var t := PrintItems(items) + rest; SkipWs(t) == t && t != "" && t[0] !in {']', '}'}
  {
    PrintStarts(items[0], "");
    assert Print(items[0]) + "" == Print(items[0]);
  }

  lemma {:induction false} ReadPrintItems(items: seq<Json>, rest: string)
    requires items != []
    ensures ReadItems(PrintItems(items) + ("]" + rest)) == Read(RebuiltItems(items), rest)
    decreases items, 1
  {
    hide ReadValue, Print, Rebuilt;
    var t := PrintItems(items) + ("]" + rest);
    if |items| == 1 {
      ReadPrint(items[0], "]" + rest);
      assert ("]" + rest)[1..] == rest;
      assert RebuiltItems(items) == [Rebuilt(items[0])];
    } else {
      var tail := PrintItems(items[1..]) + ("]" + rest);
      assert t == Print(items[0]) + ("," + tail);
      ReadPrint(items[0], "," + tail);
      assert ("," + tail)[1..] == tail;
      ReadPrintItems(items[1..], rest);
    }
  }

  /** What follows the first member of printed fields, up to the end of the text. */
  function AfterFirst(fields: seq<Field>, rest: string): string
    requires fields != []
  {
    if |fields| == 1 then "}" + rest else "," + (PrintFields(fields[1..]) + ("}" + rest))
  }

  lemma FieldsText(fields: seq<Field>, rest: string)
    requires fields != []
    ensures PrintFields(fields) + ("}" + rest)
         == Quote(fields[0].key) + ":" + Print(fields[0].val) + AfterFirst(fields, rest)
    ensures AfterFirst(fields, rest)[1..] == if |fields| == 1 then rest else PrintFields(fields[1..]) + ("}" + rest)
  {
    hide Print, Quote, PrintFields;
    var first := Quote(fields[0].key) + ":" + Print(fields[0].val);
    if |fields| == 1 {
      OneField(fields);
    } else {
      MoreFields(fields);
      Regroup(first, PrintFields(fields[1..]), "}" + rest);
    }
  }

  lemma OneField(fields: seq<Field>)
    requires |fields| == 1
    ensures PrintFields(fields) == Quote(fields[0].key) + ":" + Print(fields[0].val)
  {
    hide Print, Quote;
  }

  lemma MoreFields(fields: seq<Field>)
    requires |fields| > 1
    ensures PrintFields(fields) == Quote(fields[0].key) + ":" + Print(fields[0].val) + "," + PrintFields(fields[1..])
  {
    hide Print, Quote;
  }

  lemma Regroup(a: string, b: string, c: string)
    ensures a + "," + b + c == a + ("," + (b + c))
  {
  }

  lemma QuoteStarts(key: string, more: string)
    ensures var t := Quote(key) + more; SkipWs(t) == t && t != "" && t[0] == '\"'
  {
    hide Escape;
  }

  lemma {:induction false} ReadPrintFields(fields: seq<Field>, rest: string)
    requires fields != []
    ensures ReadMembers(PrintFields(fields) + ("}" + rest)) == Read(RebuiltFields(fields), rest)
    ensures var t := PrintFields(fields) + ("}" + rest); SkipWs(t) == t && t != "" && t[0] == '\"'
    decreases fields, 1
  {
    hide ReadValue, ReadMembers, Print, Rebuilt, Quote, PrintFields, SkipWs;
    var f, tail := fields[0], AfterFirst(fields, rest);
    FieldsText(fields, rest);
    QuoteStarts(f.key, ":" + Print(f.val) + tail);
    assert Quote(f.key) + ":" + Print(f.val) + tail == Quote(f.key) + (":" + Print(f.val) + tail);
    ReadPrint(f.val, tail);
    ReadMember(f, Rebuilt(f.val), tail);
    if |fields| == 1 {
      assert RebuiltFields(fields) == [Field(f.key, Rebuilt(f.val))];
    } else {
      ReadPrintFields(fields[1..], rest);
    }
  }

  lemma ReadMember(f: Field, v: Json, tail: string)
    requires tail != "" && tail[0] in {',', '}'} && ReadValue(Print(f.val) + tail) == Read(v, tail)
    ensures ReadMembers(Quote(f.key) + ":" + Print(f.val) + tail) ==
            if tail[0] == '}' then Read([Field(f.key, v)], tail[1..])
            else match ReadMembers(tail[1..])
                 case Fail => Fail
                 case Read(fs, rest) => Read([Field(f.key, v)] + fs, rest)
  {
    hide ReadValue, ReadString, Print, Escape;
    var t := Quote(f.key) + ":" + Print(f.val) + tail;
    assert t[1..] == Escape(f.key) + "\"" + (":" + Print(f.val) + tail);
    ReadQuoted(f.key, ":" + Print(f.val) + tail);
    assert (":" + Print(f.val) + tail)[1..] == Print(f.val) + tail;
  }

  // ---- When rebuilding changes nothing ------------------------------------

  lemma {:induction false} WithoutShorter(fields: seq<Field>, key: string)
    requires HasKey(fields, key)
    ensures |Without(fields, key)| < |fields|
  {
    if fields[0].key != key {
      WithoutShorter(fields[1..], key);
    }
  }

  /** Rebuilding a list of pairs is the identity exactly when no key repeats. */
  lemma {:induction false} DictOfFixed(fields: seq<Field>)
    ensures DictOf(fields) == fields <==> DistinctNames(fields)
  {
    if fields != [] {
      var d, key := DictOf(fields[1..]), fields[0].key;
      DictOfFixed(fields[1..]);
      if HasKey(d, key) {
        WithoutShorter(d, key);
      } else {
        assert DictOf(fields)[1..] == d;
        assert fields == [fields[0]] + fields[1..];
      }
    }
  }

  lemma {:induction false} SameNames(fields: seq<Field>, others: seq<Field>)
    requires |others| == |fields| && forall i | 0 <= i < |fields| :: others[i].key == fields[i].key
    ensures DistinctNames(others) <==> DistinctNames(fields)
  {
    hide HasKey;
    if fields != [] {
      forall i | 0 <= i < |fields[1..]| ensures others[1..][i].key == fields[1..][i].key {
        assert others[1..][i] == others[i + 1] && fields[1..][i] == fields[i + 1];
      }
      SameKey(fields[1..], others[1..], fields[0].key);
      SameNames(fields[1..], others[1..]);
    }
  }

  lemma SameKey(fields: seq<Field>, others: seq<Field>, k: string)
    requires |others| == |fields| && forall i | 0 <= i < |fields| :: others[i].key == fields[i].key
    ensures HasKey(others, k) <==> HasKey(fields, k)
  {
    if f :| f in fields && f.key == k {
      var i :| 0 <= i < |fields| && fields[i] == f;
      assert others[i] in others;
    }
    if f :| f in others && f.key == k {
      var i :| 0 <= i < |others| && others[i] == f;
      assert fields[i] in fields;
    }
  }

  /** A tree comes back as itself exactly when no object in it repeats a key. */
  lemma {:induction false} RebuiltExactly(j: Json)
    ensures Rebuilt(j) == j <==> DistinctKeys(j)
    decreases j, 0
  {
    match j
    case Leaf(_) =>
    case Arr(items) => RebuiltItemsExactly(items);
    case Obj(fields) =>
      var r := RebuiltFields(fields);
      RebuiltFieldsExactly(fields);
      SameNames(fields, r);
      DictOfFixed(r);
      if DictOf(r) == fields {
        SameNames(fields, DictOf(r));
        DictOfShape(r);
      }
  }

  /** A rebuilt list is never longer, and if it is as long it is the list itself. */
  lemma {:induction false} DictOfShape(fields: seq<Field>)
    ensures |DictOf(fields)| == |fields| ==> DictOf(fields) == fields
  {
    if fields != [] {
      var d, key := DictOf(fields[1..]), fields[0].key;
      DictOfShape(fields[1..]);
      if HasKey(d, key) {
        WithoutShorter(d, key);
      } else {
        assert fields == [fields[0]] + fields[1..];
      }
    }
  }

  lemma {:induction false} RebuiltItemsExactly(items: seq<Json>)
    ensures RebuiltItems(items) == items <==> forall i | 0 <= i < |items| :: DistinctKeys(items[i])
    decreases items, 1
  {
    if items != [] {
      RebuiltExactly(items[0]);
      RebuiltItemsExactly(items[1..]);
      assert RebuiltItems(items)[1..] == RebuiltItems(items[1..]);
      assert items == [items[0]] + items[1..];
      assert forall i | 0 < i < |items| :: items[i] == items[1..][i - 1];
    }
  }

  lemma {:induction false} RebuiltFieldsExactly(fields: seq<Field>)
    ensures RebuiltFields(fields) == fields && DistinctNames(fields) <==> DistinctFields(fields)
    decreases fields, 1
  {
    hide Rebuilt, DistinctKeys, HasKey;
    if fields != [] {
      RebuiltExactly(fields[0].val);
      RebuiltFieldsExactly(fields[1..]);
      assert RebuiltFields(fields)[1..] == RebuiltFields(fields[1..]);
      assert fields == [fields[0]] + fields[1..];
    }
  }

  lemma {:induction false} DictOfDistinct(fields: seq<Field>)
    requires DistinctFields(fields)
    ensures DictOf(fields) == fields
  {
    if fields != [] {
      DictOfDistinct(fields[1..]);
      assert fields == [fields[0]] + fields[1..];
    }
  }

  /** `json.loads(json.dumps(j))` rebuilds every tree, and is `j` exactly when no object in it repeats a key. */
  lemma ParsePrint(j: Json)
    ensures Loads(Print(j)) == Some(Rebuilt(j))
    ensures Loads(Print(j)) == Some(j) <==> DistinctKeys(j)
  {
    ReadPrint(j, "");
    RebuiltExactly(j);
    assert Print(j) + "" == Print(j);
  }
}
