/**
 * JSON as the fingerprint sees it: the values of Go's decoder with numbers kept as their literal
 * text, its reading of a text, and its key-sorted writing of a value. Texts are sequences of Unicode
 * scalar values.
 */
module JsonText {
  import opened Wrappers

  /** Objects are maps, kept as fields in strictly ascending key order. */
  datatype Json =
    | Null
    | Bool(value: bool)
    | Num(literal: string)
    | Str(text: string)
    | Arr(items: seq<Json>)
    | Obj(fields: seq<Field>)

  datatype Field = Field(key: string, value: Json)

  /** The decoder refuses texts nested deeper than this. */
  const MAX_DEPTH := 10000

  datatype Parsed<+T> = Parsed(value: T, rest: string) | Malformed

  // ---------- characters ----------

  predicate IsSpace(c: char) {
    c == ' ' || c == '\t' || c == '\n' || c == '\r'
  }

  predicate IsDigit(c: char) {
    '0' <= c <= '9'
  }

  function SkipSpace(s: string): (t: string)
    ensures |t| <= |s|
    ensures t != "" ==> !IsSpace(t[0])
  {
    if s != "" && IsSpace(s[0]) then SkipSpace(s[1..]) else s
  }

  predicate Starts(s: string, c: char) {
    s != "" && s[0] == c
  }

  function HexValue(c: char): Option<nat> {
    if '0' <= c <= '9' then Some((c - '0') as nat)
    else if 'a' <= c <= 'f' then Some((c - 'a') as nat + 10)
    else if 'A' <= c <= 'F' then Some((c - 'A') as nat + 10)
    else None
  }

  /** The code unit of four hex digits. */
  function Hex4(s: string): (r: Option<nat>)
    ensures r.Some? ==> |s| >= 4 && r.value < 0x10000
  {
    if |s| < 4 then None
    else
      match (HexValue(s[0]), HexValue(s[1]), HexValue(s[2]), HexValue(s[3]))
      case (Some(a), Some(b), Some(c), Some(d)) =>
        HexBounded(s[0]); HexBounded(s[1]); HexBounded(s[2]); HexBounded(s[3]);
        Some(a * 4096 + b * 256 + c * 16 + d)
      case _ => None
  }

  lemma HexBounded(c: char)
    ensures HexValue(c).Some? ==> HexValue(c).value < 16
  {
  }

  predicate IsSurrogate(u: nat) {
    0xD800 <= u <= 0xDFFF
  }

  predicate IsPair(u: nat, v: nat) {
    0xD800 <= u < 0xDC00 && 0xDC00 <= v <= 0xDFFF
  }

  /** The character of one code unit; a lone surrogate becomes the replacement character. */
  function UnitChar(u: nat): char
    requires u < 0x10000
  {
    if IsSurrogate(u) then '\U{FFFD}' else u as char
  }

  function PairChar(u: nat, v: nat): char
    requires IsPair(u, v)
  {
    (0x10000 + (u - 0xD800) * 0x400 + (v - 0xDC00)) as char
  }

  // ---------- numbers ----------

  /** A number token of section 6 of RFC 8259, part by part. */
  datatype NumberToken = NumberToken(minus: bool, whole: string, fraction: Option<string>, exponent: Option<Exponent>)

  datatype Exponent = Exponent(letter: char, sign: string, digits: string)

  predicate Digits(s: string) {
    s != "" && forall c <- s :: IsDigit(c)
  }

  predicate NumberOk(n: NumberToken) {
    && Digits(n.whole) && (n.whole[0] == '0' ==> |n.whole| == 1)
    && (n.fraction.Some? ==> Digits(n.fraction.value))
    && (n.exponent.Some? ==> ExponentOk(n.exponent.value))
  }

  predicate ExponentOk(e: Exponent) {
    && (e.letter == 'e' || e.letter == 'E')
    && (e.sign == "" || e.sign == "+" || e.sign == "-")
    && Digits(e.digits)
  }

  function FractionText(f: Option<string>): string {
    if f.Some? then "." + f.value else ""
  }

  function ExponentText(e: Option<Exponent>): string {
    if e.Some? then [e.value.letter] + (e.value.sign + e.value.digits) else ""
  }

  function NumberText(n: NumberToken): string {
    (if n.minus then "-" else "") + (n.whole + (FractionText(n.fraction) + ExponentText(n.exponent)))
  }

  function DigitsOf(s: string): (d: string)
    ensures d <= s
    ensures forall c <- d :: IsDigit(c)
  {
    if s != "" && IsDigit(s[0]) then [s[0]] + DigitsOf(s[1..]) else ""
  }

  function After(s: string, prefix: string): (t: string)
    requires prefix <= s
    ensures s == prefix + t
  {
    s[|prefix|..]
  }

  /** One 0, or all digits; the decoder's number state machine stops after a leading 0. */
  function ScanWhole(s: string): Parsed<string> {
    var d := DigitsOf(s);
    if d == "" then Malformed
    else if d[0] == '0' then Parsed("0", s[1..])
    else Parsed(d, After(s, d))
  }

  /** After a dot there must be a digit. */
  function ScanFraction(s: string): Parsed<Option<string>> {
    if !Starts(s, '.') then Parsed(None, s)
    else
      var d := DigitsOf(s[1..]);
      if d == "" then Malformed else Parsed(Some(d), After(s[1..], d))
  }

  function SignOf(s: string): (sign: string)
    ensures sign <= s && (sign == "" || sign == "+" || sign == "-")
  {
    if Starts(s, '+') then "+" else if Starts(s, '-') then "-" else ""
  }

  /** After the letter e and an optional sign there must be a digit. */
  function ScanExponent(s: string): Parsed<Option<Exponent>> {
    if !Starts(s, 'e') && !Starts(s, 'E') then Parsed(None, s)
    else
      var sign := SignOf(s[1..]);
      var t := After(s[1..], sign);
      var d := DigitsOf(t);
      if d == "" then Malformed else Parsed(Some(Exponent(s[0], sign, d)), After(t, d))
  }

  function ScanNumber(s: string): Parsed<NumberToken> {
    var minus := Starts(s, '-');
    match ScanWhole(if minus then s[1..] else s)
    case Malformed => Malformed
    case Parsed(whole, s1) =>
      match ScanFraction(s1)
      case Malformed => Malformed
      case Parsed(fraction, s2) =>
        match ScanExponent(s2)
        case Malformed => Malformed
        case Parsed(exponent, s3) => Parsed(NumberToken(minus, whole, fraction, exponent), s3)
  }

  // ---------- strings ----------

  /** The character a one-letter escape stands for. */
  function ShortEscape(c: char): Option<char> {
    match c
    case '"' => Some('"')
    case '\\' => Some('\\')
    case '/' => Some('/')
    case 'b' => Some('\U{8}')
    case 'f' => Some('\U{c}')
    case 'n' => Some('\n')
    case 'r' => Some('\r')
    case 't' => Some('\t')
    case _ => None
  }

  /** The code unit of a leading \uXXXX. */
  function UnicodeEscape(s: string): (r: Option<nat>)
    ensures r.Some? ==> |s| >= 6 && r.value < 0x10000
  {
    if Starts(s, '\\') && Starts(s[1..], 'u') then Hex4(s[2..]) else None
  }

  function Prepend(c: char, r: Parsed<string>): Parsed<string> {
    if r.Parsed? then Parsed([c] + r.value, r.rest) else Malformed
  }

  /** The rest of a string token, after its opening quote. */
  function ParseChars(s: string): (r: Parsed<string>)
    ensures r.Parsed? ==> |r.rest| < |s|
  {
    if s == "" || s[0] < ' ' then Malformed
    else if s[0] == '"' then Parsed("", s[1..])
    else if s[0] != '\\' then Prepend(s[0], ParseChars(s[1..]))
    else if |s| >= 2 && ShortEscape(s[1]).Some? then Prepend(ShortEscape(s[1]).value, ParseChars(s[2..]))
    else
      match UnicodeEscape(s)
      case None => Malformed
      case Some(u) =>
        match UnicodeEscape(s[6..])
        case Some(v) =>
          if IsPair(u, v) then Prepend(PairChar(u, v), ParseChars(s[12..]))
          else Prepend(UnitChar(u), ParseChars(s[6..]))
        case None => Prepend(UnitChar(u), ParseChars(s[6..]))
  }

  // ---------- objects ----------

  /** Order of strings by code point, which is the byte order of their UTF-8 forms. */
  predicate Less(a: string, b: string) {
    if b == "" then false
    else if a == "" then true
    else a[0] < b[0] || (a[0] == b[0] && Less(a[1..], b[1..]))
  }

  /** m[key] = value on a map kept in key order. */
  function Put(fields: seq<Field>, key: string, value: Json): seq<Field> {
    if fields == [] then [Field(key, value)]
    else if key == fields[0].key then [Field(key, value)] + fields[1..]
    else if Less(key, fields[0].key) then [Field(key, value)] + fields
    else [fields[0]] + Put(fields[1..], key, value)
  }

  // ---------- reading ----------

  function ParseWord(s: string, word: string, value: Json): (r: Parsed<Json>)
    ensures r.Parsed? && word != "" ==> |r.rest| < |s|
  {
    if word <= s then Parsed(value, After(s, word)) else Malformed
  }

  function ParseNumber(s: string): (r: Parsed<Json>)
    ensures r.Parsed? ==> |r.rest| < |s|
  {
    match ScanNumber(s)
    case Malformed => Malformed
    case Parsed(n, rest) => Parsed(Num(NumberText(n)), rest)
  }

  /** One value, of which at most `room` levels may be open; what follows is not looked at. */
  function ParseValue(text: string, room: nat): (r: Parsed<Json>)
    ensures r.Parsed? ==> |r.rest| < |text|
    decreases |text|, 2
  {
    var s := SkipSpace(text);
    if s == "" then Malformed
    else if s[0] == '{' then
      if room == 0 then Malformed
      else if Starts(SkipSpace(s[1..]), '}') then Parsed(Obj([]), SkipSpace(s[1..])[1..])
      else
        match ParseMembers(s[1..], room - 1, [])
        case Malformed => Malformed
        case Parsed(fields, rest) => Parsed(Obj(fields), rest)
    else if s[0] == '[' then
      if room == 0 then Malformed
      else if Starts(SkipSpace(s[1..]), ']') then Parsed(Arr([]), SkipSpace(s[1..])[1..])
      else
        match ParseItems(s[1..], room - 1)
        case Malformed => Malformed
        case Parsed(items, rest) => Parsed(Arr(items), rest)
    else if s[0] == '"' then
      match ParseChars(s[1..])
      case Malformed => Malformed
      case Parsed(chars, rest) => Parsed(Str(chars), rest)
    else if s[0] == 't' then ParseWord(s, "true", Bool(true))
    else if s[0] == 'f' then ParseWord(s, "false", Bool(false))
    else if s[0] == 'n' then ParseWord(s, "null", Null)
    else ParseNumber(s)
  }

  /** One or more array elements and the closing bracket. */
  function ParseItems(s: string, room: nat): (r: Parsed<seq<Json>>)
    ensures r.Parsed? ==> |r.rest| < |s|
    decreases |s|, 3
  {
    match ParseValue(s, room)
    case Malformed => Malformed
    case Parsed(v, rest) =>
      var t := SkipSpace(rest);
      if Starts(t, ']') then Parsed([v], t[1..])
      else if Starts(t, ',') then
        match ParseItems(t[1..], room)
        case Malformed => Malformed
        case Parsed(vs, end) => Parsed([v] + vs, end)
      else Malformed
  }

  /** One or more members and the closing brace, added to those read so far: the last of a key wins. */
  function ParseMembers(s: string, room: nat, fields: seq<Field>): (r: Parsed<seq<Field>>)
    ensures r.Parsed? ==> |r.rest| < |s|
    decreases |s|, 3
  {
    var k := SkipSpace(s);
    if !Starts(k, '"') then Malformed
    else
      match ParseChars(k[1..])
      case Malformed => Malformed
      case Parsed(key, afterKey) =>
        var c := SkipSpace(afterKey);
        if !Starts(c, ':') then Malformed
        else
          match ParseValue(c[1..], room)
          case Malformed => Malformed
          case Parsed(v, rest) =>
            var t := SkipSpace(rest);
            if Starts(t, '}') then Parsed(Put(fields, key, v), t[1..])
            else if Starts(t, ',') then ParseMembers(t[1..], room, Put(fields, key, v))
            else Malformed
  }

  // ---------- writing ----------

  function HexDigit(n: nat): char
    requires n < 16
  {
    "0123456789abcdef"[n]
  }

  /** The encoder's escapes, with HTML escaping on. */
  function EscapeChar(c: char): string {
    if c == '"' || c == '\\' then ['\\', c]
    else if c == '\U{8}' then "\\b"
    else if c == '\U{c}' then "\\f"
    else if c == '\n' then "\\n"
    else if c == '\r' then "\\r"
    else if c == '\t' then "\\t"
    else if c < ' ' || c == '<' || c == '>' || c == '&' then
      "\\u00" + [HexDigit(c as nat / 16), HexDigit(c as nat % 16)]
    else if c == '\U{2028}' || c == '\U{2029}' then "\\u202" + [HexDigit(c as nat % 16)]
    else [c]
  }

  function EscapeAll(s: string): string {
    if s == "" then "" else EscapeChar(s[0]) + EscapeAll(s[1..])
  }

  function PrintString(s: string): string {
    "\"" + EscapeAll(s) + "\""
  }

  function Print(v: Json): string
    decreases v
  {
    match v
    case Null => "null"
    case Bool(b) => if b then "true" else "false"
    case Num(literal) => literal
    case Str(s) => PrintString(s)
    case Arr(items) => "[" + PrintItems(items) + "]"
    case Obj(fields) => "{" + PrintFields(fields) + "}"
  }

  function PrintItems(items: seq<Json>): string
    decreases items
  {
    if items == [] then ""
    else Print(items[0]) + (if |items| == 1 then "" else "," + PrintItems(items[1..]))
  }

  function PrintFields(fields: seq<Field>): string
    decreases fields
  {
    if fields == [] then ""
    else
      PrintString(fields[0].key) + ":" + Print(fields[0].value)
      + (if |fields| == 1 then "" else "," + PrintFields(fields[1..]))
  }
}
