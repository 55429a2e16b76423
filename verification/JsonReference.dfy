/**
 * What JSON texts mean, character by character and without the tables of the reader: how strings may
 * be written, which texts are numbers, what white space is, how arrays and objects are put together,
 * and how deep they may go. Sections 2 to 7 of RFC 8259.
 */
module JsonReference {
  import opened Wrappers
  import opened JsonText
  import opened JsonGrammar
  import opened JsonObjects
  import opened JsonWriting
  import opened Fingerprint

  /** The text is this value with white space around it, of at most `room` levels. */
  ghost predicate DenotesAt(text: string, v: Json, room: nat) {
    exists pad, d, end :: DenotedAtBy(text, v, room, pad, d, end)
  }

  ghost predicate DenotedAtBy(text: string, v: Json, room: nat, pad: string, d: Doc, end: string) {
    AllSpace(pad) && AllSpace(end) && DocOk(d, room) && text == pad + (Spell(d) + end) && Meaning(d) == v
  }

  lemma DenotesIsAtMaxDepth(text: string, v: Json)
    ensures Denotes(text, v) <==> DenotesAt(text, v, 10000)
  {
    hide AllSpace, DocOk, Spell, Meaning;
    if Denotes(text, v) {
      var pad, d, end :| DenotedBy(text, v, pad, d, end);
      assert DenotedAtBy(text, v, 10000, pad, d, end);
    }
    if DenotesAt(text, v, 10000) {
      var pad, d, end :| DenotedAtBy(text, v, 10000, pad, d, end);
      assert DenotedBy(text, v, pad, d, end);
    }
  }

  lemma DocDenotes(d: Doc, room: nat)
    requires DocOk(d, room)
    ensures DenotesAt(Spell(d), Meaning(d), room)
  {
    hide DocOk, Spell, Meaning;
    assert Spell(d) == "" + (Spell(d) + "");
    assert DenotedAtBy(Spell(d), Meaning(d), room, "", d, "");
  }

  // ---------- strings ----------

  /** How a character may be written: as it is, by its short escape, or by the hex digits of its number. */
  datatype Way = AsItIs | ShortForm | HexForm

  /** The digit of a number below 16, in either case. */
  function DigitChar(n: nat, upper: bool): char
    requires n < 16
  {
    if upper then "0123456789ABCDEF"[n] else "0123456789abcdef"[n]
  }

  /** The four digits of a code unit, in any mixture of cases. */
  function HexDigits(u: nat, upper: nat -> bool): string
    requires u < 0x10000
  {
    [DigitChar(u / 0x10 / 0x10 / 0x10, upper(0)), DigitChar(u / 0x10 / 0x10 % 0x10, upper(1)),
     DigitChar(u / 0x10 % 0x10, upper(2)), DigitChar(u % 0x10, upper(3))]
  }

  function UnitText(u: nat, upper: nat -> bool): string
    requires u < 0x10000
  {
    "\\u" + HexDigits(u, upper)
  }

  /** One unit, or above U+FFFF the high and the low surrogate (UTF-16). */
  function HexText(c: char, upper: nat -> bool): string {
    var n := c as nat;
    if n < 0x10000 then UnitText(n, upper)
    else UnitText(0xD800 + (n - 0x10000) / 0x400, upper) + UnitText(0xDC00 + (n - 0x10000) % 0x400, upper)
  }

  /** A character in the chosen way, if it has one, and else by its number. */
  function CharText(c: char, way: Way, upper: nat -> bool): string {
    if way == AsItIs && c as nat >= 0x20 && c != '"' && c != '\\' then [c]
    else if way == ShortForm && c == '"' then "\\\""
    else if way == ShortForm && c == '\\' then "\\\\"
    else if way == ShortForm && c == '/' then "\\/"
    else if way == ShortForm && c as nat == 0x08 then "\\b"
    else if way == ShortForm && c as nat == 0x0C then "\\f"
    else if way == ShortForm && c as nat == 0x0A then "\\n"
    else if way == ShortForm && c as nat == 0x0D then "\\r"
    else if way == ShortForm && c as nat == 0x09 then "\\t"
    else HexText(c, upper)
  }

  function CharsText(s: string, way: nat -> Way, upper: (nat, nat) -> bool): string {
    if s == "" then ""
    else
      var n := |s| - 1;
      CharsText(s[..n], way, upper) + CharText(s[n], way(n), CasesOf(upper, n))
  }

  function CasesOf(upper: (nat, nat) -> bool, n: nat): nat -> bool {
    (i: nat) => upper(n, i)
  }

  function UnitPiece(u: nat, upper: nat -> bool): Piece
    requires u < 0x10000
  {
    Unicode(HexDigits(u, upper))
  }

  lemma DigitReads(n: nat, upper: bool)
    requires n < 16
    ensures HexValue(DigitChar(n, upper)) == Some(n)
  {
  }

  lemma UnitReads(u: nat, upper: nat -> bool)
    requires u < 0x10000
    ensures PieceOk(UnitPiece(u, upper)) && Unit(UnitPiece(u, upper)) == Some(u)
    ensures SpellPiece(UnitPiece(u, upper)) == UnitText(u, upper)
  {
    hide HexValue, DigitChar, Hex4;
    var a, b, c, d := u / 0x10 / 0x10 / 0x10, u / 0x10 / 0x10 % 0x10, u / 0x10 % 0x10, u % 0x10;
    FourDigits(u);
    DigitReads(a, upper(0));
    DigitReads(b, upper(1));
    DigitReads(c, upper(2));
    DigitReads(d, upper(3));
    Hex4Reads(HexDigits(u, upper), a, b, c, d);
  }

  lemma FourDigits(u: nat)
    requires u < 0x10000
    ensures u / 0x10 / 0x10 / 0x10 * 4096 + u / 0x10 / 0x10 % 0x10 * 256 + u / 0x10 % 0x10 * 16 + u % 0x10 == u
    ensures u / 0x10 / 0x10 / 0x10 < 16
  {
  }

  lemma Hex4Reads(hex: string, a: nat, b: nat, c: nat, d: nat)
    requires |hex| == 4 && HexValue(hex[0]) == Some(a) && HexValue(hex[1]) == Some(b)
    requires HexValue(hex[2]) == Some(c) && HexValue(hex[3]) == Some(d)
    ensures Hex4(hex) == Some(a * 4096 + b * 256 + c * 16 + d)
  {
    hide HexValue;
  }

  /** The pieces of one character, and that they mean it. */
  function CharPieces(c: char, way: Way, upper: nat -> bool): seq<Piece> {
    var n := c as nat;
    if way == AsItIs && n >= 0x20 && c != '"' && c != '\\' then [Plain(c)]
    else if way == ShortForm && (c == '"' || c == '\\' || c == '/') then [Short(c)]
    else if way == ShortForm && n == 0x08 then [Short('b')]
    else if way == ShortForm && n == 0x0C then [Short('f')]
    else if way == ShortForm && n == 0x0A then [Short('n')]
    else if way == ShortForm && n == 0x0D then [Short('r')]
    else if way == ShortForm && n == 0x09 then [Short('t')]
    else if n < 0x10000 then [UnitPiece(n, upper)]
    else [UnitPiece(0xD800 + (n - 0x10000) / 0x400, upper), UnitPiece(0xDC00 + (n - 0x10000) % 0x400, upper)]
  }

  /** No surrogate stands alone at the end, so whatever follows is read on its own. */
  predicate Complete(ps: seq<Piece>) {
    ps == [] || (Unit(ps[|ps| - 1]).Some? ==> !(0xD800 <= Unit(ps[|ps| - 1]).value < 0xDC00))
  }

  lemma CharPiecesMean(c: char, way: Way, upper: nat -> bool)
    ensures var ps := CharPieces(c, way, upper);
            PiecesOk(ps) && Complete(ps) && ps != [] && TextOf(ps) == [c] && SpellPieces(ps) == CharText(c, way, upper)
  {
    if |CharPieces(c, way, upper)| == 1 {
      OnePiece(c, way, upper);
    } else {
      hide PieceOk, TextOf, SpellPieces, SpellPiece, UnitText, UnitPiece, PairChar, Unit, HexText;
      PairMeans(c, upper);
    }
  }

  lemma PairMeans(c: char, upper: nat -> bool)
    requires c as nat >= 0x10000
    ensures var n := c as nat - 0x10000;
            var ps := [UnitPiece(0xD800 + n / 0x400, upper), UnitPiece(0xDC00 + n % 0x400, upper)];
            PiecesOk(ps) && Complete(ps) && TextOf(ps) == [c] && SpellPieces(ps) == HexText(c, upper)
  {
    hide PieceOk, TextOf, SpellPieces, SpellPiece, UnitText, UnitPiece, PairChar, Unit;
    var n := c as nat - 0x10000;
    var u, v := 0xD800 + n / 0x400, 0xDC00 + n % 0x400;
    UnitReads(u, upper);
    UnitReads(v, upper);
    PairReads(c, u, v);
    TwoPieces(UnitPiece(u, upper), UnitPiece(v, upper));
  }

  lemma PairReads(c: char, u: nat, v: nat)
    requires c as nat >= 0x10000
    requires u == 0xD800 + (c as nat - 0x10000) / 0x400 && v == 0xDC00 + (c as nat - 0x10000) % 0x400
    ensures IsPair(u, v) && PairChar(u, v) == c
  {
  }

  lemma TwoPieces(p: Piece, q: Piece)
    requires Unit(p).Some? && Unit(q).Some? && IsPair(Unit(p).value, Unit(q).value)
    ensures TextOf([p, q]) == [PairChar(Unit(p).value, Unit(q).value)]
    ensures SpellPieces([p, q]) == SpellPiece(p) + SpellPiece(q)
  {
    hide Unit, SpellPiece, PairChar;
    assert [p, q][2..] == [] && [p, q][1..] == [q] && [q][1..] == [];
    assert SpellPieces([q]) == SpellPiece(q) + SpellPieces([]) == SpellPiece(q);
  }

  lemma OnePiece(c: char, way: Way, upper: nat -> bool)
    requires |CharPieces(c, way, upper)| == 1
    ensures var ps := CharPieces(c, way, upper);
            PiecesOk(ps) && Complete(ps) && TextOf(ps) == [c] && SpellPieces(ps) == CharText(c, way, upper)
  {
    var p := CharPieces(c, way, upper)[0];
    assert [p][1..] == [];
    if p.Unicode? {
      UnitReads(c as nat, upper);
      hide UnitPiece, UnitText, Hex4;
    }
  }

  function Head(p: Piece): string {
    if Unit(p).Some? then [UnitChar(Unit(p).value)] else Single(p)
  }

  predicate Paired(p: Piece, q: Piece) {
    Unit(p).Some? && Unit(q).Some? && IsPair(Unit(p).value, Unit(q).value)
  }

  lemma TextUnfolds(ps: seq<Piece>)
    requires ps != []
    ensures if |ps| > 1 && Paired(ps[0], ps[1])
            then TextOf(ps) == [PairChar(Unit(ps[0]).value, Unit(ps[1]).value)] + TextOf(ps[2..])
            else TextOf(ps) == Head(ps[0]) + TextOf(ps[1..])
  {
    hide Unit, Single, UnitChar, PairChar;
  }

  lemma {:induction false} TextOfConcat(ps: seq<Piece>, qs: seq<Piece>)
    requires Complete(ps)
    ensures TextOf(ps + qs) == TextOf(ps) + TextOf(qs)
    decreases |ps|
  {
    hide TextOf, Unit, UnitChar, PairChar, Single, Head;
    if ps == [] {
      assert ps + qs == qs;
      NoText();
    } else {
      TextUnfolds(ps);
      TextUnfolds(ps + qs);
      assert (ps + qs)[0] == ps[0] && (ps + qs)[1..] == ps[1..] + qs;
      if |ps| > 1 {
        assert (ps + qs)[1] == ps[1] && (ps + qs)[2..] == ps[2..] + qs;
        if Paired(ps[0], ps[1]) {
          TextOfConcat(ps[2..], qs);
        } else {
          TextOfConcat(ps[1..], qs);
        }
      } else {
        TextOfConcat(ps[1..], qs);
      }
    }
  }

  lemma NothingSpelled()
    ensures SpellPieces([]) == ""
  {
  }

  lemma NoText()
    ensures TextOf([]) == ""
  {
  }

  lemma {:induction false} SpellPiecesConcat(ps: seq<Piece>, qs: seq<Piece>)
    ensures SpellPieces(ps + qs) == SpellPieces(ps) + SpellPieces(qs)
  {
    if ps == [] {
      assert ps + qs == qs;
    } else {
      assert (ps + qs)[1..] == ps[1..] + qs;
      SpellPiecesConcat(ps[1..], qs);
    }
  }

  lemma {:induction false} CharsMean(s: string, way: nat -> Way, upper: (nat, nat) -> bool) returns (ps: seq<Piece>)
    ensures PiecesOk(ps) && Complete(ps) && TextOf(ps) == s && SpellPieces(ps) == CharsText(s, way, upper)
  {
    hide PieceOk, TextOf, SpellPieces, CharText, CharPieces, Unit, CasesOf;
    if s == "" {
      ps := [];
      NoText();
      assert SpellPieces([]) == "" by { NothingSpelled(); }
    } else {
      var n := |s| - 1;
      var init := CharsMean(s[..n], way, upper);
      var last := CharPieces(s[n], way(n), CasesOf(upper, n));
      CharPiecesMean(s[n], way(n), CasesOf(upper, n));
      TextOfConcat(init, last);
      SpellPiecesConcat(init, last);
      ps := init + last;
      assert s == s[..n] + [s[n]];
    }
  }

  /**
   * A string may be written in every way that section 7 allows, mixing plain characters, short escapes
   * and hex escapes in either case, surrogate pairs included: the text denotes the string.
   */
  lemma EveryWritingDenotes(s: string, way: nat -> Way, upper: (nat, nat) -> bool)
    ensures Denotes("\"" + CharsText(s, way, upper) + "\"", Str(s))
  {
    StringDenotes(s, way, upper, 10000);
    DenotesIsAtMaxDepth("\"" + CharsText(s, way, upper) + "\"", Str(s));
    hide Denotes, DenotesAt;
  }

  lemma StringDenotes(s: string, way: nat -> Way, upper: (nat, nat) -> bool, room: nat)
    ensures DenotesAt("\"" + CharsText(s, way, upper) + "\"", Str(s), room)
  {
    hide CharsText, TextOf, SpellPieces, PiecesOk;
    var ps := CharsMean(s, way, upper);
    var d := Text(ps);
    assert DocOk(d, room) && Spell(d) == "\"" + CharsText(s, way, upper) + "\"" && Meaning(d) == Str(s);
    hide DocOk, Spell, Meaning;
    DocDenotes(d, room);
  }

  /** A surrogate by itself is no character: it is read as the replacement character. */
  lemma LoneSurrogateDenotes(u: nat, upper: nat -> bool)
    requires 0xD800 <= u <= 0xDFFF
    ensures Denotes("\"" + UnitText(u, upper) + "\"", Str("\U{FFFD}"))
  {
    var p := UnitPiece(u, upper);
    UnitReads(u, upper);
    var d := Text([p]);
    assert [p][1..] == [];
    assert SpellPieces([p]) == UnitText(u, upper) by { hide UnitText; }
    assert TextOf([p]) == "\U{FFFD}" by { hide Unit; }
    assert DocOk(d, 10000);
    hide UnitText, UnitPiece, TextOf, SpellPieces, DocOk;
    DocDenotes(d, 10000);
    DenotesIsAtMaxDepth("\"" + UnitText(u, upper) + "\"", Str("\U{FFFD}"));
  }

  /** Control characters must be escaped: a text with one inside a string denotes nothing. */
  lemma ControlCharactersRefused(before: string, c: char, after: string, v: Json)
    requires c as nat < 0x20 && (forall b <- before :: b as nat >= 0x20 && b != '"' && b != '\\')
    ensures !Denotes("\"" + (before + ([c] + after)), v)
  {
    ControlStops(before, c, after);
    var rest := before + ([c] + after);
    assert ("\"" + rest)[1..] == rest && SkipSpace("\"" + rest) == "\"" + rest;
    hide SkipSpace, ParseChars, Denotes;
    DecodeMeetsGrammar("\"" + rest, v);
  }

  lemma {:induction false} ControlStops(before: string, c: char, after: string)
    requires c as nat < 0x20 && (forall b <- before :: b as nat >= 0x20 && b != '"' && b != '\\')
    ensures ParseChars(before + ([c] + after)) == Malformed
  {
    if before == "" {
      assert before + ([c] + after) == [c] + after;
    } else {
      assert before[0] in before;
      assert (before + ([c] + after))[1..] == before[1..] + ([c] + after);
      assert forall b :: b in before[1..] ==> b in before;
      ControlStops(before[1..], c, after);
    }
  }

  // ---------- white space and words ----------

  /** White space is the space, the tab, the line feed and the carriage return, and nothing else. */
  lemma WhiteSpaceIs(c: char)
    ensures Denotes([c] + "null", Null) <==> c as nat == 0x20 || c as nat == 0x09 || c as nat == 0x0A || c as nat == 0x0D
  {
    var text := [c] + "null";
    assert text[1..] == "null" && SkipSpace("null") == "null";
    DecodeMeetsGrammar(text, Null);
    hide Denotes;
    if IsSpace(c) {
      assert ParseValue(text, MAX_DEPTH) == ParseValue("null", MAX_DEPTH) == ParseWord("null", "null", Null);
      assert "null"[4..] == "";
    } else {
      assert SkipSpace(text) == text;
      assert text[1] == 'n';
      var word := "null";
      assert word <= text ==> text[1] == word[1];
      ParsedNull(text);
    }
  }

  /** Only the word null is read as null. */
  lemma ParsedNull(text: string)
    requires SkipSpace(text) == text && text != ""
    ensures ParseValue(text, MAX_DEPTH).Parsed? && ParseValue(text, MAX_DEPTH).value == Null ==> "null" <= text
  {
    hide SkipSpace, ParseMembers, ParseItems, ParseChars, ScanNumber;
  }

  lemma WordsDenote()
    ensures Denotes("null", Null) && Denotes("true", Bool(true)) && Denotes("false", Bool(false))
  {
    WordDenotes(Null);
    WordDenotes(Bool(true));
    WordDenotes(Bool(false));
  }

  lemma WordDenotes(v: Json)
    requires v.Null? || v.Bool?
    ensures Denotes(Spell(Word(v)), v)
  {
    DocDenotes(Word(v), 10000);
    DenotesIsAtMaxDepth(Spell(Word(v)), v);
    hide Denotes, DenotesAt;
  }

  // ---------- numbers ----------

  predicate DigitString(s: string) {
    s != "" && forall i :: 0 <= i < |s| ==> '0' <= s[i] <= '9'
  }

  predicate ExponentString(e: string) {
    && |e| >= 2 && (e[0] == 'e' || e[0] == 'E')
    && (DigitString(e[1..]) || ((e[1] == '+' || e[1] == '-') && DigitString(e[2..])))
  }

  /** minus? int frac? exp? -- section 6, in four strings. */
  ghost predicate NumberParts(s: string, minus: string, whole: string, fraction: string, exponent: string) {
    && s == minus + (whole + (fraction + exponent))
    && (minus == "" || minus == "-")
    && DigitString(whole) && (|whole| > 1 ==> whole[0] != '0')
    && (fraction == "" || (fraction[0] == '.' && DigitString(fraction[1..])))
    && (exponent == "" || ExponentString(exponent))
  }

  ghost predicate NumberString(s: string) {
    exists minus, whole, fraction, exponent :: NumberParts(s, minus, whole, fraction, exponent)
  }

  lemma DigitStrings(s: string)
    ensures Digits(s) <==> DigitString(s)
  {
    if DigitString(s) {
      forall c | c in s ensures IsDigit(c) {
        var i :| 0 <= i < |s| && s[i] == c;
      }
    } else if s != "" {
      var i :| 0 <= i < |s| && !('0' <= s[i] <= '9');
      assert s[i] in s;
    }
  }

  lemma ExponentStrings(e: Exponent)
    requires ExponentOk(e)
    ensures ExponentString([e.letter] + (e.sign + e.digits))
  {
    var s := [e.letter] + (e.sign + e.digits);
    DigitStrings(e.digits);
    assert s[1..] == e.sign + e.digits;
    if e.sign == "" {
      assert s[1..] == e.digits;
    } else {
      assert s[2..] == e.digits;
    }
  }

  lemma ExponentOf(s: string) returns (e: Exponent)
    requires ExponentString(s)
    ensures ExponentOk(e) && s == [e.letter] + (e.sign + e.digits)
  {
    if DigitString(s[1..]) {
      e := Exponent(s[0], "", s[1..]);
      DigitStrings(s[1..]);
      assert "" + s[1..] == s[1..];
    } else {
      e := Exponent(s[0], [s[1]], s[2..]);
      DigitStrings(s[2..]);
      assert s[1..] == [s[1]] + s[2..];
    }
  }

  /** The number tokens of the reader are the number texts of section 6, no more and no fewer. */
  lemma NumberTextsAre(s: string)
    ensures IsNumberText(s) <==> NumberString(s)
  {
    hide DigitString, Digits, ExponentString, ExponentOk;
    if IsNumberText(s) {
      var n :| NumberOk(n) && NumberText(n) == s;
      NumberHasParts(n);
    }
    if NumberString(s) {
      var minus, whole, fraction, exponent :| NumberParts(s, minus, whole, fraction, exponent);
      var _ := NumberFromParts(s, minus, whole, fraction, exponent);
    }
  }

  lemma NumberHasParts(n: NumberToken)
    requires NumberOk(n)
    ensures NumberString(NumberText(n))
  {
    DigitStrings(n.whole);
    assert n.whole != "";
    if n.fraction.Some? {
      DigitStrings(n.fraction.value);
      assert ("." + n.fraction.value)[1..] == n.fraction.value;
    }
    if n.exponent.Some? {
      ExponentStrings(n.exponent.value);
    }
    hide DigitString, Digits, ExponentString, ExponentOk;
    assert NumberParts(NumberText(n), if n.minus then "-" else "", n.whole, FractionText(n.fraction), ExponentText(n.exponent));
  }

  lemma NumberFromParts(s: string, minus: string, whole: string, fraction: string, exponent: string) returns (n: NumberToken)
    requires NumberParts(s, minus, whole, fraction, exponent)
    ensures NumberOk(n) && NumberText(n) == s
  {
    DigitStrings(whole);
    assert whole != "";
    var f: Option<string>, e: Option<Exponent> := None, None;
    if fraction != "" {
      f := Some(fraction[1..]);
      DigitStrings(fraction[1..]);
      assert fraction == "." + fraction[1..];
    }
    if exponent != "" {
      var x := ExponentOf(exponent);
      e := Some(x);
    }
    n := NumberToken(minus == "-", whole, f, e);
    hide DigitString, Digits, ExponentString, ExponentOk;
  }

  /** A number is its own text: it denotes itself, and no other value is a number with that text. */
  lemma NumbersDenote(s: string)
    ensures Denotes(s, Num(s)) <==> NumberString(s)
  {
    NumberTextsAre(s);
    if IsNumberText(s) {
      var n :| NumberOk(n) && NumberText(n) == s;
      DocDenotes(Number(n), 10000);
      DenotesIsAtMaxDepth(s, Num(s));
    }
    if Denotes(s, Num(s)) {
      var pad, d, end :| DenotedBy(s, Num(s), pad, d, end);
      NumberMeaning(d, s);
    }
    hide IsNumberText, Denotes, DenotesAt, NumberString;
  }

  lemma NumberMeaning(d: Doc, s: string)
    requires DocOk(d, MAX_DEPTH) && Meaning(d) == Num(s)
    ensures IsNumberText(s)
  {
    hide NumberOk, NumberText;
  }

  // ---------- arrays and objects ----------

  function Join(texts: seq<string>): string {
    if texts == [] then "" else texts[0] + (if |texts| == 1 then "" else "," + Join(texts[1..]))
  }

  lemma Witness(text: string, v: Json, room: nat) returns (p: Padded)
    requires DenotesAt(text, v, room)
    ensures PaddedOk(p, room) && SpellPadded(p) == text && Meaning(p.doc) == v
  {
    hide DocOk, Spell, Meaning;
    var pad, d, end :| DenotedAtBy(text, v, room, pad, d, end);
    p := Padded(pad, d, end);
    assert pad + (Spell(d) + end) == pad + Spell(d) + end;
  }

  lemma {:induction false} Witnesses(texts: seq<string>, values: seq<Json>, room: nat) returns (es: seq<Padded>)
    requires |texts| == |values| && forall i :: 0 <= i < |texts| ==> DenotesAt(texts[i], values[i], room)
    ensures |es| == |texts| && forall e <- es :: PaddedOk(e, room)
    ensures MeaningOfElements(es) == values && (es != [] ==> SpellElements(es) == Join(texts))
  {
    if texts == [] {
      es := [];
    } else {
      var p := Witness(texts[0], values[0], room);
      hide DenotesAt, PaddedOk, SpellPadded, Meaning;
      var more := Witnesses(texts[1..], values[1..], room);
      es := [p] + more;
      assert values == [values[0]] + values[1..];
      assert es[1..] == more;
    }
  }

  /** Values in brackets, separated by commas, are an array one level deeper. */
  lemma ArraysDenote(texts: seq<string>, values: seq<Json>, room: nat)
    requires |texts| == |values| && forall i :: 0 <= i < |texts| ==> DenotesAt(texts[i], values[i], room)
    ensures DenotesAt("[" + Join(texts) + "]", Arr(values), room + 1)
  {
    var es := Witnesses(texts, values, room);
    var d := Array(es, "");
    assert DocOk(d, room + 1) by { hide PaddedOk; }
    assert Spell(d) == "[" + Join(texts) + "]" by { hide SpellElements; }
    assert Meaning(d) == Arr(values);
    hide DocOk, Spell, Meaning, Join, DenotesAt;
    DocDenotes(d, room + 1);
  }

  /** The last value given for a key. */
  function LastValue(keys: seq<string>, values: seq<Json>, key: string): Option<Json>
    requires |keys| == |values|
  {
    if keys == [] then None
    else if keys[|keys| - 1] == key then Some(values[|keys| - 1])
    else LastValue(keys[..|keys| - 1], values[..|keys| - 1], key)
  }

  function MemberTexts(keyTexts: seq<string>, texts: seq<string>): seq<string>
    requires |keyTexts| == |texts|
  {
    seq(|texts|, i requires 0 <= i < |texts| => keyTexts[i] + ":" + texts[i])
  }

  lemma KeyWitness(text: string, key: string, room: nat) returns (before: string, ps: seq<Piece>, after: string)
    requires DenotesAt(text, Str(key), room)
    ensures AllSpace(before) && AllSpace(after) && PiecesOk(ps) && TextOf(ps) == key
    ensures text == before + "\"" + SpellPieces(ps) + "\"" + after
  {
    var pad, d, end :| DenotedAtBy(text, Str(key), room, pad, d, end);
    before, ps, after := pad, d.pieces, end;
    hide PiecesOk, TextOf, SpellPieces, AllSpace;
    assert text == pad + (("\"" + SpellPieces(ps) + "\"") + end);
  }

  lemma {:induction false} MemberWitnesses(
      keyTexts: seq<string>, keys: seq<string>, texts: seq<string>, values: seq<Json>, room: nat)
      returns (ms: seq<Member>)
    requires |keyTexts| == |keys| == |texts| == |values|
    requires forall i :: 0 <= i < |keys| ==> DenotesAt(keyTexts[i], Str(keys[i]), room)
    requires forall i :: 0 <= i < |keys| ==> DenotesAt(texts[i], values[i], room)
    ensures |ms| == |keys| && forall m <- ms :: MemberOk(m, room)
    ensures forall i :: 0 <= i < |ms| ==> TextOf(ms[i].key) == keys[i] && Meaning(ms[i].value.doc) == values[i]
    ensures ms != [] ==> SpellMembers(ms) == Join(MemberTexts(keyTexts, texts))
  {
    hide DenotesAt, MemberOk, SpellMember, SpellMembers, Meaning, TextOf, Join, MemberTexts;
    if keys == [] {
      ms := [];
    } else {
      var m := MemberWitness(keyTexts[0], keys[0], texts[0], values[0], room);
      var more := MemberWitnesses(keyTexts[1..], keys[1..], texts[1..], values[1..], room);
      ms := [m] + more;
      MembersJoin(m, more, keyTexts, texts);
    }
  }

  lemma MemberWitness(keyText: string, key: string, text: string, value: Json, room: nat) returns (m: Member)
    requires DenotesAt(keyText, Str(key), room) && DenotesAt(text, value, room)
    ensures MemberOk(m, room) && TextOf(m.key) == key && Meaning(m.value.doc) == value
    ensures SpellMember(m) == keyText + ":" + text
  {
    hide DenotesAt, PaddedOk, SpellPadded, SpellMember, SpellPieces, Meaning, TextOf;
    var before, ps, after := KeyWitness(keyText, key, room);
    var p := Witness(text, value, room);
    m := Member(before, ps, after, p);
    MemberSpells(m, keyText, text);
  }

  lemma MembersJoin(m: Member, more: seq<Member>, keyTexts: seq<string>, texts: seq<string>)
    requires |keyTexts| == |texts| == |more| + 1 && SpellMember(m) == keyTexts[0] + ":" + texts[0]
    requires more != [] ==> SpellMembers(more) == Join(MemberTexts(keyTexts[1..], texts[1..]))
    ensures SpellMembers([m] + more) == Join(MemberTexts(keyTexts, texts))
  {
    hide SpellMember, SpellMembers, Join;
    var ts := MemberTexts(keyTexts, texts);
    assert ts[1..] == MemberTexts(keyTexts[1..], texts[1..]);
    assert ts[0] == SpellMember(m);
    JoinUnfolds(ts);
    SpellMembersUnfolds(m, more);
  }

  lemma JoinUnfolds(texts: seq<string>)
    requires texts != []
    ensures Join(texts) == texts[0] + (if |texts| == 1 then "" else "," + Join(texts[1..]))
  {
  }

  lemma SpellMembersUnfolds(m: Member, more: seq<Member>)
    ensures SpellMembers([m] + more) == SpellMember(m) + (if more == [] then "" else "," + SpellMembers(more))
  {
    hide SpellMember;
    assert ([m] + more)[1..] == more;
  }

  lemma MemberSpells(m: Member, keyText: string, text: string)
    requires keyText == m.before + "\"" + SpellPieces(m.key) + "\"" + m.after && text == SpellPadded(m.value)
    ensures SpellMember(m) == keyText + ":" + text
  {
    hide SpellPadded, SpellPieces;
  }

  lemma {:induction false} LastOfIsLastValue(ms: seq<Member>, keys: seq<string>, values: seq<Json>, key: string)
    requires |ms| == |keys| == |values|
    requires forall i :: 0 <= i < |ms| ==> TextOf(ms[i].key) == keys[i] && Meaning(ms[i].value.doc) == values[i]
    ensures LastOf(ms, key) == LastValue(keys, values, key)
    decreases |ms|
  {
    hide TextOf, Meaning;
    if ms != [] {
      var n := |ms| - 1;
      LastOfIsLastValue(ms[..n], keys[..n], values[..n], key);
      LastOfMore(ms[..n], ms[n], key);
      assert ms == ms[..n] + [ms[n]];
    }
  }

  lemma {:induction false} LastOfMore(ms: seq<Member>, m: Member, key: string)
    ensures LastOf(ms + [m], key) == if TextOf(m.key) == key then Some(Meaning(m.value.doc)) else LastOf(ms, key)
  {
    hide TextOf, Meaning;
    if ms == [] {
      assert ms + [m] == [m] && [m][1..] == [];
    } else {
      assert (ms + [m])[1..] == ms[1..] + [m];
      LastOfMore(ms[1..], m, key);
    }
  }

  /** Members in braces are the object in which each key has the last value given for it, keys ascending. */
  lemma ObjectsDenote(
      keyTexts: seq<string>, keys: seq<string>, texts: seq<string>, values: seq<Json>, fields: seq<Field>, room: nat)
    requires |keyTexts| == |keys| == |texts| == |values|
    requires forall i :: 0 <= i < |keys| ==> DenotesAt(keyTexts[i], Str(keys[i]), room)
    requires forall i :: 0 <= i < |keys| ==> DenotesAt(texts[i], values[i], room)
    requires Sorted(fields) && forall key :: Lookup(fields, key) == LastValue(keys, values, key)
    ensures DenotesAt("{" + Join(MemberTexts(keyTexts, texts)) + "}", Obj(fields), room + 1)
  {
    hide DenotesAt, PaddedOk, MemberOk, PiecesOk, TextOf, Lookup, LastValue, Sorted, Join, MemberTexts, Meaning, SpellMembers;
    var ms := MemberWitnesses(keyTexts, keys, texts, values, room);
    FieldsFound(ms, keys, values, fields);
    if ms == [] { NothingJoined(keyTexts, texts); }
    ObjectDenotes(ms, Join(MemberTexts(keyTexts, texts)), fields, room);
  }

  lemma NothingJoined(keyTexts: seq<string>, texts: seq<string>)
    requires |keyTexts| == |texts| == 0
    ensures Join(MemberTexts(keyTexts, texts)) == ""
  {
  }

  lemma ObjectDenotes(ms: seq<Member>, text: string, fields: seq<Field>, room: nat)
    requires (forall m <- ms :: MemberOk(m, room)) && MeaningOfMembers(ms, []) == fields
    requires text == if ms == [] then "" else SpellMembers(ms)
    ensures DenotesAt("{" + text + "}", Obj(fields), room + 1)
  {
    hide MemberOk, SpellMembers, MeaningOfMembers, DenotesAt;
    var d := Object(ms, "");
    assert DocOk(d, room + 1) && Spell(d) == "{" + text + "}" && Meaning(d) == Obj(fields);
    hide DocOk, Spell, Meaning;
    DocDenotes(d, room + 1);
  }

  lemma FieldsFound(ms: seq<Member>, keys: seq<string>, values: seq<Json>, fields: seq<Field>)
    requires |ms| == |keys| == |values|
    requires forall i :: 0 <= i < |ms| ==> TextOf(ms[i].key) == keys[i] && Meaning(ms[i].value.doc) == values[i]
    requires Sorted(fields) && forall key :: Lookup(fields, key) == LastValue(keys, values, key)
    ensures MeaningOfMembers(ms, []) == fields
  {
    hide TextOf, Meaning;
    MembersAsMap(ms, [], "");
    forall key ensures Lookup(MeaningOfMembers(ms, []), key) == Lookup(fields, key) {
      FieldAt(ms, key);
      LastOfIsLastValue(ms, keys, values, key);
    }
    SameMapSameFields(MeaningOfMembers(ms, []), fields);
  }

  // ---------- depth ----------

  function Nested(n: nat): string {
    if n == 0 then "null" else "[" + Nested(n - 1) + "]"
  }

  lemma {:induction false} NestedDenotes(n: nat) returns (v: Json)
    ensures DenotesAt(Nested(n), v, n)
  {
    if n == 0 {
      v := Null;
      DocDenotes(Word(Null), 0);
    } else {
      var w := NestedDenotes(n - 1);
      hide DenotesAt;
      v := Arr([w]);
      ArraysDenote([Nested(n - 1)], [w], n - 1);
      assert Join([Nested(n - 1)]) == Nested(n - 1);
    }
  }

  lemma {:induction false} NestedStarts(n: nat, t: string)
    ensures var s := Nested(n) + t;
            SkipSpace(s) == s && s[0] == if n == 0 then 'n' else '['
  {
    if n > 0 {
      assert Nested(n) + t == "[" + (Nested(n - 1) + "]" + t);
    }
  }

  lemma {:induction false} TooDeep(n: nat, t: string, room: nat)
    requires n > room
    ensures ParseValue(Nested(n) + t, room) == Malformed
  {
    NestedStarts(n, t);
    if room > 0 {
      var rest := Nested(n - 1) + ("]" + t);
      assert (Nested(n) + t)[1..] == rest;
      NestedStarts(n - 1, "]" + t);
      TooDeep(n - 1, "]" + t, room - 1);
      hide SkipSpace, Nested;
    }
  }

  lemma {:induction false} DeeperIsFine(d: Doc, room: nat, more: nat)
    requires DocOk(d, room) && room <= more
    ensures DocOk(d, more)
    decreases d
  {
    match d
    case Array(es, _) =>
      forall e | e in es ensures PaddedOk(e, more - 1) {
        assert PaddedOk(e, room - 1);
        DeeperIsFine(e.doc, room - 1, more - 1);
      }
    case Object(ms, _) =>
      forall m | m in ms ensures MemberOk(m, more - 1) {
        assert MemberOk(m, room - 1) && PaddedOk(m.value, room - 1);
        DeeperIsFine(m.value.doc, room - 1, more - 1);
        assert PaddedOk(m.value, more - 1);
      }
    case _ =>
  }

  /** Arrays may be nested ten thousand deep, and no deeper. */
  lemma DepthLimit(n: nat)
    ensures (exists v :: Denotes(Nested(n), v)) <==> n <= 10000
  {
    if n <= 10000 {
      var v := NestedDenotes(n);
      hide Nested;
      var pad, d, end :| DenotedAtBy(Nested(n), v, n, pad, d, end);
      DeeperIsFine(d, n, 10000);
      assert DenotedBy(Nested(n), v, pad, d, end) by { hide DocOk, Spell, Meaning, AllSpace; }
      assert Denotes(Nested(n), v);
    } else {
      TooDeep(n, "", 10000);
      assert Nested(n) + "" == Nested(n);
      hide Nested, Denotes;
      forall v ensures !Denotes(Nested(n), v) {
        DecodeMeetsGrammar(Nested(n), v);
      }
    }
  }

  // ---------- key order, and what a canonical text looks like ----------

  /** a comes before b if it is a proper prefix of b, or has the smaller character where they first differ. */
  ghost predicate Before(a: string, b: string) {
    || (|a| < |b| && b[..|a|] == a)
    || (exists i :: 0 <= i < |a| && i < |b| && a[..i] == b[..i] && a[i] < b[i])
  }

  lemma {:induction false} KeysOrderedByCodePoint(a: string, b: string)
    ensures Less(a, b) <==> Before(a, b)
  {
    if a == "" || b == "" {
    } else if a[0] != b[0] {
      if a[0] < b[0] {
        assert a[..0] == b[..0];
      } else if Before(a, b) {
        DifferentHeads(a, b);
      }
    } else {
      KeysOrderedByCodePoint(a[1..], b[1..]);
      BeforeTail(a, b);
    }
  }

  lemma DifferentHeads(a: string, b: string)
    requires a != "" && b != "" && b[0] < a[0]
    ensures !Before(a, b)
  {
    if |a| < |b| {
      assert b[..|a|][0] == b[0];
    }
    forall i | 0 < i < |a| && i < |b| ensures a[..i] != b[..i] {
      assert a[..i][0] == a[0] && b[..i][0] == b[0];
    }
  }

  lemma BeforeTail(a: string, b: string)
    requires a != "" && b != "" && a[0] == b[0]
    ensures Before(a, b) <==> Before(a[1..], b[1..])
  {
    var x, y := a[1..], b[1..];
    assert a == [a[0]] + x && b == [b[0]] + y;
    if |a| <= |b| {
      assert b[..|a|] == [b[0]] + y[..|x|];
      assert b[..|a|] == a <==> y[..|x|] == x;
    }
    forall i | 0 <= i < |x| && i < |y| ensures x[..i] == y[..i] <==> a[..i + 1] == b[..i + 1] {
      assert a[..i + 1] == [a[0]] + x[..i] && b[..i + 1] == [b[0]] + y[..i];
      assert a[..i + 1][1..] == x[..i] && b[..i + 1][1..] == y[..i];
    }
    if Before(x, y) && !(|x| < |y| && y[..|x|] == x) {
      var i :| 0 <= i < |x| && i < |y| && x[..i] == y[..i] && x[i] < y[i];
      assert a[..i + 1] == b[..i + 1] && a[i + 1] < b[i + 1];
    }
    if Before(a, b) && !(|a| < |b| && b[..|a|] == a) {
      var i :| 0 <= i < |a| && i < |b| && a[..i] == b[..i] && a[i] < b[i];
      assert x[..i - 1] == y[..i - 1] && x[i - 1] < y[i - 1];
    }
  }

  // ---------- a worked example ----------

  predicate Letters(s: string) {
    forall i :: 0 <= i < |s| ==> 'a' <= s[i] <= 'z' || 'A' <= s[i] <= 'Z'
  }

  function Quoted(s: string): string {
    "\"" + s + "\""
  }

  function Plainly(n: nat): Way {
    AsItIs
  }

  function LowerCase(n: nat, digit: nat): bool {
    false
  }

  lemma {:induction false} LettersAsTheyAre(s: string)
    requires Letters(s)
    ensures CharsText(s, Plainly, LowerCase) == s
  {
    if s != "" {
      var n := |s| - 1;
      LettersAsTheyAre(s[..n]);
      LetterAsItIs(s[n], CasesOf(LowerCase, n));
      hide CharText, CasesOf;
      assert s == s[..n] + [s[n]];
    }
  }

  lemma LetterAsItIs(c: char, upper: nat -> bool)
    requires 'a' <= c <= 'z' || 'A' <= c <= 'Z'
    ensures CharText(c, AsItIs, upper) == [c]
  {
    hide HexText;
  }

  lemma {:induction false} LettersUnescaped(s: string)
    requires Letters(s)
    ensures EscapeAll(s) == s
  {
    if s != "" {
      LettersUnescaped(s[1..]);
      assert s == [s[0]] + s[1..];
    }
  }

  lemma LettersDenote(s: string, room: nat)
    requires Letters(s)
    ensures DenotesAt(Quoted(s), Str(s), room)
  {
    hide DenotesAt, CharsText;
    LettersAsTheyAre(s);
    StringDenotes(s, Plainly, LowerCase, room);
  }

  lemma AmountDenotes(room: nat)
    ensures DenotesAt("300", Num("300"), room)
  {
    var n := NumberToken(false, "300", None, None);
    assert NumberText(n) == "300" by { assert "" + ("300" + ("" + "")) == "300"; }
    DocDenotes(Number(n), room);
    hide DenotesAt;
  }

  /** Two members, in the text's own order. */
  function TwoMembers(k: string, v: string, l: string, w: string): string {
    "{" + (k + ":" + v + "," + (l + ":" + w)) + "}"
  }

  lemma TwoMembersDenote(
      k: string, key: string, v: string, x: Json, l: string, key': string, w: string, y: Json, fields: seq<Field>)
    requires DenotesAt(k, Str(key), 9999) && DenotesAt(l, Str(key'), 9999)
    requires DenotesAt(v, x, 9999) && DenotesAt(w, y, 9999)
    requires key != key' && Sorted(fields)
    requires fields == [Field(key, x), Field(key', y)] || fields == [Field(key', y), Field(key, x)]
    ensures Denotes(TwoMembers(k, v, l, w), Obj(fields))
  {
    hide DenotesAt, Denotes, Sorted;
    var texts := MemberTexts([k, l], [v, w]);
    assert texts == [k + ":" + v, l + ":" + w] && texts[1..] == [l + ":" + w];
    JoinUnfolds(texts);
    JoinUnfolds([l + ":" + w]);
    assert Join([l + ":" + w]) == l + ":" + w;
    hide Join, MemberTexts;
    forall other ensures Lookup(fields, other) == LastValue([key, key'], [x, y], other) {
      LookupTwo(fields, other);
      LastOfTwo(key, x, key', y, other);
    }
    ObjectsDenote([k, l], [key, key'], [v, w], [x, y], fields, 9999);
    assert k + ":" + v + ("," + (l + ":" + w)) == k + ":" + v + "," + (l + ":" + w);
    DenotesIsAtMaxDepth(TwoMembers(k, v, l, w), Obj(fields));
  }

  lemma LookupTwo(fields: seq<Field>, key: string)
    requires |fields| == 2
    ensures Lookup(fields, key) ==
      if fields[0].key == key then Some(fields[0].value) else if fields[1].key == key then Some(fields[1].value) else None
  {
    assert fields[1..][1..] == [] && fields[1..][0] == fields[1];
    assert Lookup(fields[1..], key) == if fields[1].key == key then Some(fields[1].value) else None;
  }

  lemma LastOfTwo(k: string, x: Json, l: string, y: Json, key: string)
    ensures LastValue([k, l], [x, y], key) == if l == key then Some(y) else if k == key then Some(x) else None
  {
    assert [k, l][..1] == [k] && [x, y][..1] == [x] && [k][..0] == [] && [x][..0] == [];
    assert LastValue([k], [x], key) == if k == key then Some(x) else None;
  }

  lemma CanonicalOf(body: string, v: Json)
    requires Denotes(body, v)
    ensures Canonical(body) == Ok(Print(v))
  {
    EmptyDenotesNothing(v);
    DecodeMeetsGrammar(body, v);
    hide Denotes, Print, ParseValue;
  }

  /** An amount and a currency in either order: the canonical text has the keys ascending and no white space. */
  lemma MembersAreOrdered(currency: string)
    requires Letters(currency)
    ensures var canonical := TwoMembers(Quoted("amount"), "300", Quoted("currency"), Quoted(currency));
            && Canonical(TwoMembers(Quoted("currency"), Quoted(currency), Quoted("amount"), "300")) == Ok(canonical)
            && Canonical(canonical) == Ok(canonical)
  {
    hide DenotesAt, Denotes, Canonical, Print, TwoMembers, Quoted, EscapeAll;
    var fields := [Field("amount", Num("300")), Field("currency", Str(currency))];
    LettersDenote("amount", 9999);
    LettersDenote("currency", 9999);
    LettersDenote(currency, 9999);
    AmountDenotes(9999);
    AmountFirst(fields);
    TwoMembersDenote(Quoted("currency"), "currency", Quoted(currency), Str(currency), Quoted("amount"), "amount", "300",
      Num("300"), fields);
    TwoMembersDenote(Quoted("amount"), "amount", "300", Num("300"), Quoted("currency"), "currency", Quoted(currency),
      Str(currency), fields);
    LettersPrint(currency);
    PrintTwo(Field("amount", Num("300")), Field("currency", Str(currency)), "300", Quoted(currency));
    CanonicalOf(TwoMembers(Quoted("currency"), Quoted(currency), Quoted("amount"), "300"), Obj(fields));
    CanonicalOf(TwoMembers(Quoted("amount"), "300", Quoted("currency"), Quoted(currency)), Obj(fields));
  }

  lemma AmountFirst(fields: seq<Field>)
    requires |fields| == 2 && fields[0].key == "amount" && fields[1].key == "currency"
    ensures Sorted(fields)
  {
    assert Less("amount", "currency");
  }

  lemma LettersPrint(currency: string)
    requires Letters(currency)
    ensures EscapeAll("amount") == "amount" && EscapeAll("currency") == "currency"
    ensures Print(Num("300")) == "300" && Print(Str(currency)) == Quoted(currency)
  {
    hide EscapeAll, Print, Quoted;
    LettersUnescaped("amount");
    LettersUnescaped("currency");
    LettersUnescaped(currency);
    ScalarsPrint("300", currency);
  }

  lemma ScalarsPrint(literal: string, s: string)
    ensures Print(Num(literal)) == literal
    ensures EscapeAll(s) == s ==> Print(Str(s)) == Quoted(s)
  {
    hide EscapeAll;
  }

  lemma PrintTwo(a: Field, c: Field, x: string, y: string)
    requires Print(a.value) == x && Print(c.value) == y && EscapeAll(a.key) == a.key && EscapeAll(c.key) == c.key
    ensures Print(Obj([a, c])) == TwoMembers(Quoted(a.key), x, Quoted(c.key), y)
  {
    hide EscapeAll;
    assert [a, c][1..] == [c];
    var p, q := Quoted(a.key) + ":" + x, Quoted(c.key) + ":" + y;
    assert PrintFields([c]) == q + "" == q;
    assert PrintFields([a, c]) == p + ("," + PrintFields([c]));
    assert p + ("," + q) == Quoted(a.key) + ":" + x + "," + q;
  }
}
