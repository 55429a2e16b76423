/**
 * The grammar of RFC 8259 as derivation trees: what text a tree spells and what value it means. The
 * reader accepts every text of the grammar, in any layout, and reads it as its meaning.
 */
module JsonGrammar {
  import opened Wrappers
  import opened JsonText

  /** One character of a string as written (section 7). */
  datatype Piece = Plain(c: char) | Short(c: char) | Unicode(hex: string)

  datatype Doc =
    | Word(value: Json)
    | Number(number: NumberToken)
    | Text(pieces: seq<Piece>)
    | Array(elements: seq<Padded>, gap: string)
    | Object(members: seq<Member>, gap: string)

  /** A value with the white space around it. */
  datatype Padded = Padded(before: string, doc: Doc, after: string)

  datatype Member = Member(before: string, key: seq<Piece>, after: string, value: Padded)

  // ---------- spelling ----------

  function SpellPiece(p: Piece): string {
    match p
    case Plain(c) => [c]
    case Short(c) => ['\\', c]
    case Unicode(hex) => "\\u" + hex
  }

  function SpellPieces(ps: seq<Piece>): string {
    if ps == [] then "" else SpellPiece(ps[0]) + SpellPieces(ps[1..])
  }

  function Spell(d: Doc): string
    decreases d
  {
    match d
    case Word(v) => if v == Null then "null" else if v == Bool(true) then "true" else "false"
    case Number(n) => NumberText(n)
    case Text(ps) => "\"" + SpellPieces(ps) + "\""
    case Array(elements, gap) => if elements == [] then "[" + gap + "]" else "[" + SpellElements(elements) + "]"
    case Object(members, gap) => if members == [] then "{" + gap + "}" else "{" + SpellMembers(members) + "}"
  }

  function SpellPadded(p: Padded): string
    decreases p
  {
    p.before + Spell(p.doc) + p.after
  }

  function SpellElements(es: seq<Padded>): string
    requires es != []
    decreases es
  {
    SpellPadded(es[0]) + (if |es| == 1 then "" else "," + SpellElements(es[1..]))
  }

  function SpellMember(m: Member): string
    decreases m
  {
    m.before + "\"" + SpellPieces(m.key) + "\"" + m.after + ":" + SpellPadded(m.value)
  }

  function SpellMembers(ms: seq<Member>): string
    requires ms != []
    decreases ms
  {
    SpellMember(ms[0]) + (if |ms| == 1 then "" else "," + SpellMembers(ms[1..]))
  }

  // ---------- well-formed trees ----------

  predicate AllSpace(s: string) {
    forall c <- s :: IsSpace(c)
  }

  predicate PieceOk(p: Piece) {
    match p
    case Plain(c) => c >= ' ' && c != '"' && c != '\\'
    case Short(c) => ShortEscape(c).Some?
    case Unicode(hex) => |hex| == 4 && Hex4(hex).Some?
  }

  predicate PiecesOk(ps: seq<Piece>) {
    forall p <- ps :: PieceOk(p)
  }

  predicate DocOk(d: Doc, room: nat)
    decreases d
  {
    match d
    case Word(v) => v.Null? || v.Bool?
    case Number(n) => NumberOk(n)
    case Text(ps) => PiecesOk(ps)
    case Array(elements, gap) => room > 0 && AllSpace(gap) && forall e <- elements :: PaddedOk(e, room - 1)
    case Object(members, gap) => room > 0 && AllSpace(gap) && forall m <- members :: MemberOk(m, room - 1)
  }

  /** A tree of at most `room` levels. */
  predicate PaddedOk(p: Padded, room: nat)
    decreases p
  {
    AllSpace(p.before) && AllSpace(p.after) && DocOk(p.doc, room)
  }

  predicate MemberOk(m: Member, room: nat)
    decreases m
  {
    AllSpace(m.before) && AllSpace(m.after) && PiecesOk(m.key) && PaddedOk(m.value, room)
  }

  // ---------- meaning ----------

  /** The code unit of a piece written as \uXXXX. */
  function Unit(p: Piece): Option<nat> {
    if p.Unicode? then Hex4(p.hex) else None
  }

  /** A character written as itself or by a one-letter escape. */
  function Single(p: Piece): string {
    match p
    case Plain(c) => [c]
    case Short(c) => (match ShortEscape(c) case Some(e) => [e] case None => "")
    case Unicode(_) => ""
  }

  /** Escaped surrogate pairs make one character; lone surrogates become the replacement character. */
  function TextOf(ps: seq<Piece>): string {
    if ps == [] then ""
    else
      match Unit(ps[0])
      case None => Single(ps[0]) + TextOf(ps[1..])
      case Some(u) =>
        if |ps| > 1 && Unit(ps[1]).Some? && IsPair(u, Unit(ps[1]).value) then
          [PairChar(u, Unit(ps[1]).value)] + TextOf(ps[2..])
        else
          [UnitChar(u)] + TextOf(ps[1..])
  }

  function Meaning(d: Doc): Json
    decreases d
  {
    match d
    case Word(v) => v
    case Number(n) => Num(NumberText(n))
    case Text(ps) => Str(TextOf(ps))
    case Array(elements, _) => Arr(MeaningOfElements(elements))
    case Object(members, _) => Obj(MeaningOfMembers(members, []))
  }

  function MeaningOfElements(es: seq<Padded>): seq<Json>
    decreases es
  {
    if es == [] then [] else [Meaning(es[0].doc)] + MeaningOfElements(es[1..])
  }

  /** Members in order, each replacing an earlier one of the same key. */
  function MeaningOfMembers(ms: seq<Member>, fields: seq<Field>): seq<Field>
    decreases ms
  {
    if ms == [] then fields
    else MeaningOfMembers(ms[1..], Put(fields, TextOf(ms[0].key), Meaning(ms[0].value.doc)))
  }

  // ---------- the reader on white space and numbers ----------

  lemma {:induction false} SkipsSpace(pad: string, t: string)
    requires AllSpace(pad) && (t != "" ==> !IsSpace(t[0]))
    ensures SkipSpace(pad + t) == t
  {
    if pad == "" {
      assert pad + t == t;
    } else {
      assert pad[0] in pad && (pad + t)[1..] == pad[1..] + t;
      SkipsSpace(pad[1..], t);
    }
  }

  /** A longer prefix of white space is skipped as well. */
  lemma {:induction false} SkipsPad(pad: string, s: string)
    requires AllSpace(pad)
    ensures SkipSpace(pad + s) == SkipSpace(s)
  {
    if pad == "" {
      assert pad + s == s;
    } else {
      assert pad[0] in pad && (pad + s)[1..] == pad[1..] + s;
      SkipsPad(pad[1..], s);
    }
  }

  /** Text at which any number token ends. */
  predicate Stops(t: string) {
    t == "" || !(IsDigit(t[0]) || t[0] == '.' || t[0] == 'e' || t[0] == 'E')
  }

  predicate StartsDigit(t: string) {
    t != "" && IsDigit(t[0])
  }

  /** Where this very number token ends: the text after it starts with nothing the token could take in. */
  predicate Ends(n: NumberToken, t: string) {
    if n.exponent.Some? then !StartsDigit(t)
    else if Starts(t, 'e') || Starts(t, 'E') then false
    else if n.fraction.Some? then !StartsDigit(t)
    else !Starts(t, '.') && (n.whole != "0" ==> !StartsDigit(t))
  }

  lemma {:induction false} TakesDigits(d: string, t: string)
    requires forall c <- d :: IsDigit(c)
    requires t == "" || !IsDigit(t[0])
    ensures DigitsOf(d + t) == d
  {
    if d == "" {
      assert d + t == t;
    } else {
      assert d[0] in d && (d + t)[1..] == d[1..] + t;
      TakesDigits(d[1..], t);
    }
  }

  lemma ScansWhole(whole: string, t: string)
    requires Digits(whole) && (whole[0] == '0' ==> |whole| == 1)
    requires whole != "0" ==> !StartsDigit(t)
    ensures ScanWhole(whole + t) == Parsed(whole, t)
  {
    if whole[0] == '0' {
      assert whole == "0" && (whole + t)[1..] == t;
      assert whole + t != "" && IsDigit((whole + t)[0]);
    } else {
      TakesDigits(whole, t);
      AfterPrefix(whole, t);
    }
  }

  lemma ScansFraction(f: Option<string>, t: string)
    requires f.Some? ==> Digits(f.value)
    requires if f.Some? then !StartsDigit(t) else !Starts(t, '.')
    ensures ScanFraction(FractionText(f) + t) == Parsed(f, t)
  {
    if f.None? {
      assert "" + t == t;
    } else {
      assert (FractionText(f) + t)[1..] == f.value + t;
      TakesDigits(f.value, t);
      assert (f.value + t)[|f.value|..] == t;
    }
  }

  lemma ScansExponent(e: Option<Exponent>, t: string)
    requires if e.Some? then ExponentOk(e.value) && !StartsDigit(t) else !Starts(t, 'e') && !Starts(t, 'E')
    ensures ScanExponent(ExponentText(e) + t) == Parsed(e, t)
  {
    hide DigitsOf, SignOf, After;
    if e.None? {
      assert "" + t == t;
    } else {
      var x := e.value;
      var digits := x.digits + t;
      var signed := x.sign + digits;
      Assoc([x.letter], x.sign, x.digits, t);
      assert ([x.letter] + signed)[1..] == signed;
      assert IsDigit(digits[0]) by { assert x.digits[0] in x.digits; }
      ScansSign(x.sign, digits);
      AfterPrefix(x.sign, digits);
      TakesDigits(x.digits, t);
      AfterPrefix(x.digits, t);
    }
  }

  lemma Assoc(a: string, b: string, c: string, t: string)
    ensures (a + (b + c)) + t == a + (b + (c + t))
  {
  }

  lemma AfterPrefix(prefix: string, t: string)
    ensures prefix <= prefix + t && After(prefix + t, prefix) == t
  {
  }

  lemma ScansSign(sign: string, t: string)
    requires sign == "" || sign == "+" || sign == "-"
    requires t != "" && IsDigit(t[0])
    ensures SignOf(sign + t) == sign
  {
    assert sign == "" ==> sign + t == t;
  }

  /** If the token ends, each of its parts does. */
  lemma PartsEnd(n: NumberToken, t: string)
    requires NumberOk(n) && Ends(n, t)
    ensures var e := ExponentText(n.exponent) + t;
            var f := FractionText(n.fraction) + e;
            && (if n.exponent.Some? then !StartsDigit(t) else !Starts(t, 'e') && !Starts(t, 'E'))
            && (if n.fraction.Some? then !StartsDigit(e) else !Starts(e, '.'))
            && (n.whole != "0" ==> !StartsDigit(f))
  {
    var e := ExponentText(n.exponent) + t;
    assert n.exponent.None? ==> e == t;
    assert n.fraction.None? ==> FractionText(n.fraction) + e == e;
  }

  lemma Reassociate(a: string, b: string, c: string, d: string, t: string)
    ensures (a + (b + (c + d))) + t == a + (b + (c + (d + t)))
  {
  }

  lemma ScanParts(n: NumberToken, w: string, f: string, e: string, t: string)
    requires ScanWhole(w) == Parsed(n.whole, f) && w != "" && IsDigit(w[0])
    requires ScanFraction(f) == Parsed(n.fraction, e)
    requires ScanExponent(e) == Parsed(n.exponent, t)
    ensures ScanNumber(if n.minus then "-" + w else w) == Parsed(n, t)
  {
    hide ScanWhole, ScanFraction, ScanExponent;
    assert ("-" + w)[1..] == w;
  }

  /** A number token is found where it ends, part by part as it was written. */
  lemma ScansNumber(n: NumberToken, t: string)
    requires NumberOk(n) && Ends(n, t)
    ensures ScanNumber(NumberText(n) + t) == Parsed(n, t)
  {
    hide ScanWhole, ScanFraction, ScanExponent, ScanNumber, FractionText, ExponentText, Ends;
    var e := ExponentText(n.exponent) + t;
    var f := FractionText(n.fraction) + e;
    var w := n.whole + f;
    PartsEnd(n, t);
    ScansWhole(n.whole, f);
    ScansFraction(n.fraction, e);
    ScansExponent(n.exponent, t);
    assert w[0] == n.whole[0] && IsDigit(w[0]) by { assert n.whole[0] in n.whole; }
    ScanParts(n, w, f, e, t);
    hide NumberOk, Digits, StartsDigit, Starts, ExponentOk;
    Reassociate(if n.minus then "-" else "", n.whole, FractionText(n.fraction), ExponentText(n.exponent), t);
    assert "" + w == w;
  }

  // ---------- the reader on strings ----------

  lemma EscapeRead(p: Piece, t: string)
    requires p.Unicode? && PieceOk(p)
    ensures UnicodeEscape(SpellPiece(p) + t) == Unit(p)
    ensures (SpellPiece(p) + t)[6..] == t
  {
    var s := SpellPiece(p) + t;
    assert s[1..][0] == 'u' && s[2..][..4] == p.hex;
  }

  /** No other piece, nor the closing quote, looks like a \u escape. */
  lemma NoEscapeRead(ps: seq<Piece>, t: string)
    requires PiecesOk(ps) && (ps == [] || !ps[0].Unicode?)
    ensures UnicodeEscape(SpellPieces(ps) + "\"" + t) == None
  {
    if ps != [] {
      assert PieceOk(ps[0]);
      var s := SpellPieces(ps) + "\"" + t;
      assert s[0] == SpellPiece(ps[0])[0];
      assert ps[0].Short? ==> s[1..][0] == ps[0].c;
    }
  }

  /** What the reader does with one piece that is not a \u escape. */
  lemma ReadsSingle(p: Piece, t: string)
    requires PieceOk(p) && !p.Unicode?
    ensures ParseChars(SpellPiece(p) + t) ==
      if ParseChars(t).Parsed? then Parsed(Single(p) + ParseChars(t).value, ParseChars(t).rest) else Malformed
  {
    var s := SpellPiece(p) + t;
    assert s[|SpellPiece(p)|..] == t;
  }

  /** What the reader does with a \u escape. */
  lemma ReadsUnit(p: Piece, t: string)
    requires PieceOk(p) && p.Unicode?
    ensures var u := Unit(p).value;
            ParseChars(SpellPiece(p) + t) ==
              if UnicodeEscape(t).Some? && IsPair(u, UnicodeEscape(t).value) then
                Prepend(PairChar(u, UnicodeEscape(t).value), ParseChars(t[6..]))
              else Prepend(UnitChar(u), ParseChars(t))
  {
    var s := SpellPiece(p) + t;
    EscapeRead(p, t);
    assert |t| >= 6 ==> s[12..] == t[6..];
    assert s[0] == '\\' && s[1] == 'u';
    hide UnicodeEscape, PairChar, UnitChar, Hex4, SpellPiece;
  }

  lemma {:induction false} ReadsPieces(ps: seq<Piece>, t: string)
    requires PiecesOk(ps)
    ensures ParseChars(SpellPieces(ps) + "\"" + t) == Parsed(TextOf(ps), t)
    decreases |ps|
  {
    if ps == [] {
      assert SpellPieces(ps) + "\"" + t == "\"" + t;
    } else {
      var rest := SpellPieces(ps[1..]) + "\"" + t;
      assert PieceOk(ps[0]);
      assert SpellPieces(ps) + "\"" + t == SpellPiece(ps[0]) + rest;
      ReadsPieces(ps[1..], t);
      hide ParseChars, SpellPiece, PieceOk, ShortEscape, UnitChar, PairChar, UnicodeEscape, Hex4;
      if !ps[0].Unicode? {
        ReadsSingle(ps[0], rest);
      } else {
        ReadsUnit(ps[0], rest);
        UnitGiven(ps[0]);
        NextUnit(ps[1..], t);
        if |ps| > 1 && ps[1].Unicode? {
          assert ps[1..][1..] == ps[2..];
          ReadsPieces(ps[2..], t);
        }
      }
    }
  }

  /** A \u escape comes next exactly when the next piece is one. */
  lemma NextUnit(ps: seq<Piece>, t: string)
    requires PiecesOk(ps)
    ensures var s := SpellPieces(ps) + "\"" + t;
            && UnicodeEscape(s) == (if ps == [] then None else Unit(ps[0]))
            && (ps != [] && ps[0].Unicode? ==> Unit(ps[0]).Some? && s[6..] == SpellPieces(ps[1..]) + "\"" + t)
  {
    if ps != [] && ps[0].Unicode? {
      assert PieceOk(ps[0]);
      var rest := SpellPieces(ps[1..]) + "\"" + t;
      assert SpellPieces(ps) + "\"" + t == SpellPiece(ps[0]) + rest;
      EscapeRead(ps[0], rest);
      UnitGiven(ps[0]);
    } else {
      NoEscapeRead(ps, t);
    }
  }

  lemma UnitGiven(p: Piece)
    requires p.Unicode? && PieceOk(p)
    ensures Unit(p).Some?
  {
  }
}
