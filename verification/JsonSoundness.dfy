/** The reader accepts nothing but texts of the grammar: from what it read, a derivation tree can be built. */
module JsonSoundness {
  import opened JsonText
  import opened JsonGrammar
  import opened JsonReading

  lemma {:induction false} SkippedSpace(s: string) returns (pad: string)
    ensures AllSpace(pad) && s == pad + SkipSpace(s)
  {
    if s != "" && IsSpace(s[0]) {
      pad := SkippedSpace(s[1..]);
      pad := [s[0]] + pad;
    } else {
      pad := "";
    }
  }

  lemma ScannedNumber(s: string)
    requires ScanNumber(s).Parsed?
    ensures NumberOk(ScanNumber(s).value) && s == NumberText(ScanNumber(s).value) + ScanNumber(s).rest
    ensures Ends(ScanNumber(s).value, ScanNumber(s).rest)
  {
    hide ScanWhole, ScanFraction, ScanExponent, Digits, FractionText, ExponentText, ExponentOk, StartsDigit;
    var minus := Starts(s, '-');
    var s0 := if minus then s[1..] else s;
    var whole := ScanWhole(s0);
    var fraction := ScanFraction(whole.rest);
    var exponent := ScanExponent(fraction.rest);
    ScannedWhole(s0);
    ScannedFraction(whole.rest);
    ScannedExponent(fraction.rest);
    SpelledParts(s, ScanNumber(s).value, s0, whole.rest, fraction.rest, exponent.rest);
  }

  lemma SpelledParts(s: string, n: NumberToken, s0: string, s1: string, s2: string, s3: string)
    requires s == (if n.minus then "-" + s0 else s0) && s0 == n.whole + s1
    requires s1 == FractionText(n.fraction) + s2 && s2 == ExponentText(n.exponent) + s3
    ensures s == NumberText(n) + s3
  {
    hide FractionText, ExponentText;
    Reassociate(if n.minus then "-" else "", n.whole, FractionText(n.fraction), ExponentText(n.exponent), s3);
    assert "" + s0 == s0;
  }

  lemma ScannedWhole(s: string)
    requires ScanWhole(s).Parsed?
    ensures var w := ScanWhole(s);
            && s == w.value + w.rest && Digits(w.value) && (w.value[0] == '0' ==> |w.value| == 1)
            && (w.value != "0" ==> !StartsDigit(w.rest))
  {
    var d := DigitsOf(s);
    assert s == d + After(s, d);
    assert d[0] in d;
    AllDigitsTaken(s);
  }

  lemma ScannedFraction(s: string)
    requires ScanFraction(s).Parsed?
    ensures var f := ScanFraction(s);
            && s == FractionText(f.value) + f.rest
            && if f.value.Some? then Digits(f.value.value) && !StartsDigit(f.rest) else f.rest == s && !Starts(s, '.')
  {
    if Starts(s, '.') {
      AllDigitsTaken(s[1..]);
    }
  }

  lemma {:induction false} AllDigitsTaken(s: string)
    ensures !StartsDigit(After(s, DigitsOf(s)))
  {
    if StartsDigit(s) {
      AllDigitsTaken(s[1..]);
      assert After(s, DigitsOf(s)) == After(s[1..], DigitsOf(s[1..]));
    }
  }

  lemma ScannedExponent(s: string)
    requires ScanExponent(s).Parsed?
    ensures var e := ScanExponent(s);
            && s == ExponentText(e.value) + e.rest
            && if e.value.Some? then ExponentOk(e.value.value) && !StartsDigit(e.rest)
               else e.rest == s && !Starts(s, 'e') && !Starts(s, 'E')
  {
    hide DigitsOf, SignOf, After;
    if Starts(s, 'e') || Starts(s, 'E') {
      var sign := SignOf(s[1..]);
      var t := After(s[1..], sign);
      var d := DigitsOf(t);
      var rest := After(t, d);
      assert s == [s[0]] + s[1..];
      Assoc([s[0]], sign, d, rest);
      AllDigitsTaken(t);
    }
  }

  /** The piece at the head of a string token, and the text after it. */
  lemma FirstPiece(s: string) returns (p: Piece, t: string)
    requires ParseChars(s).Parsed? && s[0] != '"'
    ensures PieceOk(p) && s == SpellPiece(p) + t && |t| < |s|
    ensures !p.Unicode? ==> ParseChars(t).Parsed? && ParseChars(t).rest == ParseChars(s).rest
    ensures p.Unicode? ==>
      var u, next := Unit(p), UnicodeEscape(t);
      u.Some? && var t' := if next.Some? && IsPair(u.value, next.value) then t[6..] else t;
      ParseChars(t').Parsed? && ParseChars(t').rest == ParseChars(s).rest
  {
    if s[0] != '\\' {
      p, t := Plain(s[0]), s[1..];
    } else if |s| >= 2 && ShortEscape(s[1]).Some? {
      p, t := Short(s[1]), s[2..];
    } else {
      p, t := Unicode(s[2..6]), s[6..];
      SameHex(s[2..]);
      assert s == "\\u" + s[2..6] + t;
      assert |t| >= 6 ==> s[12..] == t[6..];
    }
  }

  lemma SameHex(s: string)
    requires |s| >= 4
    ensures Hex4(s[..4]) == Hex4(s)
  {
  }

  lemma EscapedPiece(s: string) returns (p: Piece)
    requires UnicodeEscape(s).Some?
    ensures PieceOk(p) && p.Unicode? && Unit(p) == UnicodeEscape(s) && s == SpellPiece(p) + s[6..]
  {
    SameHex(s[2..]);
    p := Unicode(s[2..6]);
    assert s == "\\u" + s[2..6] + s[6..];
  }

  /** A string token as read was spelled by some pieces, which mean what was read. */
  lemma {:induction false} ReadPieces(s: string) returns (ps: seq<Piece>)
    requires ParseChars(s).Parsed?
    ensures PiecesOk(ps) && s == SpellPieces(ps) + "\"" + ParseChars(s).rest && TextOf(ps) == ParseChars(s).value
    decreases |s|
  {
    hide ParseChars, SpellPiece, PieceOk, UnicodeEscape, TextOf, Unit;
    var rest := ParseChars(s).rest;
    NotEmpty(s);
    if s[0] == '"' {
      ps := [];
      assert "" + s == s;
    } else {
      var p, t := FirstPiece(s);
      var next := UnicodeEscape(t);
      if p.Unicode? && next.Some? && IsPair(Unit(p).value, next.value) {
        var q := EscapedPiece(t);
        var qs := ReadPieces(t[6..]);
        ps := [p, q] + qs;
        Cons(q, qs, rest);
        assert ps == [p] + ([q] + qs);
        Cons(p, [q] + qs, rest);
      } else {
        var qs := ReadPieces(t);
        ps := [p] + qs;
        Cons(p, qs, rest);
      }
    }
    ReadsPieces(ps, rest);
  }

  lemma NotEmpty(s: string)
    requires ParseChars(s).Parsed?
    ensures s != "" && (s[0] == '"' ==> s == "\"" + ParseChars(s).rest)
  {
  }

  lemma Cons(p: Piece, ps: seq<Piece>, rest: string)
    requires PieceOk(p) && PiecesOk(ps)
    ensures PiecesOk([p] + ps)
    ensures SpellPieces([p] + ps) + "\"" + rest == SpellPiece(p) + (SpellPieces(ps) + "\"" + rest)
  {
    hide PieceOk, SpellPiece;
  }

  // ---------- values ----------

  /** What was read is the meaning of a tree that spells it. */
  ghost predicate Derives(text: string, room: nat, pad: string, d: Doc) {
    && AllSpace(pad) && DocOk(d, room)
    && ParseValue(text, room).Parsed?
    && text == pad + (Spell(d) + ParseValue(text, room).rest)
    && ParseValue(text, room).value == Meaning(d)
    && (d.Number? ==> Ends(d.number, ParseValue(text, room).rest))
  }

  lemma {:induction false} ReadValue(text: string, room: nat) returns (pad: string, d: Doc)
    requires ParseValue(text, room).Parsed?
    ensures Derives(text, room, pad, d)
    decreases |text|, 2
  {
    hide ParseValue, SkipSpace, DocOk, Spell, Meaning, Ends;
    pad := SkippedSpace(text);
    var s := SkipSpace(text);
    NotBlank(text, room);
    if s[0] == '{' {
      d := ReadObject(text, room);
    } else if s[0] == '[' {
      d := ReadArray(text, room);
    } else if s[0] == '"' {
      d := ReadString(text, room);
    } else if s[0] == 't' || s[0] == 'f' || s[0] == 'n' {
      d := ReadWord(text, room);
    } else {
      d := ReadNumber(text, room);
    }
  }

  lemma NotBlank(text: string, room: nat)
    requires ParseValue(text, room).Parsed?
    ensures SkipSpace(text) != ""
  {
  }

  lemma ReadString(text: string, room: nat) returns (d: Doc)
    requires Starts(SkipSpace(text), '"') && ParseValue(text, room).Parsed?
    ensures DocOk(d, room) && SkipSpace(text) == Spell(d) + ParseValue(text, room).rest
    ensures ParseValue(text, room).value == Meaning(d) && !d.Number?
  {
    hide SkipSpace, ParseChars, PiecesOk, TextOf;
    var s := SkipSpace(text)[1..];
    assert SkipSpace(text) == "\"" + s;
    var ps := ReadPieces(s);
    d := Text(ps);
    SpelledText(d, ParseChars(s).rest);
  }

  lemma ReadWord(text: string, room: nat) returns (d: Doc)
    requires ParseValue(text, room).Parsed? && SkipSpace(text) != "" && SkipSpace(text)[0] in {'t', 'f', 'n'}
    ensures DocOk(d, room) && SkipSpace(text) == Spell(d) + ParseValue(text, room).rest
    ensures ParseValue(text, room).value == Meaning(d) && !d.Number?
  {
    hide SkipSpace;
    d := Word(ParseValue(text, room).value);
  }

  lemma ReadNumber(text: string, room: nat) returns (d: Doc)
    requires ParseValue(text, room).Parsed?
    requires SkipSpace(text) != "" && SkipSpace(text)[0] !in {'{', '[', '"', 't', 'f', 'n'}
    ensures DocOk(d, room) && SkipSpace(text) == Spell(d) + ParseValue(text, room).rest
    ensures ParseValue(text, room).value == Meaning(d)
    ensures d.Number? && Ends(d.number, ParseValue(text, room).rest)
  {
    hide SkipSpace, ScanNumber, NumberText, NumberOk, Ends;
    ScannedNumber(SkipSpace(text));
    d := Number(ScanNumber(SkipSpace(text)).value);
  }

  lemma OpenedArray(text: string, room: nat)
    requires Starts(SkipSpace(text), '[') && ParseValue(text, room).Parsed?
    ensures room > 0
    ensures var s, r := SkipSpace(text)[1..], ParseValue(text, room);
            if Starts(SkipSpace(s), ']') then r == Parsed(Arr([]), SkipSpace(s)[1..])
            else
              var items := ParseItems(s, room - 1);
              items.Parsed? && r == Parsed(Arr(items.value), items.rest)
  {
    hide SkipSpace, ParseItems;
  }

  lemma OpenedObject(text: string, room: nat)
    requires Starts(SkipSpace(text), '{') && ParseValue(text, room).Parsed?
    ensures room > 0
    ensures var s, r := SkipSpace(text)[1..], ParseValue(text, room);
            if Starts(SkipSpace(s), '}') then r == Parsed(Obj([]), SkipSpace(s)[1..])
            else
              var fields := ParseMembers(s, room - 1, []);
              fields.Parsed? && r == Parsed(Obj(fields.value), fields.rest)
  {
    hide SkipSpace, ParseMembers;
  }

  lemma FirstItem(s: string, room: nat)
    requires ParseItems(s, room).Parsed?
    ensures var v := ParseValue(s, room);
            && v.Parsed?
            && var t := SkipSpace(v.rest);
               if Starts(t, ']') then ParseItems(s, room) == Parsed([v.value], t[1..])
               else
                 Starts(t, ',') && ParseItems(t[1..], room).Parsed? && |t[1..]| < |s|
                 && ParseItems(s, room) == Parsed([v.value] + ParseItems(t[1..], room).value, ParseItems(t[1..], room).rest)
  {
    hide ParseValue, SkipSpace;
  }

  /** The key, the colon and the value at the head of a list of members. */
  lemma FirstMember(s: string, room: nat, fields: seq<Field>)
    requires ParseMembers(s, room, fields).Parsed?
    ensures Starts(SkipSpace(s), '"')
    ensures var key := ParseChars(SkipSpace(s)[1..]);
            && key.Parsed? && Starts(SkipSpace(key.rest), ':')
            && var value := ParseValue(SkipSpace(key.rest)[1..], room);
            && value.Parsed? && |value.rest| < |s|
            && var t := SkipSpace(value.rest);
               if Starts(t, '}') then ParseMembers(s, room, fields) == Parsed(Put(fields, key.value, value.value), t[1..])
               else
                 Starts(t, ',')
                 && ParseMembers(s, room, fields) == ParseMembers(t[1..], room, Put(fields, key.value, value.value))
  {
    hide ParseValue, SkipSpace, ParseChars, Put;
  }

  lemma {:induction false} ReadArray(text: string, room: nat) returns (d: Doc)
    requires Starts(SkipSpace(text), '[') && ParseValue(text, room).Parsed?
    ensures DocOk(d, room) && SkipSpace(text) == Spell(d) + ParseValue(text, room).rest
    ensures ParseValue(text, room).value == Meaning(d) && !d.Number?
    decreases |text|, 1
  {
    hide ParseValue, ParseItems, SpellElements, PaddedOk, SkipSpace;
    OpenedArray(text, room);
    var s := SkipSpace(text)[1..];
    assert SkipSpace(text) == "[" + s;
    if Starts(SkipSpace(s), ']') {
      var gap := SkippedSpace(s);
      d := Array([], gap);
      assert SkipSpace(s) == "]" + ParseValue(text, room).rest;
    } else {
      var es := ReadItems(s, room - 1);
      d := Array(es, "");
      assert Spell(d) == "[" + SpellElements(es) + "]";
    }
  }

  lemma {:induction false} ReadItems(s: string, room: nat) returns (es: seq<Padded>)
    requires ParseItems(s, room).Parsed?
    ensures es != [] && forall e <- es :: PaddedOk(e, room)
    ensures s == SpellElements(es) + "]" + ParseItems(s, room).rest
    ensures ParseItems(s, room).value == MeaningOfElements(es)
    decreases |s|, 3
  {
    hide ParseValue, ParseItems, DocOk, Spell, SkipSpace, Meaning, SpellElements;
    FirstItem(s, room);
    var pad, d := ReadValue(s, room);
    var after := SkippedSpace(ParseValue(s, room).rest);
    var e := Padded(pad, d, after);
    var t := SkipSpace(ParseValue(s, room).rest);
    assert PaddedOk(e, room);
    if Starts(t, ']') {
      es := [e];
      assert t == "]" + t[1..];
    } else {
      var more := ReadItems(t[1..], room);
      es := [e] + more;
      assert t == "," + (SpellElements(more) + ("]" + ParseItems(s, room).rest));
    }
    hide PaddedOk;
    SpelledElements(es, "]" + ParseItems(s, room).rest);
    MeaningUnfolds(es);
  }

  lemma {:induction false} ReadObject(text: string, room: nat) returns (d: Doc)
    requires Starts(SkipSpace(text), '{') && ParseValue(text, room).Parsed?
    ensures DocOk(d, room) && SkipSpace(text) == Spell(d) + ParseValue(text, room).rest
    ensures ParseValue(text, room).value == Meaning(d) && !d.Number?
    decreases |text|, 1
  {
    hide ParseValue, ParseMembers, SpellMembers, MemberOk, SkipSpace;
    OpenedObject(text, room);
    var s := SkipSpace(text)[1..];
    assert SkipSpace(text) == "{" + s;
    if Starts(SkipSpace(s), '}') {
      var gap := SkippedSpace(s);
      d := Object([], gap);
      assert SkipSpace(s) == "}" + ParseValue(text, room).rest;
    } else {
      var ms := ReadMembers(s, room - 1, []);
      d := Object(ms, "");
      assert Spell(d) == "{" + SpellMembers(ms) + "}";
    }
  }

  /** What the reader found at the head of a list of members. */
  lemma {:induction false} ReadMember(s: string, room: nat, fields: seq<Field>) returns (m: Member, t: string)
    requires ParseMembers(s, room, fields).Parsed?
    ensures MemberOk(m, room) && |t| < |s|
    ensures s == SpellMember(m) + t
    ensures var added := Put(fields, TextOf(m.key), Meaning(m.value.doc));
            || (Starts(t, '}') && ParseMembers(s, room, fields) == Parsed(added, t[1..]))
            || (Starts(t, ',') && ParseMembers(s, room, fields) == ParseMembers(t[1..], room, added))
    decreases |s|, 2
  {
    hide ParseChars, ParseValue, ParseMembers, PiecesOk, DocOk, TextOf, SpellPieces, Spell, SkipSpace, Meaning, Put;
    FirstMember(s, room, fields);
    var before := SkippedSpace(s);
    var k := SkipSpace(s)[1..];
    var key := ReadPieces(k);
    var colon := ParseChars(k).rest;
    var after := SkippedSpace(colon);
    var c := SkipSpace(colon)[1..];
    var pad, d := ReadValue(c, room);
    var last := SkippedSpace(ParseValue(c, room).rest);
    t := SkipSpace(ParseValue(c, room).rest);
    m := Member(before, key, after, Padded(pad, d, last));
    MemberSpelled(m, s, colon, k, c, ParseValue(c, room).rest, t);
  }

  lemma MemberSpelled(m: Member, s: string, colon: string, k: string, c: string, rest: string, t: string)
    requires s == m.before + ("\"" + k) && k == SpellPieces(m.key) + "\"" + colon
    requires colon == m.after + (":" + c) && c == m.value.before + (Spell(m.value.doc) + rest)
    requires rest == m.value.after + t
    ensures s == SpellMember(m) + t
  {
    hide Spell, SpellPieces;
  }

  lemma {:induction false} ReadMembers(s: string, room: nat, fields: seq<Field>) returns (ms: seq<Member>)
    requires ParseMembers(s, room, fields).Parsed?
    ensures ms != [] && forall m <- ms :: MemberOk(m, room)
    ensures s == SpellMembers(ms) + "}" + ParseMembers(s, room, fields).rest
    ensures ParseMembers(s, room, fields).value == MeaningOfMembers(ms, fields)
    decreases |s|, 3
  {
    hide ParseMembers, MemberOk, SpellMember, Put, TextOf, Meaning;
    var m, t := ReadMember(s, room, fields);
    var added := Put(fields, TextOf(m.key), Meaning(m.value.doc));
    if Starts(t, '}') && ParseMembers(s, room, fields) == Parsed(added, t[1..]) {
      ms := [m];
      assert t == "}" + t[1..];
    } else {
      var more := ReadMembers(t[1..], room, added);
      ms := [m] + more;
      assert t == "," + t[1..];
      assert ms[1..] == more;
      assert MeaningOfMembers(ms, fields) == MeaningOfMembers(more, added);
    }
  }
}
