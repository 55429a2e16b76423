/** The reader reads every text of the grammar as its meaning, whatever its layout. */
module JsonReading {
  import opened JsonText
  import opened JsonGrammar

  predicate Delimits(t: string) {
    t != "" && (t[0] == ',' || t[0] == ']' || t[0] == '}')
  }

  lemma DelimiterStops(after: string, t: string)
    requires AllSpace(after) && Delimits(t)
    ensures Stops(after + t) && SkipSpace(after + t) == t
  {
    SkipsSpace(after, t);
    if after != "" {
      assert after[0] in after;
    } else {
      assert after + t == t;
    }
  }

  /** How a value begins. */
  lemma FirstChar(d: Doc, room: nat)
    requires DocOk(d, room)
    ensures Spell(d) != ""
    ensures var c := Spell(d)[0];
            match d
            case Word(v) => c == 'n' || c == 't' || c == 'f'
            case Number(_) => c == '-' || IsDigit(c)
            case Text(_) => c == '"'
            case Array(_, _) => c == '['
            case Object(_, _) => c == '{'
  {
    if d.Number? {
      var n := d.number;
      assert n.whole[0] in n.whole;
      hide FractionText, ExponentText;
    }
  }

  lemma NotClosing(d: Doc, room: nat, t: string)
    requires DocOk(d, room)
    ensures var s := Spell(d) + t;
            s != "" && !IsSpace(s[0]) && s[0] != ']' && s[0] != '}' && SkipSpace(s) == s
  {
    FirstChar(d, room);
  }

  lemma PadValue(pad: string, s: string, room: nat)
    requires AllSpace(pad)
    ensures ParseValue(pad + s, room) == ParseValue(s, room)
  {
    SkipsPad(pad, s);
  }

  lemma ReadsWord(d: Doc, t: string, room: nat)
    requires DocOk(d, room) && d.Word?
    ensures ParseValue(Spell(d) + t, room) == Parsed(Meaning(d), t)
  {
    NotClosing(d, room, t);
    var s := Spell(d) + t;
    assert s[|Spell(d)|..] == t;
  }

  lemma ReadsNumber(d: Doc, t: string, room: nat)
    requires DocOk(d, room) && d.Number? && Ends(d.number, t)
    ensures ParseValue(Spell(d) + t, room) == Parsed(Meaning(d), t)
  {
    hide ScanNumber, NumberText, ParseValue, NumberOk, Ends, SkipSpace;
    NotClosing(d, room, t);
    FirstChar(d, room);
    ScansNumber(d.number, t);
    OnNumber(Spell(d) + t, room);
  }

  lemma OnNumber(s: string, room: nat)
    requires s != "" && (s[0] == '-' || IsDigit(s[0]))
    ensures ParseValue(s, room) == ParseNumber(s)
  {
    hide ParseNumber;
  }

  // ---------- the reader, one token at a time ----------

  lemma OnText(rest: string, chars: string, t: string, room: nat)
    requires ParseChars(rest) == Parsed(chars, t)
    ensures ParseValue("\"" + rest, room) == Parsed(Str(chars), t)
  {
    assert ("\"" + rest)[1..] == rest;
    hide ParseChars;
  }

  lemma OnArray(rest: string, items: seq<Json>, t: string, room: nat)
    requires room > 0 && !Starts(SkipSpace(rest), ']') && ParseItems(rest, room - 1) == Parsed(items, t)
    ensures ParseValue("[" + rest, room) == Parsed(Arr(items), t)
  {
    assert ("[" + rest)[1..] == rest;
    assert SkipSpace("[" + rest) == "[" + rest;
    hide ParseItems, SkipSpace;
  }

  lemma OnObject(rest: string, fields: seq<Field>, t: string, room: nat)
    requires room > 0 && !Starts(SkipSpace(rest), '}') && ParseMembers(rest, room - 1, []) == Parsed(fields, t)
    ensures ParseValue("{" + rest, room) == Parsed(Obj(fields), t)
  {
    assert ("{" + rest)[1..] == rest;
    assert SkipSpace("{" + rest) == "{" + rest;
    hide ParseMembers, SkipSpace;
  }

  /** The last element, or one with more to come. */
  lemma OnItems(s: string, room: nat, v: Json, rest: string, t: string)
    requires ParseValue(s, room) == Parsed(v, rest)
    ensures SkipSpace(rest) == "]" + t ==> ParseItems(s, room) == Parsed([v], t)
    ensures SkipSpace(rest) == "," + t && ParseItems(t, room).Parsed? ==>
      ParseItems(s, room) == Parsed([v] + ParseItems(t, room).value, ParseItems(t, room).rest)
  {
    assert ("]" + t)[1..] == t && ("," + t)[1..] == t;
    hide ParseValue, SkipSpace;
  }

  /** What a member leaves: the reader's state after its value. */
  lemma OnMembers(
      s: string, room: nat, fields: seq<Field>, keyText: string, key: string, colon: string, value: string,
      v: Json, rest: string)
    requires SkipSpace(s) == "\"" + keyText && ParseChars(keyText) == Parsed(key, colon)
    requires SkipSpace(colon) == ":" + value && ParseValue(value, room) == Parsed(v, rest)
    ensures var t := SkipSpace(rest);
            ParseMembers(s, room, fields) ==
              if Starts(t, '}') then Parsed(Put(fields, key, v), t[1..])
              else if Starts(t, ',') then ParseMembers(t[1..], room, Put(fields, key, v))
              else Malformed
  {
    hide ParseValue, SkipSpace, ParseChars, Put;
    assert ("\"" + keyText)[1..] == keyText && (":" + value)[1..] == value;
  }

  lemma SpelledText(d: Doc, t: string)
    requires d.Text?
    ensures Spell(d) + t == "\"" + (SpellPieces(d.pieces) + "\"" + t)
  {
    hide SpellPieces;
  }

  lemma ReadsText(d: Doc, t: string, room: nat)
    requires DocOk(d, room) && d.Text?
    ensures ParseValue(Spell(d) + t, room) == Parsed(Meaning(d), t)
  {
    hide ParseChars, SpellPieces, ParseValue, Spell, TextOf;
    SpelledText(d, t);
    ReadsPieces(d.pieces, t);
    OnText(SpellPieces(d.pieces) + "\"" + t, TextOf(d.pieces), t, room);
  }

  lemma {:induction false} ReadsDoc(d: Doc, t: string, room: nat)
    requires DocOk(d, room) && (d.Number? ==> Ends(d.number, t))
    ensures ParseValue(Spell(d) + t, room) == Parsed(Meaning(d), t)
    decreases d
  {
    match d
    case Word(_) => ReadsWord(d, t, room);
    case Number(_) => ReadsNumber(d, t, room);
    case Text(_) => ReadsText(d, t, room);
    case Array(es, gap) =>
      if es == [] {
        ReadsEmpty(d, t, room);
      } else {
        ReadsElements(es, t, room - 1);
        OpensArray(d, t, room);
      }
    case Object(ms, gap) =>
      if ms == [] {
        ReadsEmpty(d, t, room);
      } else {
        ReadsMembers(ms, [], t, room - 1);
        OpensObject(d, t, room);
      }
  }

  lemma ReadsEmpty(d: Doc, t: string, room: nat)
    requires DocOk(d, room) && ((d.Array? && d.elements == []) || (d.Object? && d.members == []))
    ensures ParseValue(Spell(d) + t, room) == Parsed(Meaning(d), t)
  {
    NotClosing(d, room, t);
    var s := Spell(d) + t;
    var close := if d.Array? then "]" else "}";
    assert s[1..] == d.gap + (close + t);
    SkipsSpace(d.gap, close + t);
    assert (close + t)[1..] == t;
  }

  lemma OpensArray(d: Doc, t: string, room: nat)
    requires DocOk(d, room) && d.Array? && d.elements != []
    requires ParseItems(SpellElements(d.elements) + "]" + t, room - 1) == Parsed(MeaningOfElements(d.elements), t)
    ensures ParseValue(Spell(d) + t, room) == Parsed(Meaning(d), t)
  {
    hide SpellElements, MeaningOfElements, ElementsTail, ParseItems, ParseValue, SkipSpace;
    var rest, e := SpellElements(d.elements) + "]" + t, d.elements[0];
    var tail := e.after + ElementsTail(d.elements, "]" + t);
    assert e in d.elements && PaddedOk(e, room - 1);
    assert Spell(d) + t == "[" + rest;
    hide Spell;
    assert rest == SpellElements(d.elements) + ("]" + t);
    SpelledElements(d.elements, "]" + t);
    SkipsPad(e.before, Spell(e.doc) + tail);
    NotClosing(e.doc, room - 1, tail);
    OnArray(rest, MeaningOfElements(d.elements), t, room);
  }

  lemma OpensObject(d: Doc, t: string, room: nat)
    requires DocOk(d, room) && d.Object? && d.members != []
    requires ParseMembers(SpellMembers(d.members) + "}" + t, room - 1, []) == Parsed(MeaningOfMembers(d.members, []), t)
    ensures ParseValue(Spell(d) + t, room) == Parsed(Meaning(d), t)
  {
    hide SpellMembers, MeaningOfMembers, AfterKey, ParseMembers, ParseValue, SkipSpace;
    var rest, m := SpellMembers(d.members) + "}" + t, d.members[0];
    assert m in d.members && MemberOk(m, room - 1);
    assert Spell(d) + t == "{" + rest;
    hide Spell, PaddedOk, MemberOk;
    assert rest == SpellMembers(d.members) + ("}" + t);
    SpelledMembers(d.members, "}" + t);
    SkipsSpace(m.before, "\"" + (SpellPieces(m.key) + "\"" + AfterKey(d.members, "}" + t)));
    OnObject(rest, MeaningOfMembers(d.members, []), t, room);
  }

  // ---------- lists, one step at a time ----------

  /** The text after the first element, when `t` follows the last one. */
  function ElementsTail(es: seq<Padded>, t: string): string
    requires es != []
  {
    if |es| == 1 then t else "," + (SpellElements(es[1..]) + t)
  }

  lemma SpelledElements(es: seq<Padded>, t: string)
    requires es != []
    ensures SpellElements(es) + t == es[0].before + (Spell(es[0].doc) + (es[0].after + ElementsTail(es, t)))
  {
    hide Spell;
  }

  function MembersTail(ms: seq<Member>, t: string): string
    requires ms != []
  {
    if |ms| == 1 then t else "," + (SpellMembers(ms[1..]) + t)
  }

  /** The text after the first key. */
  function AfterKey(ms: seq<Member>, t: string): string
    requires ms != []
  {
    var m := ms[0];
    m.after + (":" + (m.value.before + (Spell(m.value.doc) + (m.value.after + MembersTail(ms, t)))))
  }

  lemma SpelledMembers(ms: seq<Member>, t: string)
    requires ms != []
    ensures SpellMembers(ms) + t == ms[0].before + ("\"" + (SpellPieces(ms[0].key) + "\"" + AfterKey(ms, t)))
  {
    hide Spell, SpellPieces, SpellMembers, MembersTail;
    SpelledTail(ms, t);
    var m, p, tail := ms[0], ms[0].value, MembersTail(ms, t);
    var value := p.before + (Spell(p.doc) + (p.after + tail));
    assert SpellPadded(p) + tail == value;
    hide SpellPadded;
    assert SpellMember(m) + tail == m.before + ("\"" + (SpellPieces(m.key) + "\"" + (m.after + (":" + value))));
  }

  lemma SpelledTail(ms: seq<Member>, t: string)
    requires ms != []
    ensures SpellMembers(ms) + t == SpellMember(ms[0]) + MembersTail(ms, t)
  {
    hide SpellMember;
  }

  /** A value with white space around it, up to a delimiter. */
  lemma {:induction false} ReadsPadded(p: Padded, t: string, room: nat)
    requires PaddedOk(p, room) && Delimits(t)
    ensures ParseValue(p.before + (Spell(p.doc) + (p.after + t)), room) == Parsed(Meaning(p.doc), p.after + t)
    ensures SkipSpace(p.after + t) == t
    decreases p
  {
    DelimiterStops(p.after, t);
    ReadsDoc(p.doc, p.after + t, room);
    PadValue(p.before, Spell(p.doc) + (p.after + t), room);
  }

  lemma {:induction false} ReadsElements(es: seq<Padded>, t: string, room: nat)
    requires es != [] && forall e <- es :: PaddedOk(e, room)
    ensures ParseItems(SpellElements(es) + "]" + t, room) == Parsed(MeaningOfElements(es), t)
    decreases es
  {
    hide ParseValue, ParseItems, Spell, PaddedOk, SkipSpace, Meaning, MeaningOfElements, SpellElements, ElementsTail;
    var s := SpellElements(es) + "]" + t;
    var e, tail := es[0], ElementsTail(es, "]" + t);
    var next := if |es| > 1 then SpellElements(es[1..]) + "]" + t else t;
    if |es| > 1 {
      ReadsElements(es[1..], t, room);
    }
    TailOfElements(es, t);
    MeaningUnfolds(es);
    assert s == SpellElements(es) + ("]" + t);
    SpelledElements(es, "]" + t);
    ReadsPadded(e, tail, room);
    OnItems(s, room, Meaning(e.doc), e.after + tail, next);
  }

  lemma TailOfElements(es: seq<Padded>, t: string)
    requires es != []
    ensures ElementsTail(es, "]" + t) == if |es| > 1 then "," + (SpellElements(es[1..]) + "]" + t) else "]" + t
    ensures Delimits(ElementsTail(es, "]" + t))
  {
    hide SpellElements;
  }

  lemma MeaningUnfolds(es: seq<Padded>)
    requires es != []
    ensures |es| > 1 ==> MeaningOfElements(es) == [Meaning(es[0].doc)] + MeaningOfElements(es[1..])
    ensures |es| == 1 ==> MeaningOfElements(es) == [Meaning(es[0].doc)]
  {
    hide Meaning;
  }

  lemma TailOfMembers(ms: seq<Member>, t: string)
    requires ms != []
    ensures MembersTail(ms, "}" + t) == if |ms| > 1 then "," + (SpellMembers(ms[1..]) + "}" + t) else "}" + t
    ensures Delimits(MembersTail(ms, "}" + t))
  {
    hide Spell, SpellMembers, Meaning;
  }

  lemma {:induction false} ReadsMembers(ms: seq<Member>, fields: seq<Field>, t: string, room: nat)
    requires ms != [] && forall m <- ms :: MemberOk(m, room)
    ensures ParseMembers(SpellMembers(ms) + "}" + t, room, fields) == Parsed(MeaningOfMembers(ms, fields), t)
    decreases ms
  {
    hide ParseValue, ParseMembers, Spell, SpellMembers, SkipSpace, Meaning, Put, TextOf, MembersTail;
    var s := SpellMembers(ms) + "}" + t;
    var m, tail := ms[0], MembersTail(ms, "}" + t);
    assert m in ms && MemberOk(m, room);
    if |ms| > 1 {
      ReadsMembers(ms[1..], Put(fields, TextOf(m.key), Meaning(m.value.doc)), t, room);
    }
    TailOfMembers(ms, t);
    assert s == SpellMembers(ms) + ("}" + t);
    ReadsPadded(m.value, tail, room);
    hide PaddedOk, MemberOk;
    ReadsFirstMember(ms, fields, s, "}" + t, room);
    assert |ms| > 1 ==> tail[1..] == SpellMembers(ms[1..]) + "}" + t;
    assert |ms| == 1 ==> tail[1..] == t;
  }

  lemma ReadsFirstMember(ms: seq<Member>, fields: seq<Field>, s: string, t: string, room: nat)
    requires ms != [] && MemberOk(ms[0], room) && s == SpellMembers(ms) + t
    requires var p, tail := ms[0].value, MembersTail(ms, t);
             && ParseValue(p.before + (Spell(p.doc) + (p.after + tail)), room) == Parsed(Meaning(p.doc), p.after + tail)
             && SkipSpace(p.after + tail) == tail
    ensures var added := Put(fields, TextOf(ms[0].key), Meaning(ms[0].value.doc));
            var tail := MembersTail(ms, t);
            ParseMembers(s, room, fields) ==
              if Starts(tail, '}') then Parsed(added, tail[1..])
              else if Starts(tail, ',') then ParseMembers(tail[1..], room, added)
              else Malformed
  {
    hide ParseValue, ParseMembers, ParseChars, Spell, SpellMembers, MembersTail, AfterKey, SkipSpace, Meaning, Put, TextOf;
    var m, tail := ms[0], MembersTail(ms, t);
    var value := m.value.before + (Spell(m.value.doc) + (m.value.after + tail));
    var key := SpellPieces(m.key) + "\"" + AfterKey(ms, t);
    SpelledMembers(ms, t);
    SkipsSpace(m.before, "\"" + key);
    ReadsPieces(m.key, AfterKey(ms, t));
    SkipsSpace(m.after, ":" + value);
    hide MemberOk, SpellPieces;
    KeyFollowed(ms, t);
    OnMembers(s, room, fields, key, TextOf(m.key), AfterKey(ms, t), value, Meaning(m.value.doc), m.value.after + tail);
  }

  lemma KeyFollowed(ms: seq<Member>, t: string)
    requires ms != []
    ensures var p := ms[0].value;
            AfterKey(ms, t) == ms[0].after + (":" + (p.before + (Spell(p.doc) + (p.after + MembersTail(ms, t)))))
  {
  }
}
