/** The writer's text of a value is a text of the grammar that means this value, and has no control characters. */
module JsonWriting {
  import opened Wrappers
  import opened JsonText
  import opened JsonGrammar
  import opened JsonObjects

  ghost predicate IsNumberText(s: string) {
    exists n :: NumberOk(n) && NumberText(n) == s
  }

  /** A value the reader can produce: at most `room` levels, each object's keys in order. */
  ghost predicate Good(v: Json, room: nat)
    decreases v
  {
    match v
    case Num(literal) => IsNumberText(literal)
    case Arr(items) => room > 0 && forall i <- items :: Good(i, room - 1)
    case Obj(fields) => room > 0 && Sorted(fields) && forall f <- fields :: GoodField(f, room - 1)
    case _ => true
  }

  ghost predicate GoodField(f: Field, room: nat)
    decreases f
  {
    Good(f.value, room)
  }

  // ---------- every meaning is good ----------

  lemma {:induction false} MeaningGood(d: Doc, room: nat)
    requires DocOk(d, room)
    ensures Good(Meaning(d), room)
    decreases d
  {
    match d
    case Array(es, _) => ElementsGood(es, room - 1);
    case Object(ms, _) => MembersGood(ms, [], room - 1);
    case _ =>
  }

  lemma {:induction false} ElementsGood(es: seq<Padded>, room: nat)
    requires forall e <- es :: PaddedOk(e, room)
    ensures forall i <- MeaningOfElements(es) :: Good(i, room)
    decreases es
  {
    if es != [] {
      assert es[0] in es && PaddedOk(es[0], room);
      MeaningGood(es[0].doc, room);
      ElementsGood(es[1..], room);
      hide Good, PaddedOk, Meaning;
    }
  }

  lemma {:induction false} MembersGood(ms: seq<Member>, fields: seq<Field>, room: nat)
    requires forall m <- ms :: MemberOk(m, room)
    requires Sorted(fields) && forall f <- fields :: GoodField(f, room)
    ensures Sorted(MeaningOfMembers(ms, fields)) && forall f <- MeaningOfMembers(ms, fields) :: GoodField(f, room)
    decreases ms
  {
    if ms != [] {
      var m := ms[0];
      var key, value := TextOf(m.key), Meaning(m.value.doc);
      assert m in ms && MemberOk(m, room) && PaddedOk(m.value, room);
      MeaningGood(m.value.doc, room);
      assert GoodField(Field(key, value), room);
      hide Good, GoodField, MemberOk, Meaning, TextOf, Put, Sorted;
      PutSorted(fields, key, value);
      PutMembers(fields, key, value);
      MembersGood(ms[1..], Put(fields, key, value), room);
    }
  }

  // ---------- the tree the writer spells ----------

  function PieceFor(c: char): Piece {
    if c == '"' || c == '\\' then Short(c)
    else if c == '\U{8}' then Short('b')
    else if c == '\U{c}' then Short('f')
    else if c == '\n' then Short('n')
    else if c == '\r' then Short('r')
    else if c == '\t' then Short('t')
    else if c < ' ' || c == '<' || c == '>' || c == '&' then
      Unicode("00" + [HexDigit(c as nat / 16), HexDigit(c as nat % 16)])
    else if c == '\U{2028}' || c == '\U{2029}' then Unicode("202" + [HexDigit(c as nat % 16)])
    else Plain(c)
  }

  function PiecesFor(s: string): seq<Piece> {
    if s == "" then [] else [PieceFor(s[0])] + PiecesFor(s[1..])
  }

  lemma HexDigitValue(n: nat)
    requires n < 16
    ensures HexValue(HexDigit(n)) == Some(n)
  {
  }

  /** One escaped character is one well-formed piece, never a surrogate, that means this character. */
  lemma PieceForMeans(c: char)
    ensures PieceOk(PieceFor(c)) && SpellPiece(PieceFor(c)) == EscapeChar(c)
    ensures match Unit(PieceFor(c))
            case None => Single(PieceFor(c)) == [c]
            case Some(u) => !IsSurrogate(u) && UnitChar(u) == c
  {
    if PieceFor(c).Unicode? {
      EscapeMeans(c);
      hide Hex4;
    }
  }

  /** The hex digits of an escape are those of its character. */
  lemma EscapeMeans(c: char)
    requires PieceFor(c).Unicode?
    ensures Hex4(PieceFor(c).hex) == Some(c as nat) && !IsSurrogate(c as nat)
  {
    var n := c as nat;
    HexDigitValue(n % 16);
    assert HexValue('0') == Some(0) && HexValue('2') == Some(2);
    if c == '\U{2028}' || c == '\U{2029}' {
      assert n % 16 == n - 0x2020;
      hide HexDigit, HexValue;
    } else {
      assert n < 64;
      HexDigitValue(n / 16);
      hide HexDigit, HexValue;
    }
  }

  lemma TextOfCons(p: Piece, ps: seq<Piece>)
    requires Unit(p).Some? ==> !IsSurrogate(Unit(p).value)
    ensures TextOf([p] + ps) == (if Unit(p).Some? then [UnitChar(Unit(p).value)] else Single(p)) + TextOf(ps)
  {
    assert ([p] + ps)[1..] == ps;
    hide Unit, Single;
  }

  lemma {:induction false} PiecesForMean(s: string)
    ensures PiecesOk(PiecesFor(s)) && SpellPieces(PiecesFor(s)) == EscapeAll(s) && TextOf(PiecesFor(s)) == s
  {
    hide PieceFor, PieceOk, SpellPiece, EscapeChar, UnitChar, Single, Unit, IsSurrogate;
    if s != "" {
      PieceForMeans(s[0]);
      PiecesForMean(s[1..]);
      TextOfCons(PieceFor(s[0]), PiecesFor(s[1..]));
      assert s == [s[0]] + s[1..];
      hide TextOf;
    }
  }

  ghost function NumberFor(literal: string): NumberToken
    requires IsNumberText(literal)
  {
    var n :| NumberOk(n) && NumberText(n) == literal;
    n
  }

  ghost function DocFor(v: Json, room: nat): Doc
    requires Good(v, room)
    decreases v
  {
    match v
    case Num(literal) => Number(NumberFor(literal))
    case Str(s) => Text(PiecesFor(s))
    case Arr(items) => Array(ElementsFor(items, room - 1), "")
    case Obj(fields) => Object(MembersFor(fields, room - 1), "")
    case _ => Word(v)
  }

  ghost function ElementsFor(items: seq<Json>, room: nat): seq<Padded>
    requires forall i <- items :: Good(i, room)
    decreases items
  {
    if items == [] then []
    else
      assert items[0] in items;
      [Padded("", DocFor(items[0], room), "")] + ElementsFor(items[1..], room)
  }

  ghost function MemberFor(f: Field, room: nat): Member
    requires GoodField(f, room)
    decreases f
  {
    Member("", PiecesFor(f.key), "", Padded("", DocFor(f.value, room), ""))
  }

  ghost function MembersFor(fields: seq<Field>, room: nat): seq<Member>
    requires forall f <- fields :: GoodField(f, room)
    decreases fields
  {
    if fields == [] then []
    else
      assert fields[0] in fields;
      [MemberFor(fields[0], room)] + MembersFor(fields[1..], room)
  }

  /** The writer spells the tree of its value, which is well formed and means the value. */
  lemma {:induction false} PrintSpells(v: Json, room: nat)
    requires Good(v, room)
    ensures DocOk(DocFor(v, room), room)
    ensures Spell(DocFor(v, room)) == Print(v)
    ensures Meaning(DocFor(v, room)) == v
    decreases v
  {
    match v
    case Str(s) => PiecesForMean(s);
    case Arr(items) => ItemsSpell(items, room - 1);
    case Obj(fields) => FieldsSpell(fields, [], room - 1);
    case _ =>
  }

  lemma {:induction false} ItemsSpell(items: seq<Json>, room: nat)
    requires forall i <- items :: Good(i, room)
    ensures var es := ElementsFor(items, room);
            && |es| == |items| && (forall e <- es :: PaddedOk(e, room))
            && (items != [] ==> SpellElements(es) == PrintItems(items))
            && MeaningOfElements(es) == items
    decreases items
  {
    hide DocFor, Good, PaddedOk, DocOk, Meaning, Spell, SpellPadded, Print;
    if items != [] {
      assert items[0] in items;
      PrintSpells(items[0], room);
      ItemsSpell(items[1..], room);
      BareSpells(DocFor(items[0], room), room);
      var es := ElementsFor(items, room);
      assert es[1..] == ElementsFor(items[1..], room);
      assert items == [items[0]] + items[1..];
      hide ElementsFor;
    }
  }

  lemma BareSpells(d: Doc, room: nat)
    requires DocOk(d, room)
    ensures PaddedOk(Padded("", d, ""), room) && SpellPadded(Padded("", d, "")) == Spell(d)
  {
    hide Spell, DocOk;
  }

  lemma FieldSpells(f: Field, room: nat)
    requires GoodField(f, room) && DocOk(DocFor(f.value, room), room) && Spell(DocFor(f.value, room)) == Print(f.value)
    ensures MemberOk(MemberFor(f, room), room)
    ensures SpellMember(MemberFor(f, room)) == PrintString(f.key) + ":" + Print(f.value)
    ensures TextOf(MemberFor(f, room).key) == f.key
  {
    hide DocFor, DocOk, Spell, Print, EscapeAll, PaddedOk, SpellPadded, TextOf, SpellPieces, PiecesOk, PiecesFor;
    PiecesForMean(f.key);
    BareSpells(DocFor(f.value, room), room);
    var m := MemberFor(f, room);
    assert m == Member("", PiecesFor(f.key), "", Padded("", DocFor(f.value, room), ""));
  }

  lemma {:induction false} FieldsSpell(fields: seq<Field>, before: seq<Field>, room: nat)
    requires Sorted(before + fields) && forall f <- fields :: GoodField(f, room)
    ensures var ms := MembersFor(fields, room);
            && |ms| == |fields| && (forall m <- ms :: MemberOk(m, room))
            && (fields != [] ==> SpellMembers(ms) == PrintFields(fields))
            && MeaningOfMembers(ms, before) == before + fields
    decreases fields
  {
    if fields == [] {
      assert before + fields == before;
    } else {
      var f, rest := fields[0], fields[1..];
      assert f in fields;
      PrintSpells(f.value, room);
      FieldSpells(f, room);
      var ms := MembersFor(fields, room);
      assert ms[0] == MemberFor(f, room) && ms[1..] == MembersFor(rest, room);
      assert f == Field(f.key, f.value);
      PutNext(before, fields);
      assert before + fields == (before + [f]) + rest;
      FieldsSpell(rest, before + [f], room);
      hide DocFor, MembersFor, Good, GoodField, MemberOk, Print, SpellMember, PrintString, TextOf, Sorted, Put;
    }
  }

  lemma PutNext(before: seq<Field>, fields: seq<Field>)
    requires Sorted(before + fields) && fields != []
    ensures Put(before, fields[0].key, fields[0].value) == before + [fields[0]]
  {
    forall f | f in before ensures Less(f.key, fields[0].key) {
      var i :| 0 <= i < |before| && before[i] == f;
      assert (before + fields)[i] == f && (before + fields)[|before|] == fields[0];
    }
    PutLast(before, fields[0].key, fields[0].value);
  }
}
