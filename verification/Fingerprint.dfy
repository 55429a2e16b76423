/** The request fingerprint: the canonical form of a JSON body, and the framing of what is hashed. */
module Fingerprint {
  import opened Wrappers
  import opened JsonText
  import opened JsonGrammar
  import opened JsonReading
  import opened JsonSoundness
  import opened JsonObjects
  import opened JsonWriting

  datatype Error = MalformedBody | KeyRequired | KeyInvalid

  /** Decoder.Decode: one value; whatever follows it is not looked at. */
  function Decode(body: string): Result<Json, Error> {
    match ParseValue(body, MAX_DEPTH)
    case Parsed(v, _) => Ok(v)
    case Malformed => Err(MalformedBody)
  }

  /** canonicalJSON. */
  function Canonical(body: string): Result<string, Error> {
    if body == "" then Ok("")
    else
      match Decode(body)
      case Ok(v) => Ok(Print(v))
      case Err(e) => Err(e)
  }

  /** What a request body says: nothing, or a value. */
  datatype Content = Nothing | Value(json: Json)

  function ContentOf(body: string): Result<Content, Error> {
    if body == "" then Ok(Nothing)
    else
      match Decode(body)
      case Ok(v) => Ok(Value(v))
      case Err(e) => Err(e)
  }

  // ---------- the decoder against the grammar ----------

  /** The whole text is one JSON value of RFC 8259, this one, with white space around it. */
  ghost predicate Denotes(body: string, v: Json) {
    exists pad, d, end :: DenotedBy(body, v, pad, d, end)
  }

  ghost predicate DenotedBy(body: string, v: Json, pad: string, d: Doc, end: string) {
    AllSpace(pad) && AllSpace(end) && DocOk(d, MAX_DEPTH) && body == pad + (Spell(d) + end) && Meaning(d) == v
  }

  /** The text begins with a value of RFC 8259, this one, that ends where `rest` begins. */
  ghost predicate Begins(body: string, v: Json, rest: string) {
    exists pad, d :: BegunBy(body, v, pad, d, rest)
  }

  ghost predicate BegunBy(body: string, v: Json, pad: string, d: Doc, rest: string) {
    && AllSpace(pad) && DocOk(d, MAX_DEPTH) && body == pad + (Spell(d) + rest) && Meaning(d) == v
    && (d.Number? ==> Ends(d.number, rest))
  }

  /** The decoder reads v and leaves `rest` exactly when the body begins with v and `rest` follows. */
  lemma DecoderReadsFirstValue(body: string, v: Json, rest: string)
    ensures Begins(body, v, rest) <==> ParseValue(body, MAX_DEPTH) == Parsed(v, rest)
  {
    hide ParseValue, DocOk, Spell, Meaning, Ends;
    if Begins(body, v, rest) {
      var pad, d :| BegunBy(body, v, pad, d, rest);
      ReadsDoc(d, rest, MAX_DEPTH);
      PadValue(pad, Spell(d) + rest, MAX_DEPTH);
    }
    if ParseValue(body, MAX_DEPTH) == Parsed(v, rest) {
      var pad, d := ReadValue(body, MAX_DEPTH);
      assert BegunBy(body, v, pad, d, rest);
    }
  }

  lemma BlankEndsAll(end: string)
    requires AllSpace(end)
    ensures Stops(end)
  {
    assert end != "" ==> end[0] in end;
  }

  /** A body is read as v, with only white space left over, exactly when it is a JSON text that denotes v. */
  lemma DecodeMeetsGrammar(body: string, v: Json)
    ensures Denotes(body, v) <==>
      var r := ParseValue(body, MAX_DEPTH);
      r.Parsed? && r.value == v && AllSpace(r.rest)
  {
    hide ParseValue, DocOk, Spell, Meaning, AllSpace;
    if Denotes(body, v) {
      var pad, d, end :| DenotedBy(body, v, pad, d, end);
      BlankEndsAll(end);
      assert BegunBy(body, v, pad, d, end);
      DecoderReadsFirstValue(body, v, end);
    }
    var r := ParseValue(body, MAX_DEPTH);
    if r.Parsed? && r.value == v && AllSpace(r.rest) {
      DecoderReadsFirstValue(body, v, r.rest);
      var pad, d :| BegunBy(body, v, pad, d, r.rest);
      assert DenotedBy(body, v, pad, d, r.rest);
    }
  }

  /** The grammar is unambiguous. */
  lemma DenotesOneValue(body: string, v: Json, w: Json)
    requires Denotes(body, v) && Denotes(body, w)
    ensures v == w
  {
    DecodeMeetsGrammar(body, v);
    DecodeMeetsGrammar(body, w);
  }

  lemma DecodedIsGood(body: string)
    ensures Decode(body).Ok? ==> Good(Decode(body).value, MAX_DEPTH)
  {
    if Decode(body).Ok? {
      var pad, d := ReadValue(body, MAX_DEPTH);
      MeaningGood(d, MAX_DEPTH);
    }
  }

  // ---------- the canonical form ----------

  /** Reading undoes writing, and nothing is left over. */
  lemma ParseUndoesPrint(v: Json)
    requires Good(v, MAX_DEPTH)
    ensures ParseValue(Print(v), MAX_DEPTH) == Parsed(v, "") && Print(v) != ""
  {
    hide ParseValue, DocOk, Spell, Meaning, Print, Good;
    PrintSpells(v, MAX_DEPTH);
    var d := DocFor(v, MAX_DEPTH);
    ReadsDoc(d, "", MAX_DEPTH);
    assert Spell(d) + "" == Spell(d);
    FirstChar(d, MAX_DEPTH);
  }

  lemma CanonicalIsIdempotent(body: string)
    ensures Canonical(body).Ok? ==>
      && Canonical(Canonical(body).value) == Canonical(body)
      && ContentOf(Canonical(body).value) == ContentOf(body)
  {
    hide ParseValue, Print, Good;
    if body != "" && Canonical(body).Ok? {
      DecodedIsGood(body);
      ParseUndoesPrint(Decode(body).value);
    }
  }

  /** Two bodies have the same canonical form exactly when they say the same. */
  lemma CanonicalMeansContent(a: string, b: string)
    ensures Canonical(a).Ok? && Canonical(b).Ok? ==> (Canonical(a) == Canonical(b) <==> ContentOf(a) == ContentOf(b))
  {
    CanonicalIsIdempotent(a);
    CanonicalIsIdempotent(b);
    hide Decode, Print;
  }

  /** Two JSON texts have the same canonical form exactly when they denote the same value. */
  lemma CanonicalMeansValue(a: string, b: string, v: Json, w: Json)
    requires Denotes(a, v) && Denotes(b, w)
    ensures Canonical(a).Ok? && Canonical(b).Ok?
    ensures Canonical(a) == Canonical(b) <==> v == w
  {
    DecodeMeetsGrammar(a, v);
    DecodeMeetsGrammar(b, w);
    CanonicalMeansContent(a, b);
    EmptyDenotesNothing(v);
    EmptyDenotesNothing(w);
    hide Denotes, Print, ParseValue;
  }

  lemma EmptyDenotesNothing(v: Json)
    ensures !Denotes("", v)
  {
    DecodeMeetsGrammar("", v);
    hide Denotes;
  }

  /** An empty body is canonical as it is; any other is refused exactly when it begins with no JSON value. */
  lemma RefusedExactlyWhen(body: string)
    ensures Canonical("") == Ok("")
    ensures Canonical(body).Err? <==> body != "" && forall v, rest :: !Begins(body, v, rest)
  {
    hide Begins, ParseValue, Print;
    var r := ParseValue(body, MAX_DEPTH);
    if r.Parsed? {
      DecoderReadsFirstValue(body, r.value, r.rest);
    } else {
      forall v, rest ensures !Begins(body, v, rest) {
        DecoderReadsFirstValue(body, v, rest);
      }
    }
  }

  // ---------- text after the first value ----------

  /**
   * A body and its first value alone have the same canonical form. Nothing but white space was passed
   * over if and only if the body as a whole is a JSON text, and then it denotes that value.
   */
  lemma RestIsPassedOver(body: string, v: Json, rest: string)
    requires Begins(body, v, rest)
    ensures |rest| < |body|
    ensures var first := body[..|body| - |rest|];
            && body == first + rest && Denotes(first, v)
            && Canonical(body) == Canonical(first) == Ok(Print(v))
    ensures AllSpace(rest) <==> exists w :: Denotes(body, w)
    ensures forall w :: Denotes(body, w) ==> w == v
  {
    hide ParseValue, DocOk, Spell, Meaning, Ends, Print, AllSpace;
    DecoderReadsFirstValue(body, v, rest);
    var pad, d :| BegunBy(body, v, pad, d, rest);
    var first := pad + Spell(d);
    FirstChar(d, MAX_DEPTH);
    assert body == first + rest && body[..|body| - |rest|] == first;
    FirstDenotes(first, v, pad, d);
    DecodeMeetsGrammar(first, v);
    forall w ensures Denotes(body, w) <==> w == v && AllSpace(rest) {
      DecodeMeetsGrammar(body, w);
    }
    if AllSpace(rest) {
      assert Denotes(body, v);
    }
  }

  lemma FirstDenotes(first: string, v: Json, pad: string, d: Doc)
    requires AllSpace(pad) && DocOk(d, MAX_DEPTH) && first == pad + Spell(d) && Meaning(d) == v
    ensures Denotes(first, v)
  {
    hide DocOk, Spell, Meaning;
    assert first == pad + (Spell(d) + "");
    assert DenotedBy(first, v, pad, d, "");
  }

  /**
   * A JSON text and any other body have the same canonical form exactly when the other one begins with
   * the same value; so two JSON texts never share it by chance, and a body shares it unduly only if it
   * is no JSON text itself.
   */
  lemma SharedFormWhen(a: string, b: string, v: Json)
    requires Denotes(a, v) && b != ""
    ensures Canonical(a) == Canonical(b) <==> exists rest :: Begins(b, v, rest)
  {
    hide Denotes, Begins, ParseValue, Print;
    EmptyDenotesNothing(v);
    DecodeMeetsGrammar(a, v);
    CanonicalMeansContent(a, b);
    var r := ParseValue(b, MAX_DEPTH);
    if Canonical(a) == Canonical(b) {
      DecoderReadsFirstValue(b, v, r.rest);
    }
    if rest :| Begins(b, v, rest) {
      DecoderReadsFirstValue(b, v, rest);
    }
  }

  lemma BracesFirst()
    ensures Begins("{} x", Obj([]), " x")
  {
    var d := Object([], "");
    assert Spell(d) == "{}" by { assert "{" + "" + "}" == "{}"; }
    assert Meaning(d) == Obj([]);
    assert DocOk(d, MAX_DEPTH);
    hide Spell, Meaning, DocOk;
    assert "{} x" == "" + ("{}" + " x");
    assert BegunBy("{} x", Obj([]), "", d, " x");
  }

  /** At an input: a second text after an object is passed over, though the whole denotes nothing. */
  lemma TrailingTextIsPassedOver()
    ensures Canonical("{} x") == Canonical("{}")
    ensures Denotes("{}", Obj([])) && forall w :: !Denotes("{} x", w)
  {
    hide Canonical, Denotes;
    BracesFirst();
    RestIsPassedOver("{} x", Obj([]), " x");
    assert "{} x"[..2] == "{}";
    assert " x"[1] in " x" && !AllSpace(" x");
  }

  /** Any two texts of one value, whatever their white space, escapes and order of members, canonicalise alike. */
  lemma LayoutIsIrrelevant(a: string, b: string, v: Json)
    requires Denotes(a, v) && Denotes(b, v)
    ensures Canonical(a).Ok? && Canonical(a) == Canonical(b)
  {
    DecodeMeetsGrammar(a, v);
    DecodeMeetsGrammar(b, v);
    hide Denotes, Print;
  }

  /** An object says what its members, as a map in which the last of a key counts, say. */
  function LastOf(ms: seq<Member>, key: string): Option<Json> {
    if ms == [] then None
    else if LastOf(ms[1..], key).Some? then LastOf(ms[1..], key)
    else if TextOf(ms[0].key) == key then Some(Meaning(ms[0].value.doc))
    else None
  }

  lemma {:induction false} MembersAsMap(ms: seq<Member>, fields: seq<Field>, key: string)
    requires Sorted(fields)
    ensures Sorted(MeaningOfMembers(ms, fields))
    ensures Lookup(MeaningOfMembers(ms, fields), key) ==
      if LastOf(ms, key).Some? then LastOf(ms, key) else Lookup(fields, key)
    decreases ms
  {
    if ms != [] {
      var k, v := TextOf(ms[0].key), Meaning(ms[0].value.doc);
      PutSorted(fields, k, v);
      PutLookup(fields, k, v, key);
      MembersAsMap(ms[1..], Put(fields, k, v), key);
      hide Sorted, Put, Lookup, TextOf, Meaning;
    }
  }

  ghost predicate SameMap(a: seq<Member>, b: seq<Member>) {
    forall key :: LastOf(a, key) == LastOf(b, key)
  }

  /** Two objects are the same value exactly when their members agree as maps. */
  lemma ObjectsAreMaps(a: seq<Member>, b: seq<Member>, gapA: string, gapB: string)
    ensures Meaning(Object(a, gapA)) == Meaning(Object(b, gapB)) <==> SameMap(a, b)
  {
    var x, y := MeaningOfMembers(a, []), MeaningOfMembers(b, []);
    MembersAsMap(a, [], "");
    MembersAsMap(b, [], "");
    if SameMap(a, b) {
      forall key ensures Lookup(x, key) == Lookup(y, key) {
        FieldAt(a, key);
        FieldAt(b, key);
      }
      SameMapSameFields(x, y);
    }
    if x == y {
      forall key ensures LastOf(a, key) == LastOf(b, key) {
        FieldAt(a, key);
        FieldAt(b, key);
      }
    }
  }

  lemma FieldAt(ms: seq<Member>, key: string)
    ensures Lookup(MeaningOfMembers(ms, []), key) == LastOf(ms, key)
  {
    MembersAsMap(ms, [], key);
    EmptyLookup(key);
  }

  lemma EmptyLookup(key: string)
    ensures Lookup([], key) == None
  {
  }

  // ---------- framing ----------

  predicate OneLine(s: string) {
    '\n' !in s
  }

  /** What is hashed. */
  function Preimage(verb: string, path: string, canonical: string): string {
    verb + "\n" + path + "\n" + canonical
  }

  lemma {:induction false} FirstLineUnique(a: string, b: string, s: string, t: string)
    requires OneLine(a) && OneLine(b) && a + ("\n" + s) == b + ("\n" + t)
    ensures a == b && s == t
  {
    if a == "" || b == "" {
      assert (a + ("\n" + s))[0] == (b + ("\n" + t))[0];
      assert s == (a + ("\n" + s))[1..] && t == (b + ("\n" + t))[1..];
    } else {
      assert a[0] == (a + ("\n" + s))[0] && b[0] == (b + ("\n" + t))[0];
      assert a[1..] + ("\n" + s) == (a + ("\n" + s))[1..];
      assert b[1..] + ("\n" + t) == (b + ("\n" + t))[1..];
      FirstLineUnique(a[1..], b[1..], s, t);
      assert a == [a[0]] + a[1..] && b == [b[0]] + b[1..];
    }
  }

  lemma {:induction false} LastLineUnique(a: string, b: string, s: string, t: string)
    requires OneLine(s) && OneLine(t) && a + "\n" + s == b + "\n" + t
    ensures a == b && s == t
  {
    var x, y := a + "\n" + s, b + "\n" + t;
    if s == "" || t == "" {
      assert x[|x| - 1] == y[|y| - 1];
      assert a == x[..|a|] && b == y[..|b|];
    } else {
      assert s[|s| - 1] == x[|x| - 1] && t[|t| - 1] == y[|y| - 1];
      assert a + "\n" + s[..|s| - 1] == x[..|x| - 1];
      assert b + "\n" + t[..|t| - 1] == y[..|y| - 1];
      LastLineUnique(a, b, s[..|s| - 1], t[..|t| - 1]);
      assert s == s[..|s| - 1] + [s[|s| - 1]] && t == t[..|t| - 1] + [t[|t| - 1]];
    }
  }

  /** The three parts can be read back, even from a path with line breaks in it. */
  lemma FramingIsUnique(m: string, p: string, c: string, m': string, p': string, c': string)
    requires OneLine(m) && OneLine(m') && OneLine(c) && OneLine(c')
    requires Preimage(m, p, c) == Preimage(m', p', c')
    ensures m == m' && p == p' && c == c'
  {
    assert Preimage(m, p, c) == m + ("\n" + (p + "\n" + c));
    assert Preimage(m', p', c') == m' + ("\n" + (p' + "\n" + c'));
    FirstLineUnique(m, m', p + "\n" + c, p' + "\n" + c');
    LastLineUnique(p, p', c, c');
  }

  /** A line break in the method would make the framing ambiguous. */
  lemma MethodsMustBeOneLine()
    ensures Preimage("A\nB", "C", "") == Preimage("A", "B\nC", "")
  {
  }

  // ---------- the canonical form has no line breaks, and nothing a page could misread ----------

  /** No control characters, none that HTML gives a meaning, and no line or paragraph separators. */
  predicate Safe(s: string) {
    forall c <- s :: c as nat >= 0x20 && c !in {'<', '>', '&', '\U{2028}', '\U{2029}'}
  }

  lemma EscapedSafe(c: char)
    ensures Safe(EscapeChar(c))
  {
    if c < ' ' || c == '<' || c == '>' || c == '&' {
      assert c as nat < 64;
      DigitSafe(c as nat / 16);
    }
    DigitSafe(c as nat % 16);
    hide HexDigit;
  }

  lemma DigitSafe(n: nat)
    requires n < 16
    ensures Safe([HexDigit(n)])
  {
    assert HexDigit(n) in "0123456789abcdef" && Safe("0123456789abcdef");
  }

  lemma {:induction false} EscapedAllSafe(s: string)
    ensures Safe(EscapeAll(s))
  {
    if s != "" {
      EscapedSafe(s[0]);
      EscapedAllSafe(s[1..]);
      hide EscapeChar;
    }
  }

  lemma NumberSafe(n: NumberToken)
    requires NumberOk(n)
    ensures Safe(NumberText(n))
  {
    forall s: string | Digits(s) ensures Safe(s) {
      assert forall c <- s :: IsDigit(c);
    }
    hide Digits;
  }

  lemma {:induction false} PrintSafe(v: Json, room: nat)
    requires Good(v, room)
    ensures Safe(Print(v))
    decreases v
  {
    match v
    case Num(literal) =>
      var n :| NumberOk(n) && NumberText(n) == literal;
      NumberSafe(n);
    case Str(s) => EscapedAllSafe(s);
    case Arr(items) => ItemsSafe(items, room - 1);
    case Obj(fields) => FieldsSafe(fields, room - 1);
    case _ =>
  }

  lemma {:induction false} ItemsSafe(items: seq<Json>, room: nat)
    requires forall i <- items :: Good(i, room)
    ensures Safe(PrintItems(items))
    decreases items
  {
    hide Good, Print;
    if items != [] {
      assert items[0] in items;
      PrintSafe(items[0], room);
      ItemsSafe(items[1..], room);
    }
  }

  lemma {:induction false} FieldsSafe(fields: seq<Field>, room: nat)
    requires forall f <- fields :: GoodField(f, room)
    ensures Safe(PrintFields(fields))
    decreases fields
  {
    hide Good, Print, EscapeAll;
    if fields != [] {
      assert fields[0] in fields && GoodField(fields[0], room);
      EscapedAllSafe(fields[0].key);
      PrintSafe(fields[0].value, room);
      hide GoodField;
      FieldsSafe(fields[1..], room);
    }
  }

  lemma CanonicalIsSafe(body: string)
    ensures Canonical(body).Ok? ==> Safe(Canonical(body).value)
  {
    if body != "" && Canonical(body).Ok? {
      DecodedIsGood(body);
      PrintSafe(Decode(body).value, MAX_DEPTH);
      hide Decode, Print;
    }
  }

  lemma CanonicalOneLine(body: string)
    ensures Canonical(body).Ok? ==> OneLine(Canonical(body).value)
  {
    CanonicalIsSafe(body);
    hide Canonical;
  }

  // ---------- the fingerprint ----------

  /** The hash object the fingerprint is fed to. */
  class Hash {
    var written: string

    constructor ()
      ensures written == ""
    {
      written := "";
    }

    method Write(chunk: string)
      modifies this
      ensures written == old(written) + chunk
    {
      written := written + chunk;
    }
  }

  function FingerprintOf(sha: string -> string, verb: string, path: string, body: string): Result<string, Error> {
    match Canonical(body)
    case Ok(canonical) => Ok(sha(Preimage(verb, path, canonical)))
    case Err(e) => Err(e)
  }

  method Fingerprint(sha: string -> string, verb: string, path: string, body: string)
    returns (r: Result<string, Error>)
    ensures r == FingerprintOf(sha, verb, path, body)
  {
    hide Canonical;
    var canonical := Canonical(body);
    if canonical.Err? { return Err(canonical.error); }
    var h := new Hash();
    h.Write(verb);
    h.Write("\n");
    h.Write(path);
    h.Write("\n");
    h.Write(canonical.value);
    assert "" + verb == verb;
    r := Ok(sha(h.written));
  }

  ghost predicate Injective(sha: string -> string) {
    forall s, t :: sha(s) == sha(t) ==> s == t
  }

  /** Equal fingerprints mean equal method, equal path and equal content of the body, and conversely. */
  lemma FingerprintIdentifies(
      sha: string -> string, m: string, p: string, body: string, m': string, p': string, body': string)
    requires Injective(sha) && OneLine(m) && OneLine(m')
    requires Canonical(body).Ok? && Canonical(body').Ok?
    ensures FingerprintOf(sha, m, p, body) == FingerprintOf(sha, m', p', body') <==>
      m == m' && p == p' && ContentOf(body) == ContentOf(body')
  {
    CanonicalOneLine(body);
    CanonicalOneLine(body');
    CanonicalMeansContent(body, body');
    var c, c' := Canonical(body).value, Canonical(body').value;
    hide Canonical, ContentOf;
    if sha(Preimage(m, p, c)) == sha(Preimage(m', p', c')) {
      FramingIsUnique(m, p, c, m', p', c');
    }
  }

  /** Number literals count as written: amounts beyond 2^53 stay distinct, and so do 1 and 1.0. */
  lemma NumbersAreLiteral(a: NumberToken, b: NumberToken)
    requires NumberOk(a) && NumberOk(b)
    ensures Canonical(NumberText(a)) == Canonical(NumberText(b)) <==> NumberText(a) == NumberText(b)
  {
    forall n: NumberToken | NumberOk(n) ensures Canonical(NumberText(n)) == Ok(NumberText(n)) {
      ReadsDoc(Number(n), "", MAX_DEPTH);
      assert NumberText(n) + "" == NumberText(n);
      FirstChar(Number(n), MAX_DEPTH);
    }
  }

  // ---------- the key ----------

  const MAX_KEY_LENGTH := 255

  /** Keys are non-empty printable ASCII of bounded length, one byte per character. */
  method ValidateKey(key: string) returns (error: Option<Error>)
    ensures error.None? <==> 1 <= |key| <= 255 && forall c <- key :: 0x20 <= c as nat <= 0x7E
    ensures error == Some(KeyRequired) <==> key == ""
    ensures error != Some(MalformedBody)
  {
    if key == "" { return Some(KeyRequired); }
    if |key| > MAX_KEY_LENGTH { return Some(KeyInvalid); }
    for i := 0 to |key|
      invariant forall k :: 0 <= k < i ==> 0x20 <= key[k] as nat <= 0x7E
    {
      if key[i] < '\U{20}' || key[i] > '\U{7E}' {
        assert key[i] in key;
        return Some(KeyInvalid);
      }
    }
    error := None;
  }
}
