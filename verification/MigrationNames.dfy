/** Which files count as migrations, which names are refused, and what a directory of documented files loads as. */
module MigrationNames {
  import opened Wrappers
  import L = Ledger
  import opened Migrations

  /** Plain files that end in .sql, and nothing else. */
  lemma MigrationFilesAre(e: Entry)
    ensures IsMigrationFile(e) <==> !e.isDir && exists stem :: e.name == stem + ".sql"
  {
    if IsMigrationFile(e) {
      assert e.name == e.name[..|e.name| - 4] + ".sql";
    }
  }

  // ---------- version numbers ----------

  lemma DecimalShift(s: string, c: char)
    requires (forall d <- s :: IsDigit(d)) && IsDigit(c)
    ensures DigitsValue(s + [c]) == 10 * DigitsValue(s) + (c as int - '0' as int)
  {
    assert (s + [c])[..|s|] == s;
  }

  /** Decimal, with leading zeros and an optional sign. */
  lemma VersionsAreDecimal()
    ensures ParseInt64("0002") == Some(2) && ParseInt64("10") == Some(10)
    ensures ParseInt64("-7") == Some(-7) && ParseInt64("+7") == Some(7)
  {
    hide DigitsValue;
    Digit('0');
    Digit('2');
    Digit('1');
    Digit('7');
    DecimalShift("0", '0');
    DecimalShift("00", '0');
    DecimalShift("000", '2');
    DecimalShift("1", '0');
    assert "0" + ['0'] == "00" && "00" + ['0'] == "000" && "000" + ['2'] == "0002" && "1" + ['0'] == "10";
    assert "-7"[1..] == "7" && "+7"[1..] == "7";
  }

  lemma Digit(c: char)
    requires IsDigit(c)
    ensures DigitsValue([c]) == c as int - '0' as int
  {
    assert [c][..0] == [];
  }

  /** A version is an optional sign and digits that make a bigint; nothing else is. */
  lemma VersionsAre(s: string)
    ensures ParseInt64(s).Some? <==>
      var digits := if s != "" && (s[0] == '+' || s[0] == '-') then s[1..] else s;
      && digits != "" && (forall c <- digits :: '0' <= c <= '9')
      && var n: int := if s[0] == '-' then -(DigitsValue(digits) as int) else DigitsValue(digits);
         -0x8000_0000_0000_0000 <= n <= 0x7FFF_FFFF_FFFF_FFFF
  {
    hide DigitsValue;
  }

  // ---------- names that are refused ----------

  lemma NoExtensionWithoutDot(s: string)
    requires '.' !in s
    ensures Ext(s) == ""
  {
    if s != "" {
      assert s[|s| - 1] in s;
      NoExtensionWithoutDot(s[..|s| - 1]);
    }
  }

  lemma Base(base: string)
    ensures TrimSuffix(base + ".sql", ".sql") == base
  {
    Trimmed(base, ".sql");
  }

  /** Without a number and an underscore before the name. */
  lemma NameRefused(stem: string, d: Direction)
    requires '_' !in stem || (stem != "" && stem[0] == '_')
    ensures var file := stem + Suffix(d) + ".sql"; ParseFileName(file) == Err(BadName(file))
  {
    hide Ext, TrimSuffix, ParseInt64;
    Base(stem + Suffix(d));
    ExtAfter(stem, Suffix(d));
    Trimmed(stem, Suffix(d));
    if stem != "" && stem[0] == '_' {
      assert "" + ['_'] + stem[1..] == stem;
      FirstIndex("", '_', stem[1..]);
    }
  }

  /** With something else than a version before the underscore. */
  lemma VersionRefused(number: string, name: string, d: Direction)
    requires number != "" && '_' !in number && ParseInt64(number).None?
    ensures var file := number + "_" + name + Suffix(d) + ".sql"; ParseFileName(file) == Err(BadVersion(file))
  {
    hide Ext, TrimSuffix, ParseInt64, IndexOf;
    var stem := number + "_" + name;
    Base(stem + Suffix(d));
    ExtAfter(stem, Suffix(d));
    Trimmed(stem, Suffix(d));
    FirstIndex(number, '_', name);
    assert stem[..|number|] == number;
  }

  /** With another extension than .up or .down before .sql, or with none. */
  lemma DirectionRefused(padding: nat, version: L.int64, name: string, ext: string)
    requires version >= 0 && '.' !in name
    requires ext == "" || (ext[0] == '.' && forall i :: 1 <= i < |ext| ==> ext[i] != '.' && ext[i] != '/')
    requires ext != ".up" && ext != ".down"
    ensures var file := Zeros(padding) + Digits(version) + "_" + name + ext + ".sql";
            ParseFileName(file) == Err(BadDirection(file))
  {
    hide Ext, TrimSuffix, ParseInt64, IndexOf, Zeros;
    var number := Zeros(padding) + Digits(version);
    var stem := number + "_" + name;
    Base(stem + ext);
    VersionRoundTrip(padding, version);
    NoUnderscore(number);
    NoDotInDigits(number);
    if ext == "" {
      assert '.' !in stem;
      NoExtensionWithoutDot(stem);
      assert stem + ext == stem;
    } else {
      ExtAfter(stem, ext);
    }
    Trimmed(stem, ext);
    FirstIndex(number, '_', name);
    assert stem[..|number|] == number;
  }

  lemma NoDotInDigits(digits: string)
    requires AllDigits(digits)
    ensures '.' !in digits
  {
  }

  // ---------- a directory of documented files ----------

  /** One file as the documentation has it: NNNN_name.up.sql or NNNN_name.down.sql with a body. */
  datatype Source = Source(padding: nat, file: FileName, body: string)

  /** The entry is this file; or, with no source, it is a directory or no .sql file. */
  ghost predicate Holds(e: Entry, s: Option<Source>) {
    match s
    case Some(x) => x.file.version >= 0 && e == Entry(FormatFileName(x.padding, x.file), false, x.body)
    case None => e.isDir || !exists stem :: e.name == stem + ".sql"
  }

  predicate Is(s: Option<Source>, v: L.int64, d: Direction) {
    s.Some? && s.value.file.version == v && s.value.file.direction == d
  }

  predicate Of(s: Option<Source>, v: L.int64) {
    s.Some? && s.value.file.version == v
  }

  /** Each version has at most one file per direction, and one up file, not empty. */
  ghost predicate WellKept(files: seq<Option<Source>>) {
    && (forall i, j, v: L.int64, d :: 0 <= i < j < |files| && Is(files[i], v, d) ==> !Is(files[j], v, d))
    && (forall i, v: L.int64 :: 0 <= i < |files| && Of(files[i], v) ==> HasUp(files, v))
  }

  ghost predicate HasUp(files: seq<Option<Source>>, v: L.int64) {
    exists i :: 0 <= i < |files| && Is(files[i], v, Up) && files[i].value.body != ""
  }

  lemma HeldEntry(e: Entry, s: Option<Source>, v: L.int64, d: Direction)
    requires Holds(e, s)
    ensures Readable(e) && (Describes(e, v) <==> Of(s, v)) && (Gives(e, v, d) <==> Is(s, v, d))
    ensures s.Some? ==> e.body == s.value.body && (Of(s, v) ==> ParseFileName(e.name).value.name == s.value.file.name)
  {
    hide ParseFileName, FormatFileName;
    MigrationFilesAre(e);
    if s.Some? {
      FileNameRoundTrip(s.value.padding, s.value.file);
    }
  }

  /** The body of a version and direction is that of its one file. */
  lemma {:induction false} BodyIsThatOfTheFile(entries: seq<Entry>, files: seq<Option<Source>>, v: L.int64, d: Direction, i: nat)
    requires |entries| == |files| && forall j :: 0 <= j < |files| ==> Holds(entries[j], files[j])
    requires i < |files| && Is(files[i], v, d)
    requires forall j :: 0 <= j < |files| && j != i ==> !Is(files[j], v, d)
    ensures BodyOf(entries, v, d) == files[i].value.body
  {
    hide Holds, Gives;
    var n := |files| - 1;
    HeldEntry(entries[n], files[n], v, d);
    if i < n {
      BodyIsThatOfTheFile(entries[..n], files[..n], v, d, i);
    }
  }

  lemma {:induction false} NoFileNoBody(entries: seq<Entry>, files: seq<Option<Source>>, v: L.int64, d: Direction)
    requires |entries| == |files| && forall j :: 0 <= j < |files| ==> Holds(entries[j], files[j]) && !Is(files[j], v, d)
    ensures BodyOf(entries, v, d) == ""
  {
    hide Holds, Gives;
    if files != [] {
      var n := |files| - 1;
      HeldEntry(entries[n], files[n], v, d);
      NoFileNoBody(entries[..n], files[..n], v, d);
    }
  }

  /** The name is that in the first file of the version. */
  lemma {:induction false} NameIsThatOfTheFirstFile(entries: seq<Entry>, files: seq<Option<Source>>, v: L.int64, i: nat)
    requires |entries| == |files| && forall j :: 0 <= j < |files| ==> Holds(entries[j], files[j])
    requires i < |files| && Of(files[i], v) && forall j :: 0 <= j < i ==> !Of(files[j], v)
    ensures NameOf(entries, v) == files[i].value.file.name
  {
    hide Holds, Describes, ParseFileName;
    HeldEntry(entries[0], files[0], v, Up);
    if i > 0 {
      NameIsThatOfTheFirstFile(entries[1..], files[1..], v, i - 1);
    }
  }

  lemma MentionedIs(entries: seq<Entry>, files: seq<Option<Source>>, v: L.int64)
    requires |entries| == |files| && forall j :: 0 <= j < |files| ==> Holds(entries[j], files[j])
    ensures Mentioned(entries, v) <==> exists i :: 0 <= i < |files| && Of(files[i], v)
  {
    hide Holds, Describes;
    forall i | 0 <= i < |files| ensures Describes(entries[i], v) <==> Of(files[i], v) {
      HeldEntry(entries[i], files[i], v, Up);
    }
    if i :| 0 <= i < |files| && Of(files[i], v) {
      assert entries[i] in entries;
    }
  }

  lemma EverythingReadable(entries: seq<Entry>, files: seq<Option<Source>>)
    requires |entries| == |files| && forall j :: 0 <= j < |files| ==> Holds(entries[j], files[j])
    ensures forall e <- entries :: Readable(e)
  {
    hide Holds, Readable;
    forall e | e in entries ensures Readable(e) {
      var i :| 0 <= i < |entries| && entries[i] == e;
      HeldEntry(entries[i], files[i], 0, Up);
    }
  }

  /**
   * A directory of documented files loads: one migration for each version that has files, in ascending
   * order, with the body and the checksum of its up file, the body of its down file or none, and the
   * name in its first file.
   */
  lemma DocumentedDirectoryLoads(
      entries: seq<Entry>, files: seq<Option<Source>>, sha: string -> string, ms: seq<Migration>, m: Migration, i: nat, j: nat)
    requires |entries| == |files| && WellKept(files) && forall l :: 0 <= l < |files| ==> Holds(entries[l], files[l])
    ensures Migrations.Complete(entries)
    ensures Denotes(entries, sha, ms) && m in ms ==>
      && (exists l :: 0 <= l < |files| && Of(files[l], m.version))
      && (i < |files| && Is(files[i], m.version, Up) ==> m.up == files[i].value.body && m.checksum == sha(m.up))
      && (i < |files| && Is(files[i], m.version, Down) ==> m.down == files[i].value.body)
      && ((forall l :: 0 <= l < |files| ==> !Is(files[l], m.version, Down)) ==> m.down == "")
      && (j < |files| && Of(files[j], m.version) && (forall l :: 0 <= l < j ==> !Of(files[l], m.version)) ==>
            m.name == files[j].value.file.name)
    ensures Denotes(entries, sha, ms) && i < |files| && files[i].Some? ==> HasVersion(ms, files[i].value.file.version)
  {
    hide Holds, Mentioned, BodyOf, NameOf, Readable;
    EverythingReadable(entries, files);
    forall v: L.int64 | Mentioned(entries, v) ensures BodyOf(entries, v, Up) != "" {
      MentionedIs(entries, files, v);
      UpBody(entries, files, v);
    }
    if Denotes(entries, sha, ms) {
      if i < |files| && files[i].Some? {
        assert Of(files[i], files[i].value.file.version);
        MentionedIs(entries, files, files[i].value.file.version);
      }
      if m in ms {
        OneMigration(entries, files, m.version, i, j);
        assert HasVersion(ms, m.version);
        MentionedIs(entries, files, m.version);
      }
    }
  }

  lemma UpBody(entries: seq<Entry>, files: seq<Option<Source>>, v: L.int64)
    requires |entries| == |files| && WellKept(files) && forall l :: 0 <= l < |files| ==> Holds(entries[l], files[l])
    requires exists l :: 0 <= l < |files| && Of(files[l], v)
    ensures BodyOf(entries, v, Up) != ""
  {
    hide Holds, BodyOf;
    var l :| 0 <= l < |files| && Of(files[l], v);
    assert HasUp(files, v);
    var i :| 0 <= i < |files| && Is(files[i], v, Up) && files[i].value.body != "";
    OnlyFile(files, v, Up, i);
    BodyIsThatOfTheFile(entries, files, v, Up, i);
  }

  lemma OnlyFile(files: seq<Option<Source>>, v: L.int64, d: Direction, i: nat)
    requires WellKept(files) && i < |files| && Is(files[i], v, d)
    ensures forall j :: 0 <= j < |files| && j != i ==> !Is(files[j], v, d)
  {
    hide Is;
    assert forall j :: 0 <= j < i && Is(files[j], v, d) ==> !Is(files[i], v, d);
  }

  lemma OneMigration(entries: seq<Entry>, files: seq<Option<Source>>, v: L.int64, i: nat, j: nat)
    requires |entries| == |files| && WellKept(files) && forall l :: 0 <= l < |files| ==> Holds(entries[l], files[l])
    ensures forall d :: i < |files| && Is(files[i], v, d) ==> BodyOf(entries, v, d) == files[i].value.body
    ensures (forall l :: 0 <= l < |files| ==> !Is(files[l], v, Down)) ==> BodyOf(entries, v, Down) == ""
    ensures j < |files| && Of(files[j], v) && (forall l :: 0 <= l < j ==> !Of(files[l], v)) ==>
      NameOf(entries, v) == files[j].value.file.name
  {
    hide Holds, BodyOf, NameOf, WellKept;
    forall d | i < |files| && Is(files[i], v, d) ensures BodyOf(entries, v, d) == files[i].value.body {
      OnlyFile(files, v, d, i);
      BodyIsThatOfTheFile(entries, files, v, d, i);
    }
    if forall l :: 0 <= l < |files| ==> !Is(files[l], v, Down) {
      NoFileNoBody(entries, files, v, Down);
    }
    if j < |files| && Of(files[j], v) && forall l :: 0 <= l < j ==> !Of(files[l], v) {
      NameIsThatOfTheFirstFile(entries, files, v, j);
    }
  }
}
