/** The migration files: how names are read, and what list LoadMigrations makes of a directory. */
module Migrations {
  import opened Wrappers
  import opened Ledger

  datatype Direction = Up | Down

  datatype Entry = Entry(name: string, isDir: bool, body: string)

  datatype FileName = FileName(version: int64, name: string, direction: Direction)

  datatype Migration = Migration(version: int64, name: string, up: string, down: string, checksum: string)

  datatype LoadError =
    | BadName(file: string)
    | BadVersion(file: string)
    | BadDirection(file: string)
    | MissingUp(version: int64)

  // ---------- file names ----------

  predicate HasSuffix(s: string, suffix: string) {
    |s| >= |suffix| && s[|s| - |suffix|..] == suffix
  }

  function TrimSuffix(s: string, suffix: string): string {
    if HasSuffix(s, suffix) then s[..|s| - |suffix|] else s
  }

  /** path.Ext: from the last dot on, within the last path element. */
  function Ext(s: string): string {
    if s == [] || s[|s| - 1] == '/' then ""
    else if s[|s| - 1] == '.' then "."
    else
      var init := Ext(s[..|s| - 1]);
      if init == "" then "" else init + [s[|s| - 1]]
  }

  function IndexOf(s: string, c: char): (i: Option<nat>)
    ensures i.Some? ==> i.value < |s| && s[i.value] == c && c !in s[..i.value]
    ensures i.None? ==> c !in s
  {
    if s == [] then None
    else if s[0] == c then Some(0)
    else
      match IndexOf(s[1..], c)
      case None => None
      case Some(i) => assert s[..i + 1] == [s[0]] + s[1..][..i]; Some(i + 1)
  }

  predicate IsDigit(c: char) {
    '0' <= c <= '9'
  }

  predicate AllDigits(s: string) {
    s != [] && forall c <- s :: IsDigit(c)
  }

  function DigitsValue(s: string): nat
    requires forall c <- s :: IsDigit(c)
  {
    if s == [] then 0
    else
      var last := s[|s| - 1];
      assert IsDigit(last);
      10 * DigitsValue(s[..|s| - 1]) + (last - '0') as nat
  }

  /** strconv.ParseInt in base 10: an optional sign, at least one digit, within 64 bits. */
  function ParseInt64(s: string): Option<int64> {
    var signed := s != [] && (s[0] == '+' || s[0] == '-');
    var digits := if signed then s[1..] else s;
    if !AllDigits(digits) then None
    else
      var magnitude := DigitsValue(digits);
      var value: int := if signed && s[0] == '-' then -(magnitude as int) else magnitude;
      if InInt64(value) then Some(value) else None
  }

  predicate IsMigrationFile(e: Entry) {
    !e.isDir && HasSuffix(e.name, ".sql")
  }

  function ParseFileName(file: string): Result<FileName, LoadError> {
    var base := TrimSuffix(file, ".sql");
    var direction := Ext(base);
    var stem := TrimSuffix(base, direction);
    match IndexOf(stem, '_')
    case None => Err(BadName(file))
    case Some(idx) =>
      if idx == 0 then Err(BadName(file))
      else
        match ParseInt64(stem[..idx])
        case None => Err(BadVersion(file))
        case Some(version) =>
          if direction == ".up" then Ok(FileName(version, stem[idx + 1..], Up))
          else if direction == ".down" then Ok(FileName(version, stem[idx + 1..], Down))
          else Err(BadDirection(file))
  }

  // ---------- names written the documented way are read back ----------

  function Digits(n: nat): (s: string)
    ensures AllDigits(s)
    ensures DigitsValue(s) == n
  {
    var last := ('0' as int + n % 10) as char;
    if n < 10 then
      assert [last][..0] == [];
      [last]
    else
      var s := Digits(n / 10) + [last];
      assert s[..|s| - 1] == Digits(n / 10);
      s
  }

  function Zeros(k: nat): string {
    seq(k, _ => '0')
  }

  function Suffix(d: Direction): string {
    if d == Up then ".up" else ".down"
  }

  /** NNNN_name.up.sql, with any zero padding. */
  function FormatFileName(padding: nat, f: FileName): string
    requires f.version >= 0
  {
    Zeros(padding) + Digits(f.version) + "_" + f.name + Suffix(f.direction) + ".sql"
  }

  lemma {:induction false} ZerosKeepValue(k: nat, s: string)
    requires AllDigits(s)
    ensures AllDigits(Zeros(k) + s) && DigitsValue(Zeros(k) + s) == DigitsValue(s)
    decreases |s|
  {
    var t := Zeros(k) + s;
    assert t[..|t| - 1] == Zeros(k) + s[..|s| - 1];
    if |s| == 1 {
      assert s[..0] == [] && Zeros(k) + s[..0] == Zeros(k);
      AllZeros(k);
    } else {
      ZerosKeepValue(k, s[..|s| - 1]);
    }
  }

  lemma {:induction false} AllZeros(k: nat)
    ensures (forall c <- Zeros(k) :: IsDigit(c)) && DigitsValue(Zeros(k)) == 0
  {
    if k > 0 {
      AllZeros(k - 1);
      assert Zeros(k)[..k - 1] == Zeros(k - 1);
    }
  }

  /** The extension is found after any stem, even one with dots in it. */
  lemma {:induction false} ExtAfter(stem: string, ext: string)
    requires ext != "" && ext[0] == '.' && forall i :: 1 <= i < |ext| ==> ext[i] != '.' && ext[i] != '/'
    ensures Ext(stem + ext) == ext
  {
    var s, n := stem + ext, |ext| - 1;
    assert s[|s| - 1] == ext[n];
    if n > 0 {
      assert s[..|s| - 1] == stem + ext[..n];
      ExtAfter(stem, ext[..n]);
      assert ext == ext[..n] + [ext[n]];
    } else {
      assert ext == ".";
    }
  }

  lemma FirstIndex(a: string, c: char, b: string)
    requires c !in a
    ensures IndexOf(a + [c] + b, c) == Some(|a|)
  {
    var s := a + [c] + b;
    assert s[|a|] == c;
    assert forall k :: 0 <= k < |a| ==> s[k] == a[k];
    assert forall k :: |a| < k <= |s| ==> s[..k][|a|] == c;
  }

  lemma VersionRoundTrip(padding: nat, v: int64)
    requires v >= 0
    ensures ParseInt64(Zeros(padding) + Digits(v)) == Some(v)
    ensures AllDigits(Zeros(padding) + Digits(v))
  {
    var digits := Zeros(padding) + Digits(v);
    ZerosKeepValue(padding, Digits(v));
    assert IsDigit(digits[0]) by { assert digits[0] in digits; }
    hide DigitsValue;
  }

  /** A name in the documented form is read back, whatever the padding and even with dots in the name. */
  lemma FileNameRoundTrip(padding: nat, f: FileName)
    requires f.version >= 0
    ensures HasSuffix(FormatFileName(padding, f), ".sql")
    ensures ParseFileName(FormatFileName(padding, f)) == Ok(f)
  {
    hide ParseInt64, Ext, Zeros, IndexOf, AllDigits, TrimSuffix, HasSuffix;
    var digits := Zeros(padding) + Digits(f.version);
    var stem := digits + "_" + f.name;
    var base := stem + Suffix(f.direction);
    assert FormatFileName(padding, f) == base + ".sql";
    VersionRoundTrip(padding, f.version);
    ExtAfter(stem, Suffix(f.direction));
    NoUnderscore(digits);
    FirstIndex(digits, '_', f.name);
    Trimmed(base, ".sql");
    Trimmed(stem, Suffix(f.direction));
    assert stem[..|digits|] == digits && stem[|digits| + 1..] == f.name;
    hide FormatFileName;
  }

  lemma NoUnderscore(digits: string)
    requires AllDigits(digits)
    ensures digits != "" && '_' !in digits
  {
  }

  lemma Trimmed(s: string, suffix: string)
    ensures HasSuffix(s + suffix, suffix) && TrimSuffix(s + suffix, suffix) == s
  {
  }

  // ---------- what a directory says ----------

  predicate Readable(e: Entry) {
    IsMigrationFile(e) ==> ParseFileName(e.name).Ok?
  }

  predicate Describes(e: Entry, v: int64) {
    IsMigrationFile(e) && ParseFileName(e.name).Ok? && ParseFileName(e.name).value.version == v
  }

  predicate Gives(e: Entry, v: int64, d: Direction) {
    Describes(e, v) && ParseFileName(e.name).value.direction == d
  }

  /** The body of the last file for this version and direction. */
  function BodyOf(entries: seq<Entry>, v: int64, d: Direction): string {
    if entries == [] then ""
    else if Gives(entries[|entries| - 1], v, d) then entries[|entries| - 1].body
    else BodyOf(entries[..|entries| - 1], v, d)
  }

  /** The name in the first file for this version. */
  function NameOf(entries: seq<Entry>, v: int64): string {
    if entries == [] then ""
    else if Describes(entries[0], v) then ParseFileName(entries[0].name).value.name
    else NameOf(entries[1..], v)
  }

  predicate Mentioned(entries: seq<Entry>, v: int64) {
    exists e <- entries :: Describes(e, v)
  }

  ghost predicate Complete(entries: seq<Entry>) {
    && (forall e <- entries :: Readable(e))
    && (forall v: int64 :: Mentioned(entries, v) ==> BodyOf(entries, v, Up) != "")
  }

  predicate Ascending(ms: seq<Migration>) {
    forall i, j :: 0 <= i < j < |ms| ==> ms[i].version < ms[j].version
  }

  predicate HasVersion(ms: seq<Migration>, v: int64) {
    exists m <- ms :: m.version == v
  }

  function MigrationOf(entries: seq<Entry>, v: int64, sha: string -> string): Migration {
    Migration(v, NameOf(entries, v), BodyOf(entries, v, Up), BodyOf(entries, v, Down), sha(BodyOf(entries, v, Up)))
  }

  /** The list a directory denotes: each version once, in order, with what its files say. */
  ghost predicate Denotes(entries: seq<Entry>, sha: string -> string, ms: seq<Migration>) {
    && Ascending(ms)
    && (forall v: int64 :: Mentioned(entries, v) <==> HasVersion(ms, v))
    && (forall m <- ms :: m == MigrationOf(entries, m.version, sha) && m.up != "")
  }

  /** Whatever order the version map is walked in, there is one list. */
  lemma {:induction false} DenotesOne(entries: seq<Entry>, sha: string -> string, xs: seq<Migration>, ys: seq<Migration>)
    requires Denotes(entries, sha, xs) && Denotes(entries, sha, ys)
    ensures xs == ys
  {
    hide MigrationOf, Mentioned;
    SameVersions(xs, ys);
    forall i | 0 <= i < |xs| ensures xs[i] == ys[i] {
      assert xs[i] in xs && ys[i] in ys;
    }
  }

  lemma {:induction false} SameVersions(xs: seq<Migration>, ys: seq<Migration>)
    requires Ascending(xs) && Ascending(ys)
    requires forall v: int64 :: HasVersion(xs, v) <==> HasVersion(ys, v)
    ensures |xs| == |ys| && forall i :: 0 <= i < |xs| ==> xs[i].version == ys[i].version
  {
    if xs == [] || ys == [] {
      if xs != [] { assert xs[0] in xs && HasVersion(xs, xs[0].version); }
      if ys != [] { assert ys[0] in ys && HasVersion(ys, ys[0].version); }
    } else {
      var x, y := xs[|xs| - 1], ys[|ys| - 1];
      assert HasVersion(xs, x.version) && HasVersion(ys, y.version);
      var a, b := xs[..|xs| - 1], ys[..|ys| - 1];
      forall v: int64 ensures HasVersion(a, v) <==> HasVersion(b, v) {
        LastVersion(xs, v);
        LastVersion(ys, v);
      }
      SameVersions(a, b);
    }
  }

  lemma LastVersion(ms: seq<Migration>, v: int64)
    requires ms != [] && Ascending(ms)
    ensures HasVersion(ms, v) ==> v <= ms[|ms| - 1].version
    ensures HasVersion(ms[..|ms| - 1], v) <==> HasVersion(ms, v) && v < ms[|ms| - 1].version
  {
    var init := ms[..|ms| - 1];
    if HasVersion(ms, v) {
      var m :| m in ms && m.version == v;
      var i :| 0 <= i < |ms| && ms[i] == m;
      assert i < |ms| - 1 ==> init[i] == m && m in init;
    }
  }

  // ---------- LoadMigrations ----------

  /** What a version map holds for v after these entries. */
  ghost predicate CollectedAt(entries: seq<Entry>, byVersion: map<int64, Migration>, v: int64) {
    && (v in byVersion <==> Mentioned(entries, v))
    && (v in byVersion ==>
          byVersion[v] == Migration(v, NameOf(entries, v), BodyOf(entries, v, Up), BodyOf(entries, v, Down), ""))
  }

  ghost predicate Collected(entries: seq<Entry>, byVersion: map<int64, Migration>) {
    forall v: int64 :: CollectedAt(entries, byVersion, v)
  }

  function Merge(byVersion: map<int64, Migration>, f: FileName, body: string): map<int64, Migration> {
    var m := if f.version in byVersion then byVersion[f.version] else Migration(f.version, f.name, "", "", "");
    byVersion[f.version := if f.direction == Up then m.(up := body) else m.(down := body)]
  }

  lemma {:induction false} NameOfMore(entries: seq<Entry>, e: Entry, v: int64)
    ensures NameOf(entries + [e], v) ==
      if Mentioned(entries, v) then NameOf(entries, v)
      else if Describes(e, v) then ParseFileName(e.name).value.name
      else ""
  {
    hide Describes, ParseFileName;
    if entries == [] {
      assert entries + [e] == [e];
    } else {
      NameOfMore(entries[1..], e, v);
      assert (entries + [e])[1..] == entries[1..] + [e];
      assert entries == [entries[0]] + entries[1..];
    }
  }

  lemma {:induction false} NothingMentioned(entries: seq<Entry>, v: int64, d: Direction)
    requires !Mentioned(entries, v)
    ensures BodyOf(entries, v, d) == ""
  {
    if entries != [] {
      hide ParseFileName, IsMigrationFile;
      assert !Describes(entries[|entries| - 1], v);
      NothingMentioned(entries[..|entries| - 1], v, d);
    }
  }

  lemma MentionedMore(entries: seq<Entry>, e: Entry, v: int64)
    ensures Mentioned(entries + [e], v) <==> Mentioned(entries, v) || Describes(e, v)
  {
    hide Describes;
    var all := entries + [e];
    assert all[|entries|] == e;
    assert forall i :: 0 <= i < |entries| ==> all[i] == entries[i];
  }

  /** One more entry, as one version sees it. */
  lemma MoreAt(entries: seq<Entry>, e: Entry, v: int64)
    ensures Mentioned(entries + [e], v) <==> Mentioned(entries, v) || Describes(e, v)
    ensures forall d :: BodyOf(entries + [e], v, d) == if Gives(e, v, d) then e.body else BodyOf(entries, v, d)
    ensures NameOf(entries + [e], v) ==
      if Mentioned(entries, v) then NameOf(entries, v)
      else if Describes(e, v) then ParseFileName(e.name).value.name
      else ""
    ensures !Mentioned(entries, v) ==> forall d :: BodyOf(entries, v, d) == ""
  {
    hide Mentioned, Describes, ParseFileName, Gives;
    assert (entries + [e])[..|entries|] == entries;
    MentionedMore(entries, e, v);
    NameOfMore(entries, e, v);
    if !Mentioned(entries, v) {
      forall d ensures BodyOf(entries, v, d) == "" { NothingMentioned(entries, v, d); }
    }
  }

  lemma CollectOne(entries: seq<Entry>, byVersion: map<int64, Migration>, e: Entry)
    requires Collected(entries, byVersion) && IsMigrationFile(e) && ParseFileName(e.name).Ok?
    ensures Collected(entries + [e], Merge(byVersion, ParseFileName(e.name).value, e.body))
  {
    hide ParseFileName, IsMigrationFile, Mentioned, BodyOf, NameOf;
    var merged := Merge(byVersion, ParseFileName(e.name).value, e.body);
    forall v: int64 ensures CollectedAt(entries + [e], merged, v) {
      assert CollectedAt(entries, byVersion, v);
      MoreAt(entries, e, v);
    }
  }

  /** A directory or another kind of file changes nothing. */
  lemma CollectNone(entries: seq<Entry>, byVersion: map<int64, Migration>, e: Entry)
    requires Collected(entries, byVersion) && !IsMigrationFile(e)
    ensures Collected(entries + [e], byVersion)
  {
    hide ParseFileName, IsMigrationFile, Mentioned, BodyOf, NameOf;
    forall v: int64 ensures CollectedAt(entries + [e], byVersion, v) {
      assert CollectedAt(entries, byVersion, v);
      MoreAt(entries, e, v);
    }
  }

  predicate Distinct(ms: seq<Migration>) {
    forall i, j :: 0 <= i < j < |ms| ==> ms[i].version != ms[j].version
  }

  ghost predicate SameElements(xs: seq<Migration>, ys: seq<Migration>) {
    |xs| == |ys| && forall m :: m in xs <==> m in ys
  }

  lemma SwapKeeps(xs: seq<Migration>, ys: seq<Migration>, i: nat, j: nat)
    requires i < j < |xs| && ys == xs[i := xs[j]][j := xs[i]] && Distinct(xs)
    ensures Distinct(ys) && SameElements(xs, ys)
  {
    forall m | m in xs ensures m in ys {
      var k :| 0 <= k < |xs| && xs[k] == m;
      assert ys[if k == i then j else if k == j then i else k] == m;
    }
  }

  /** Move out[n] down to its place in the sorted part before it. */
  method Insert(out: array<Migration>, n: nat)
    requires n < out.Length && Distinct(out[..]) && Ascending(out[..n])
    modifies out
    ensures Distinct(out[..]) && Ascending(out[..n + 1]) && SameElements(old(out[..]), out[..])
  {
    var k := n;
    while k > 0 && out[k].version < out[k - 1].version
      invariant k <= n
      invariant Distinct(out[..]) && SameElements(old(out[..]), out[..])
      invariant forall i, j :: 0 <= i < j <= n && j != k ==> out[i].version < out[j].version
    {
      ghost var before := out[..];
      out[k - 1], out[k] := out[k], out[k - 1];
      SwapKeeps(before, out[..], k - 1, k);
      k := k - 1;
    }
    assert k > 0 ==> out[..][k - 1].version != out[..][k].version;
  }

  /** Sort by version, in place. */
  method SortByVersion(out: array<Migration>)
    requires Distinct(out[..])
    modifies out
    ensures Ascending(out[..]) && SameElements(old(out[..]), out[..])
  {
    for n := 0 to out.Length
      invariant Distinct(out[..]) && Ascending(out[..n]) && SameElements(old(out[..]), out[..])
    {
      Insert(out, n);
    }
    assert out[..] == out[..out.Length];
  }

  /**
   * LoadMigrations: the one list the directory denotes; or the first unreadable file; or some version
   * without an up body, which one being left to the order of the map.
   */
  method LoadMigrations(entries: seq<Entry>, sha: string -> string) returns (r: Result<seq<Migration>, LoadError>)
    ensures r.Ok? <==> Complete(entries)
    ensures r.Ok? ==> Denotes(entries, sha, r.value)
    ensures r.Err? && r.error.MissingUp? ==>
      && (forall e <- entries :: Readable(e))
      && Mentioned(entries, r.error.version) && BodyOf(entries, r.error.version, Up) == ""
    ensures r.Err? && !r.error.MissingUp? ==>
      exists i | 0 <= i < |entries| ::
        && !Readable(entries[i]) && ParseFileName(entries[i].name).error == r.error
        && forall e <- entries[..i] :: Readable(e)
  {
    hide ParseFileName, IsMigrationFile, Collected, Merge, Mentioned, BodyOf, NameOf;
    var byVersion: map<int64, Migration> := map[];
    CollectedNothing();
    for i := 0 to |entries|
      invariant Collected(entries[..i], byVersion)
      invariant forall e <- entries[..i] :: Readable(e)
    {
      var e := entries[i];
      assert entries[..i + 1] == entries[..i] + [e];
      if !IsMigrationFile(e) {
        CollectNone(entries[..i], byVersion, e);
        continue;
      }
      var name := ParseFileName(e.name);
      if name.Err? {
        NotMissing(e.name);
        assert e in entries;
        return Err(name.error);
      }
      CollectOne(entries[..i], byVersion, e);
      byVersion := Merge(byVersion, name.value, e.body);
    }
    assert entries[..|entries|] == entries;
    r := Finish(entries, byVersion, sha);
  }

  lemma NotMissing(file: string)
    ensures ParseFileName(file).Err? ==> !ParseFileName(file).error.MissingUp?
  {
  }

  lemma CollectedNothing()
    ensures Collected([], map[])
  {
  }

  /** The second loop: walk the map in any order, check and checksum each version, then sort. */
  method Finish(entries: seq<Entry>, byVersion: map<int64, Migration>, sha: string -> string)
    returns (r: Result<seq<Migration>, LoadError>)
    requires Collected(entries, byVersion) && forall e <- entries :: Readable(e)
    ensures r.Ok? <==> Complete(entries)
    ensures r.Ok? ==> Denotes(entries, sha, r.value)
    ensures r.Err? ==>
      r.error.MissingUp? && Mentioned(entries, r.error.version) && BodyOf(entries, r.error.version, Up) == ""
  {
    hide Mentioned, BodyOf, NameOf, Readable;
    var out: seq<Migration> := [];
    var rest := byVersion.Keys;
    while rest != {}
      invariant rest <= byVersion.Keys
      invariant forall v :: v in byVersion && v !in rest <==> HasVersion(out, v)
      invariant Distinct(out)
      invariant forall m <- out :: m == MigrationOf(entries, m.version, sha) && m.up != ""
    {
      var v :| v in rest;
      var m := byVersion[v];
      assert CollectedAt(entries, byVersion, v);
      if m.up == "" {
        return Err(MissingUp(v));
      }
      m := m.(checksum := sha(m.up));
      assert forall x <- out :: HasVersion(out, x.version);
      ghost var before := out;
      out := out + [m];
      rest := rest - {v};
      forall u: int64 ensures HasVersion(out, u) <==> HasVersion(before, u) || u == v {
        assert forall x :: x in out <==> x in before || x == m;
      }
    }
    var sorted := new Migration[|out|](i requires 0 <= i < |out| => out[i]);
    assert sorted[..] == out;
    SortByVersion(sorted);
    r := Ok(sorted[..]);
    forall v: int64 ensures Mentioned(entries, v) <==> HasVersion(sorted[..], v) {
      assert CollectedAt(entries, byVersion, v);
      assert v in byVersion <==> HasVersion(out, v);
    }
    forall v: int64 | Mentioned(entries, v) ensures BodyOf(entries, v, Up) != "" {
      assert HasVersion(out, v);
    }
  }
}
