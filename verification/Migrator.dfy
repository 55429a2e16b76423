/**
 * Applying and rolling back migrations. The database is the bookkeeping table and a schema; SQL is
 * whatever partial function on schemas the server computes, and any migration may fail.
 */
module Migrator {
  import opened Wrappers
  import opened Ledger
  import opened Migrations

  /** A row of schema_migrations, under its version. */
  datatype Row = Row(name: string, checksum: string)

  datatype Db<S> = Db(applied: map<int64, Row>, schema: S)

  type Sql<!S> = (string, S) -> Option<S>

  /** How the transaction of one migration ends, apart from what its SQL does. */
  datatype Fate = Commits | RollsBack | CommitsUnheard

  datatype Error = Modified(version: int64) | NoDown(version: int64) | Aborted(version: int64) | Unheard(version: int64)

  datatype Outcome<S> = Outcome(db: Db<S>, count: nat, error: Option<Error>)

  function RowOf(m: Migration): Row {
    Row(m.name, m.checksum)
  }

  /** applyOne: the body and its bookkeeping, both or neither. */
  function ApplyOne<S>(sql: Sql<S>, db: Db<S>, m: Migration, up: bool, fate: Fate): Outcome<S> {
    var after := sql(if up then m.up else m.down, db.schema);
    if after.None? || fate.RollsBack? || (up && m.version in db.applied) then
      Outcome(db, 0, Some(Aborted(m.version)))
    else
      var applied := if up then db.applied[m.version := RowOf(m)] else db.applied - {m.version};
      if fate.CommitsUnheard? then Outcome(Db(applied, after.value), 0, Some(Unheard(m.version)))
      else Outcome(Db(applied, after.value), 1, None)
  }

  function Counting<S>(o: Outcome<S>, n: nat): Outcome<S> {
    o.(count := o.count + n)
  }

  /** Up over a list, with `seen` the bookkeeping rows read at the start. */
  function UpFrom<S>(sql: Sql<S>, ms: seq<Migration>, seen: map<int64, Row>, db: Db<S>, fates: int64 -> Fate): Outcome<S> {
    if ms == [] then Outcome(db, 0, None)
    else
      var m := ms[0];
      if m.version in seen then
        if seen[m.version].checksum != m.checksum then Outcome(db, 0, Some(Modified(m.version)))
        else UpFrom(sql, ms[1..], seen, db, fates)
      else
        var one := ApplyOne(sql, db, m, true, fates(m.version));
        if one.error.Some? then one
        else Counting(UpFrom(sql, ms[1..], seen, one.db, fates), 1)
  }

  /** Down over a list, newest first, until n are rolled back. */
  function DownFrom<S>(sql: Sql<S>, ms: seq<Migration>, seen: map<int64, Row>, db: Db<S>, n: int, fates: int64 -> Fate): Outcome<S> {
    if ms == [] || n <= 0 then Outcome(db, 0, None)
    else
      var init, m := ms[..|ms| - 1], ms[|ms| - 1];
      if m.version !in seen then DownFrom(sql, init, seen, db, n, fates)
      else if m.down == "" then Outcome(db, 0, Some(NoDown(m.version)))
      else
        var one := ApplyOne(sql, db, m, false, fates(m.version));
        if one.error.Some? then one
        else Counting(DownFrom(sql, init, seen, one.db, n - 1, fates), 1)
  }

  // ---------- the commands, as the program runs them ----------

  class Database<S> {
    const sql: Sql<S>
    var applied: map<int64, Row>
    var schema: S

    ghost function State(): Db<S>
      reads this
    {
      Db(applied, schema)
    }

    constructor (sql: Sql<S>, schema: S)
      ensures this.sql == sql && State() == Db(map[], schema)
    {
      this.sql := sql;
      this.schema := schema;
      applied := map[];
    }

    /** One migration in one transaction: private changes first, then all of them or none. */
    method Apply(m: Migration, up: bool, fate: Fate) returns (error: Option<Error>)
      modifies this
      ensures var o := ApplyOne(sql, old(State()), m, up, fate); State() == o.db && error == o.error
    {
      var after := sql(if up then m.up else m.down, schema);
      if after.None? { return Some(Aborted(m.version)); }
      var rows := applied;
      if up {
        if m.version in rows { return Some(Aborted(m.version)); }
        rows := rows[m.version := RowOf(m)];
      } else {
        rows := rows - {m.version};
      }
      if fate.RollsBack? { return Some(Aborted(m.version)); }
      applied, schema := rows, after.value;
      error := if fate.CommitsUnheard? then Some(Unheard(m.version)) else None;
    }

    method MigrateUp(migrations: seq<Migration>, fates: int64 -> Fate) returns (count: nat, error: Option<Error>)
      modifies this
      ensures Outcome(State(), count, error) ==
        UpFrom(sql, migrations, old(applied), old(State()), fates)
    {
      var seen := applied;
      count := 0;
      ghost var goal := UpFrom(sql, migrations, seen, State(), fates);
      assert migrations[0..] == migrations;
      for i := 0 to |migrations|
        invariant goal == Counting(UpFrom(sql, migrations[i..], seen, State(), fates), count)
      {
        var m := migrations[i];
        assert migrations[i..][1..] == migrations[i + 1..];
        if m.version in seen {
          if seen[m.version].checksum != m.checksum { return count, Some(Modified(m.version)); }
          continue;
        }
        error := Apply(m, true, fates(m.version));
        if error.Some? { return; }
        count := count + 1;
      }
      error := None;
    }

    method MigrateDown(migrations: seq<Migration>, n: int, fates: int64 -> Fate) returns (count: nat, error: Option<Error>)
      modifies this
      ensures Outcome(State(), count, error) ==
        DownFrom(sql, migrations, old(applied), old(State()), n, fates)
    {
      var seen := applied;
      count := 0;
      ghost var goal := DownFrom(sql, migrations, seen, State(), n, fates);
      var i := |migrations|;
      assert migrations[..i] == migrations;
      while i > 0 && count < n
        invariant 0 <= i <= |migrations|
        invariant goal == Counting(DownFrom(sql, migrations[..i], seen, State(), n - count, fates), count)
      {
        i := i - 1;
        var m := migrations[i];
        assert migrations[..i + 1][..i] == migrations[..i];
        if m.version !in seen { continue; }
        if m.down == "" { return count, Some(NoDown(m.version)); }
        error := Apply(m, false, fates(m.version));
        if error.Some? { return; }
        count := count + 1;
      }
      error := None;
    }

    /** The highest applied version, or 0 when none has run. */
    method Version() returns (v: int64)
      ensures applied == map[] ==> v == 0
      ensures applied != map[] ==> v in applied && forall u :: u in applied ==> u <= v
    {
      if applied.Keys == {} { return 0; }
      v :| v in applied;
      var rest := applied.Keys - {v};
      while rest != {}
        invariant v in applied && rest <= applied.Keys
        invariant forall u :: u in applied && u !in rest ==> u <= v
      {
        var u :| u in rest;
        rest := rest - {u};
        if u > v { v := u; }
      }
    }
  }

  // ---------- the applied set is a prefix ----------

  function Rows(ms: seq<Migration>): map<int64, Row> {
    if ms == [] then map[] else Rows(ms[..|ms| - 1])[ms[|ms| - 1].version := RowOf(ms[|ms| - 1])]
  }

  /** The schema after running the up bodies in order. */
  function Built<S>(sql: Sql<S>, ms: seq<Migration>, empty: S): Option<S> {
    if ms == [] then Some(empty)
    else
      match Built(sql, ms[..|ms| - 1], empty)
      case None => None
      case Some(s) => sql(ms[|ms| - 1].up, s)
  }

  /** Exactly the first k migrations are in force: in the bookkeeping and in the schema. */
  ghost predicate At<S(!new)>(sql: Sql<S>, ms: seq<Migration>, empty: S, k: nat, db: Db<S>) {
    k <= |ms| && db.applied == Rows(ms[..k]) && Built(sql, ms[..k], empty) == Some(db.schema)
  }

  /** Where a down body is given and runs, it undoes the up body. */
  ghost predicate DownsInvert<S(!new)>(sql: Sql<S>, ms: seq<Migration>) {
    forall i, s :: 0 <= i < |ms| && ms[i].down != "" && sql(ms[i].up, s).Some? ==> Inverts(sql, ms[i], s)
  }

  predicate Inverts<S(==)>(sql: Sql<S>, m: Migration, s: S)
    requires sql(m.up, s).Some?
  {
    var back := sql(m.down, sql(m.up, s).value);
    back.Some? ==> back.value == s
  }

  lemma {:induction false} RowsOfPrefix(ms: seq<Migration>, v: int64)
    ensures v in Rows(ms) <==> HasVersion(ms, v)
  {
    if ms != [] {
      var init, m := ms[..|ms| - 1], ms[|ms| - 1];
      RowsOfPrefix(init, v);
      assert forall x :: x in ms <==> x in init || x == m;
      hide RowOf;
    }
  }

  lemma {:induction false} RowAt(ms: seq<Migration>, i: nat)
    requires Ascending(ms) && i < |ms|
    ensures ms[i].version in Rows(ms) && Rows(ms)[ms[i].version] == RowOf(ms[i])
  {
    if i < |ms| - 1 {
      var init := ms[..|ms| - 1];
      assert init[i] == ms[i] && ms[i].version < ms[|ms| - 1].version;
      RowAt(init, i);
      hide RowOf;
    }
  }

  /** Membership and position say the same thing about the applied set. */
  lemma InPrefix(ms: seq<Migration>, k: nat, i: nat)
    requires Ascending(ms) && k <= |ms| && i < |ms|
    ensures ms[i].version in Rows(ms[..k]) <==> i < k
    ensures i < k ==> Rows(ms[..k])[ms[i].version] == RowOf(ms[i])
  {
    hide RowOf, Rows;
    RowsOfPrefix(ms[..k], ms[i].version);
    if i < k {
      assert ms[..k][i] == ms[i];
      RowAt(ms[..k], i);
    } else {
      assert forall x :: x in ms[..k] ==> x.version < ms[i].version;
    }
  }

  /** The state is determined by how many migrations are in force. */
  lemma AtDetermines<S(!new)>(sql: Sql<S>, ms: seq<Migration>, empty: S, k: nat, a: Db<S>, b: Db<S>)
    requires At(sql, ms, empty, k, a) && At(sql, ms, empty, k, b)
    ensures a == b
  {
  }

  /** How far the database really moved: an unheard commit is not counted by the program. */
  function Moved<S>(o: Outcome<S>): nat {
    o.count + if o.error.Some? && o.error.value.Unheard? then 1 else 0
  }

  lemma MovedCounts<S(!new)>(o: Outcome<S>, n: nat)
    ensures Moved(Counting(o, n)) == Moved(o) + n
  {
  }

  lemma OneUp<S(!new)>(sql: Sql<S>, ms: seq<Migration>, empty: S, k: nat, db: Db<S>, fate: Fate)
    requires Ascending(ms) && At(sql, ms, empty, k, db) && k < |ms|
    ensures var o := ApplyOne(sql, db, ms[k], true, fate);
            && At(sql, ms, empty, k + Moved(o), o.db)
            && Moved(o) <= 1
            && (o.error.None? ==> Moved(o) == 1) && (o.error.Some? ==> !o.error.value.Modified?)
  {
    assert ms[..k + 1][..k] == ms[..k];
  }

  lemma OneDown<S(!new)>(sql: Sql<S>, ms: seq<Migration>, empty: S, k: nat, db: Db<S>, fate: Fate)
    requires Ascending(ms) && At(sql, ms, empty, k, db) && 0 < k && DownsInvert(sql, ms) && ms[k - 1].down != ""
    ensures var o := ApplyOne(sql, db, ms[k - 1], false, fate);
            && Moved(o) <= 1 && At(sql, ms, empty, k - Moved(o), o.db)
            && (o.error.None? ==> Moved(o) == 1)
  {
    var m := ms[k - 1];
    assert ms[..k][..k - 1] == ms[..k - 1];
    RowsOfPrefix(ms[..k - 1], m.version);
    assert forall x :: x in ms[..k - 1] ==> x.version < m.version;
    var before := Built(sql, ms[..k - 1], empty).value;
    assert sql(m.up, before) == Some(db.schema);
    assert Inverts(sql, m, before);
    assert Rows(ms[..k]) - {m.version} == Rows(ms[..k - 1]);
  }

  function Max(a: nat, b: nat): nat {
    if a >= b then a else b
  }

  function Least(a: nat, b: nat): nat {
    if a <= b then a else b
  }

  lemma UpUnfolds<S(!new)>(
      sql: Sql<S>, ms: seq<Migration>, i: nat, known: nat, seen: map<int64, Row>, db: Db<S>, fates: int64 -> Fate)
    requires i <= known <= |ms|
    ensures i == known ==> UpFrom(sql, ms[i..known], seen, db, fates) == Outcome(db, 0, None)
    ensures i < known && ms[i].version in seen && seen[ms[i].version].checksum == ms[i].checksum ==>
      UpFrom(sql, ms[i..known], seen, db, fates) == UpFrom(sql, ms[i + 1..known], seen, db, fates)
    ensures i < known && ms[i].version !in seen ==>
      var one := ApplyOne(sql, db, ms[i], true, fates(ms[i].version));
      UpFrom(sql, ms[i..known], seen, db, fates) ==
        if one.error.Some? then one else Counting(UpFrom(sql, ms[i + 1..known], seen, one.db, fates), 1)
  {
    hide ApplyOne;
    if i < known {
      assert ms[i..known][0] == ms[i] && ms[i..known][1..] == ms[i + 1..known];
    }
  }

  /**
   * Up by a program that knows the first `known` migrations, from position i on, when k were applied:
   * it only extends the prefix, and without an error it reaches the end of what it knows.
   */
  lemma {:induction false} UpExtends<S(!new)>(
      sql: Sql<S>, ms: seq<Migration>, empty: S, known: nat, i: nat, k: nat, db: Db<S>, fates: int64 -> Fate)
    requires Ascending(ms) && i <= known <= |ms| && k <= |ms|
    requires At(sql, ms, empty, Max(i, k), db)
    ensures var o := UpFrom(sql, ms[i..known], Rows(ms[..k]), db, fates);
            && At(sql, ms, empty, Max(i, k) + Moved(o), o.db)
            && Max(i, k) + Moved(o) <= Max(known, k)
            && (o.error.None? ==> o.count == Max(known, k) - Max(i, k))
            && (o.error.Some? ==> !o.error.value.Modified?)
    decreases known - i
  {
    hide At, Rows, ApplyOne, UpFrom, Ascending;
    var seen := Rows(ms[..k]);
    UpUnfolds(sql, ms, i, known, seen, db, fates);
    if i < known {
      InPrefix(ms, k, i);
      if i < k {
        UpExtends(sql, ms, empty, known, i + 1, k, db, fates);
      } else {
        OneUp(sql, ms, empty, i, db, fates(ms[i].version));
        var one := ApplyOne(sql, db, ms[i], true, fates(ms[i].version));
        if one.error.None? {
          UpExtends(sql, ms, empty, known, i + 1, k, one.db, fates);
          MovedCounts(UpFrom(sql, ms[i + 1..known], seen, one.db, fates), 1);
        }
      }
    }
  }

  /** Down over the first i migrations, when k were applied: it only shortens the prefix, by n if it can. */
  lemma {:induction false} DownShortens<S(!new)>(
      sql: Sql<S>, ms: seq<Migration>, empty: S, i: nat, k: nat, db: Db<S>, n: int, fates: int64 -> Fate)
    requires Ascending(ms) && DownsInvert(sql, ms) && i <= |ms| && k <= |ms|
    requires At(sql, ms, empty, Least(i, k), db)
    ensures var o := DownFrom(sql, ms[..i], Rows(ms[..k]), db, n, fates);
            && Moved(o) <= Least(i, k) && At(sql, ms, empty, Least(i, k) - Moved(o), o.db)
            && (o.error.None? ==> o.count == Least(if n < 0 then 0 else n, Least(i, k)))
    decreases i
  {
    hide At, Rows, ApplyOne, DownsInvert, Ascending;
    if i > 0 && n > 0 {
      assert ms[..i][i - 1] == ms[i - 1] && ms[..i][..i - 1] == ms[..i - 1];
      InPrefix(ms, k, i - 1);
      if i > k {
        DownShortens(sql, ms, empty, i - 1, k, db, n, fates);
      } else if ms[i - 1].down != "" {
        OneDown(sql, ms, empty, i, db, fates(ms[i - 1].version));
        var one := ApplyOne(sql, db, ms[i - 1], false, fates(ms[i - 1].version));
        if one.error.None? {
          DownShortens(sql, ms, empty, i - 1, k, one.db, n - 1, fates);
        }
      }
    }
  }

  // ---------- when Up and Down succeed ----------

  /** Migration i can be applied on top of those before it, and its commit is heard of. */
  predicate Applies<S>(sql: Sql<S>, ms: seq<Migration>, empty: S, i: nat, fates: int64 -> Fate)
    requires i < |ms|
  {
    Built(sql, ms[..i + 1], empty).Some? && fates(ms[i].version) == Commits
  }

  /** Migration i can be rolled back once those after it are. */
  predicate RollsBackWell<S>(sql: Sql<S>, ms: seq<Migration>, empty: S, i: nat, fates: int64 -> Fate)
    requires i < |ms|
  {
    && ms[i].down != "" && Built(sql, ms[..i + 1], empty).Some?
    && sql(ms[i].down, Built(sql, ms[..i + 1], empty).value).Some? && fates(ms[i].version) == Commits
  }

  /** One migration: it goes through exactly when its body runs and its commit is heard of. */
  lemma OneUpSucceedsWhen<S(!new)>(sql: Sql<S>, ms: seq<Migration>, empty: S, k: nat, db: Db<S>, fates: int64 -> Fate)
    requires Ascending(ms) && At(sql, ms, empty, k, db) && k < |ms|
    ensures var v := ms[k].version;
            var o := ApplyOne(sql, db, ms[k], true, fates(v));
            && (o.error.None? <==> Applies(sql, ms, empty, k, fates))
            && (o.error.Some? ==> o.count == 0)
            && (o.error.Some? ==>
                  o.error.value ==
                    if Built(sql, ms[..k + 1], empty).Some? && fates(v) == CommitsUnheard then Unheard(v) else Aborted(v))
  {
    assert ms[..k + 1][..k] == ms[..k];
    InPrefix(ms, k, k);
  }

  lemma OneDownSucceedsWhen<S(!new)>(sql: Sql<S>, ms: seq<Migration>, empty: S, i: nat, db: Db<S>, fates: int64 -> Fate)
    requires i < |ms| && At(sql, ms, empty, i + 1, db)
    ensures var o := ApplyOne(sql, db, ms[i], false, fates(ms[i].version));
            ms[i].down != "" && o.error.None? <==> RollsBackWell(sql, ms, empty, i, fates)
  {
  }

  /**
   * Up by a program that knows the first `known` migrations, from position i on: it reports no error
   * exactly when every migration still missing applies; otherwise it stops at the first that does not.
   */
  lemma {:induction false} UpFromSucceedsWhen<S(!new)>(
      sql: Sql<S>, ms: seq<Migration>, empty: S, known: nat, i: nat, k: nat, db: Db<S>, fates: int64 -> Fate)
    requires Ascending(ms) && i <= known <= |ms| && k <= |ms|
    requires At(sql, ms, empty, Max(i, k), db)
    ensures var o := UpFrom(sql, ms[i..known], Rows(ms[..k]), db, fates);
            && (o.error.None? <==> forall l :: Max(i, k) <= l < known ==> Applies(sql, ms, empty, l, fates))
            && (o.error.Some? ==>
                  var l := Max(i, k) + o.count;
                  && l < known && !Applies(sql, ms, empty, l, fates)
                  && (forall j :: Max(i, k) <= j < l ==> Applies(sql, ms, empty, j, fates))
                  && o.error.value ==
                       if Built(sql, ms[..l + 1], empty).Some? && fates(ms[l].version) == CommitsUnheard
                       then Unheard(ms[l].version) else Aborted(ms[l].version))
    decreases known - i
  {
    hide At, Rows, ApplyOne, UpFrom, Ascending, Applies, Built;
    var seen := Rows(ms[..k]);
    UpUnfolds(sql, ms, i, known, seen, db, fates);
    if i < known {
      InPrefix(ms, k, i);
      if i < k {
        UpFromSucceedsWhen(sql, ms, empty, known, i + 1, k, db, fates);
      } else {
        OneUp(sql, ms, empty, i, db, fates(ms[i].version));
        OneUpSucceedsWhen(sql, ms, empty, i, db, fates);
        var one := ApplyOne(sql, db, ms[i], true, fates(ms[i].version));
        if one.error.None? {
          UpFromSucceedsWhen(sql, ms, empty, known, i + 1, k, one.db, fates);
        }
      }
    }
  }

  /** Up succeeds exactly when every missing migration applies, and then has applied them all. */
  lemma UpSucceedsWhen<S(!new)>(
      sql: Sql<S>, ms: seq<Migration>, empty: S, known: nat, k: nat, db: Db<S>, fates: int64 -> Fate)
    requires Ascending(ms) && known <= |ms| && At(sql, ms, empty, k, db)
    ensures var o := UpFrom(sql, ms[..known], db.applied, db, fates);
            && (o.error.None? <==> forall i :: k <= i < known ==> Applies(sql, ms, empty, i, fates))
            && (o.error.None? ==> o.count == Max(known, k) - k && At(sql, ms, empty, Max(known, k), o.db))
  {
    assert ms[0..known] == ms[..known] && db.applied == Rows(ms[..k]);
    hide UpFrom, Applies, At;
    UpFromSucceedsWhen(sql, ms, empty, known, 0, k, db, fates);
    UpExtends(sql, ms, empty, known, 0, k, db, fates);
  }

  lemma {:induction false} DownFromSucceedsWhen<S(!new)>(
      sql: Sql<S>, ms: seq<Migration>, empty: S, i: nat, k: nat, db: Db<S>, n: int, fates: int64 -> Fate)
    requires Ascending(ms) && DownsInvert(sql, ms) && i <= |ms| && k <= |ms|
    requires At(sql, ms, empty, Least(i, k), db)
    ensures var o := DownFrom(sql, ms[..i], Rows(ms[..k]), db, n, fates);
            o.error.None? <==>
              forall l: nat :: Least(i, k) - n <= l < Least(i, k) ==> RollsBackWell(sql, ms, empty, l, fates)
    decreases i
  {
    hide At, Rows, ApplyOne, DownsInvert, Ascending, RollsBackWell, DownFrom;
    DownUnfolds(sql, ms, i, Rows(ms[..k]), db, n, fates);
    if i > 0 && n > 0 {
      InPrefix(ms, k, i - 1);
      if i > k {
        DownFromSucceedsWhen(sql, ms, empty, i - 1, k, db, n, fates);
      } else {
        OneDownSucceedsWhen(sql, ms, empty, i - 1, db, fates);
        if ms[i - 1].down != "" {
          OneDown(sql, ms, empty, i, db, fates(ms[i - 1].version));
          var one := ApplyOne(sql, db, ms[i - 1], false, fates(ms[i - 1].version));
          if one.error.None? {
            DownFromSucceedsWhen(sql, ms, empty, i - 1, k, one.db, n - 1, fates);
          }
        }
      }
    }
  }

  lemma DownUnfolds<S(!new)>(
      sql: Sql<S>, ms: seq<Migration>, i: nat, seen: map<int64, Row>, db: Db<S>, n: int, fates: int64 -> Fate)
    requires i <= |ms|
    ensures i == 0 || n <= 0 ==> DownFrom(sql, ms[..i], seen, db, n, fates) == Outcome(db, 0, None)
    ensures i > 0 && n > 0 && ms[i - 1].version !in seen ==>
      DownFrom(sql, ms[..i], seen, db, n, fates) == DownFrom(sql, ms[..i - 1], seen, db, n, fates)
    ensures i > 0 && n > 0 && ms[i - 1].version in seen && ms[i - 1].down == "" ==>
      DownFrom(sql, ms[..i], seen, db, n, fates).error.Some?
    ensures i > 0 && n > 0 && ms[i - 1].version in seen && ms[i - 1].down != "" ==>
      var one := ApplyOne(sql, db, ms[i - 1], false, fates(ms[i - 1].version));
      DownFrom(sql, ms[..i], seen, db, n, fates) ==
        if one.error.Some? then one else Counting(DownFrom(sql, ms[..i - 1], seen, one.db, n - 1, fates), 1)
  {
    hide ApplyOne;
    if i > 0 {
      assert ms[..i][i - 1] == ms[i - 1] && ms[..i][..i - 1] == ms[..i - 1];
    }
  }

  /** Down by n succeeds exactly when each of the newest n applied migrations can be rolled back in turn. */
  lemma DownSucceedsWhen<S(!new)>(
      sql: Sql<S>, ms: seq<Migration>, empty: S, known: nat, k: nat, db: Db<S>, n: int, fates: int64 -> Fate)
    requires Ascending(ms) && DownsInvert(sql, ms) && k <= known <= |ms| && At(sql, ms, empty, k, db)
    ensures var o := DownFrom(sql, ms[..known], db.applied, db, n, fates);
            && (o.error.None? <==> forall i: nat :: k - n <= i < k ==> RollsBackWell(sql, ms, empty, i, fates))
            && (o.error.None? ==> var m := Least(if n < 0 then 0 else n, k);
                  o.count == m && At(sql, ms, empty, k - m, o.db))
  {
    assert db.applied == Rows(ms[..k]);
    hide DownFrom, RollsBackWell, At, DownsInvert;
    DownFromSucceedsWhen(sql, ms, empty, known, k, db, n, fates);
    DownShortens(sql, ms, empty, known, k, db, n, fates);
  }

  // ---------- any sequence of runs, by programs of any age ----------

  /** One invocation, by a program that was built with the first `known` migrations. */
  datatype Run =
    | UpRun(known: nat, fates: int64 -> Fate)
    | DownRun(known: nat, n: int, fates: int64 -> Fate)

  function AfterRun<S>(sql: Sql<S>, ms: seq<Migration>, db: Db<S>, run: Run): Outcome<S>
    requires run.known <= |ms|
  {
    match run
    case UpRun(known, fates) => UpFrom(sql, ms[..known], db.applied, db, fates)
    case DownRun(known, n, fates) => DownFrom(sql, ms[..known], db.applied, db, n, fates)
  }

  function After<S>(sql: Sql<S>, ms: seq<Migration>, db: Db<S>, runs: seq<Run>): Db<S>
    requires forall run <- runs :: run.known <= |ms|
  {
    if runs == [] then db
    else AfterRun(sql, ms, After(sql, ms, db, runs[..|runs| - 1]), runs[|runs| - 1]).db
  }

  /** No program rolls back that is older than one that has migrated before it. */
  ghost predicate NoStaleDown(runs: seq<Run>) {
    forall i, j :: 0 <= i < j < |runs| && runs[i].UpRun? && runs[j].DownRun? ==> runs[i].known <= runs[j].known
  }

  /** Only programs that know so many migrations can have put the first k in force. */
  ghost predicate Reached(runs: seq<Run>, k: nat) {
    k == 0 || exists i :: 0 <= i < |runs| && runs[i].UpRun? && k <= runs[i].known
  }

  lemma RunKeepsPrefix<S(!new)>(sql: Sql<S>, ms: seq<Migration>, empty: S, k: nat, db: Db<S>, run: Run) returns (k': nat)
    requires Ascending(ms) && DownsInvert(sql, ms) && run.known <= |ms|
    requires At(sql, ms, empty, k, db) && (run.DownRun? ==> k <= run.known)
    ensures At(sql, ms, empty, k', AfterRun(sql, ms, db, run).db)
    ensures if run.UpRun? then k <= k' <= Max(run.known, k) else k' <= k
  {
    assert db.applied == Rows(ms[..k]);
    match run {
      case UpRun(known, fates) =>
        hide At, UpFrom, DownsInvert;
        assert ms[0..known] == ms[..known];
        UpExtends(sql, ms, empty, known, 0, k, db, fates);
        k' := k + Moved(AfterRun(sql, ms, db, run));
      case DownRun(known, n, fates) =>
        hide At, DownFrom, DownsInvert;
        DownShortens(sql, ms, empty, known, k, db, n, fates);
        k' := k - Moved(AfterRun(sql, ms, db, run));
    }
  }

  /**
   * From an empty database, after any sequence of Up and Down runs, each failing at any migration or
   * not at all, the migrations in force are the first k of the list for some k: in the bookkeeping
   * table and in the schema. Programs may be of different ages, as long as none rolls back that is
   * older than one that migrated before.
   */
  lemma {:induction false} AlwaysAPrefix<S(!new)>(sql: Sql<S>, ms: seq<Migration>, empty: S, runs: seq<Run>) returns (k: nat)
    requires Ascending(ms) && DownsInvert(sql, ms)
    requires (forall run <- runs :: run.known <= |ms|) && NoStaleDown(runs)
    ensures At(sql, ms, empty, k, After(sql, ms, Db(map[], empty), runs))
    ensures Reached(runs, k)
  {
    hide DownsInvert, AfterRun;
    if runs == [] {
      return 0;
    }
    hide At;
    var init, run := runs[..|runs| - 1], runs[|runs| - 1];
    assert run in runs;
    var before := AlwaysAPrefix(sql, ms, empty, init);
    k := RunKeepsPrefix(sql, ms, empty, before, After(sql, ms, Db(map[], empty), init), run);
    hide After;
    if k > 0 && !(run.UpRun? && k <= run.known) {
      var i :| 0 <= i < |init| && init[i].UpRun? && before <= init[i].known;
      assert runs[i] == init[i];
    }
  }

  /** One program with one list of migrations: any sequence of its Up and Down runs, failing anywhere. */
  lemma FixedListAlwaysAPrefix<S(!new)>(sql: Sql<S>, ms: seq<Migration>, empty: S, runs: seq<Run>) returns (k: nat)
    requires Ascending(ms) && DownsInvert(sql, ms)
    requires forall run <- runs :: run.known == |ms|
    ensures At(sql, ms, empty, k, After(sql, ms, Db(map[], empty), runs))
  {
    k := AlwaysAPrefix(sql, ms, empty, runs);
  }

  // ---------- an older program's Down ----------

  lemma {:induction false} DownRemovesNewest<S(!new)>(
      sql: Sql<S>, ms: seq<Migration>, seen: map<int64, Row>, db: Db<S>, n: int, fates: int64 -> Fate)
    requires forall m <- ms :: m.version in seen
    ensures var o := DownFrom(sql, ms, seen, db, n, fates);
            && (forall v :: v in o.db.applied ==> v in db.applied)
            && (forall v :: v in db.applied && !HasVersion(ms, v) ==> v in o.db.applied)
            && (Moved(o) == 0 ==> o.db == db)
            && (Moved(o) > 0 ==> ms != [] && ms[|ms| - 1].version !in o.db.applied)
  {
    hide ApplyOne, RowOf;
    if ms != [] && n > 0 && ms[|ms| - 1].down != "" {
      var init, m := ms[..|ms| - 1], ms[|ms| - 1];
      var one := ApplyOne(sql, db, m, false, fates(m.version));
      assert m in ms && forall x :: x in ms <==> x in init || x == m;
      OneRemoved(sql, db, m, fates(m.version));
      if one.error.None? {
        DownRemovesNewest(sql, init, seen, one.db, n - 1, fates);
      }
    }
  }

  lemma OneRemoved<S(!new)>(sql: Sql<S>, db: Db<S>, m: Migration, fate: Fate)
    ensures var o := ApplyOne(sql, db, m, false, fate);
            && Moved(o) <= 1 && (o.error.None? ==> Moved(o) == 1)
            && (Moved(o) == 0 ==> o.db == db)
            && (Moved(o) == 1 ==> o.db.applied == db.applied - {m.version})
  {
  }

  /** The program knows every migration that is applied. */
  ghost predicate KnowsAll(ms: seq<Migration>, known: nat, applied: map<int64, Row>)
    requires known <= |ms|
  {
    forall v :: v in applied ==> HasVersion(ms[..known], v)
  }

  lemma KnowsAllOfPrefix(ms: seq<Migration>, known: nat, k: nat)
    requires Ascending(ms) && k <= |ms| && known <= |ms|
    ensures KnowsAll(ms, known, Rows(ms[..k])) <==> k <= known
  {
    hide Rows;
    if k > known {
      InPrefix(ms, k, known);
      assert forall x :: x in ms[..known] ==> x.version < ms[known].version;
    } else {
      forall v | v in Rows(ms[..k]) ensures HasVersion(ms[..known], v) {
        RowsOfPrefix(ms[..k], v);
        assert forall x :: x in ms[..k] ==> x in ms[..known];
      }
    }
  }

  /** Rolling back the newest migration the program knows is not asked for, not possible, or undone. */
  predicate FirstStepFails<S>(sql: Sql<S>, ms: seq<Migration>, known: nat, schema: S, n: int, fates: int64 -> Fate)
    requires known <= |ms|
  {
    known == 0 || n <= 0 || ms[known - 1].down == "" || sql(ms[known - 1].down, schema).None?
    || fates(ms[known - 1].version).RollsBack?
  }

  lemma NothingMovesWhen<S(!new)>(
      sql: Sql<S>, ms: seq<Migration>, known: nat, seen: map<int64, Row>, db: Db<S>, n: int, fates: int64 -> Fate)
    requires known <= |ms| && forall m <- ms[..known] :: m.version in seen
    ensures Moved(DownFrom(sql, ms[..known], seen, db, n, fates)) == 0 <==>
      FirstStepFails(sql, ms, known, db.schema, n, fates)
  {
    if known > 0 {
      assert ms[..known][known - 1] == ms[known - 1] && ms[known - 1] in ms[..known];
    }
  }

  /**
   * When Down leaves a prefix applied: if and only if its program knows all that is applied, or the
   * first rollback it would make does not happen.
   */
  lemma DownKeepsPrefixWhen<S(!new)>(
      sql: Sql<S>, ms: seq<Migration>, empty: S, k: nat, db: Db<S>, known: nat, n: int, fates: int64 -> Fate)
    requires Ascending(ms) && DownsInvert(sql, ms) && known <= |ms| && At(sql, ms, empty, k, db)
    ensures var o := DownFrom(sql, ms[..known], db.applied, db, n, fates);
            (exists j: nat :: j <= |ms| && o.db.applied == Rows(ms[..j])) <==>
              KnowsAll(ms, known, db.applied) || FirstStepFails(sql, ms, known, db.schema, n, fates)
  {
    var o := DownFrom(sql, ms[..known], db.applied, db, n, fates);
    hide DownFrom, DownsInvert, Built, Rows, KnowsAll, FirstStepFails;
    KnowsAllOfPrefix(ms, known, k);
    if k <= known {
      DownShortens(sql, ms, empty, known, k, db, n, fates);
      assert o.db.applied == Rows(ms[..k - Moved(o)]);
    } else {
      forall m | m in ms[..known] ensures m.version in db.applied {
        var i :| 0 <= i < known && ms[i] == m;
        InPrefix(ms, k, i);
      }
      DownRemovesNewest(sql, ms[..known], db.applied, db, n, fates);
      NothingMovesWhen(sql, ms, known, db.applied, db, n, fates);
      InPrefix(ms, k, known);
      assert !HasVersion(ms[..known], ms[known].version);
      if Moved(o) > 0 {
        forall j: nat | j <= |ms| ensures o.db.applied != Rows(ms[..j]) {
          InPrefix(ms, j, known);
          InPrefix(ms, j, known - 1);
        }
      }
    }
  }

  /** A database whose schema is a number, and whose SQL adds or takes one. */
  function CountingSql(body: string, schema: int): Option<int> {
    if body == "up" then Some(schema + 1) else Some(schema - 1)
  }

  function NoFault(v: int64): Fate {
    Commits
  }

  /** The gap at an input: two migrations in force, and Down 1 by a program that knows only the first. */
  lemma OldProgramLeavesGap() returns (ms: seq<Migration>, db: Db<int>)
    ensures Ascending(ms) && |ms| == 2 && DownsInvert(CountingSql, ms) && At(CountingSql, ms, 0, 2, db)
    ensures var o := DownFrom(CountingSql, ms[..1], db.applied, db, 1, NoFault);
            && o.error.None? && o.count == 1
            && o.db.applied.Keys == {ms[1].version}
            && forall j: nat :: j <= |ms| ==> o.db.applied != Rows(ms[..j])
  {
    var a, b := Migration(1, "a", "up", "down", "1"), Migration(2, "b", "up", "down", "2");
    ms := [a, b];
    assert ms[..2] == ms && ms[..1] == [a] && [a][..0] == [] && ms[..0] == [];
    db := Db(map[1 := RowOf(a), 2 := RowOf(b)], 2);
    assert Rows([a]) == map[1 := RowOf(a)];
    assert Rows(ms) == Rows([a])[2 := RowOf(b)] == db.applied;
    assert Built(CountingSql, [a], 0) == Some(1);
    var one := ApplyOne(CountingSql, db, a, false, Commits);
    assert one == Outcome(Db(map[2 := RowOf(b)], 1), 1, None);
    assert [a][|[a]| - 1] == a && [a][..|[a]| - 1] == [];
    var o := DownFrom(CountingSql, [a], db.applied, db, 1, NoFault);
    assert o == Counting(DownFrom(CountingSql, [], db.applied, one.db, 0, NoFault), 1) == one;
    forall j: nat | j <= |ms| ensures o.db.applied != Rows(ms[..j]) {
      assert j == 0 || j == 1 || j == 2;
      assert 2 in o.db.applied && 1 !in o.db.applied;
    }
  }

  // ---------- round trips ----------

  /** A successful Up applies exactly what was missing, and records every migration with its checksum. */
  lemma UpCompletes<S(!new)>(sql: Sql<S>, ms: seq<Migration>, empty: S, k: nat, db: Db<S>, fates: int64 -> Fate)
    requires Ascending(ms) && At(sql, ms, empty, k, db)
    ensures var o := UpFrom(sql, ms, db.applied, db, fates);
            && (o.error.None? ==> At(sql, ms, empty, |ms|, o.db) && o.count == |ms| - k)
            && (o.error.None? ==> forall i :: 0 <= i < |ms| ==>
                  ms[i].version in o.db.applied && o.db.applied[ms[i].version] == RowOf(ms[i])
                  && o.db.applied[ms[i].version].name == ms[i].name
                  && o.db.applied[ms[i].version].checksum == ms[i].checksum)
  {
    assert ms[0..|ms|] == ms && ms[..|ms|] == ms;
    UpExtends(sql, ms, empty, |ms|, 0, k, db, fates);
    hide UpFrom, Rows;
    forall i | 0 <= i < |ms| ensures ms[i].version in Rows(ms) && Rows(ms)[ms[i].version] == RowOf(ms[i]) {
      RowAt(ms, i);
    }
  }

  lemma SecondUpDoesNothing<S(!new)>(
      sql: Sql<S>, ms: seq<Migration>, empty: S, k: nat, db: Db<S>, fates: int64 -> Fate, again: int64 -> Fate)
    requires Ascending(ms) && At(sql, ms, empty, k, db)
    ensures var o := UpFrom(sql, ms, db.applied, db, fates);
            o.error.None? ==> UpFrom(sql, ms, o.db.applied, o.db, again) == Outcome(o.db, 0, None)
  {
    UpCompletes(sql, ms, empty, k, db, fates);
    var o := UpFrom(sql, ms, db.applied, db, fates);
    hide UpFrom, Rows;
    if o.error.None? {
      NothingToDo(sql, ms, 0, o.db, again);
      assert ms[0..] == ms;
    }
  }

  lemma {:induction false} NothingToDo<S(!new)>(sql: Sql<S>, ms: seq<Migration>, i: nat, db: Db<S>, fates: int64 -> Fate)
    requires i <= |ms|
    requires forall j :: i <= j < |ms| ==> ms[j].version in db.applied && db.applied[ms[j].version] == RowOf(ms[j])
    ensures UpFrom(sql, ms[i..], db.applied, db, fates) == Outcome(db, 0, None)
    decreases |ms| - i
  {
    if i < |ms| {
      assert ms[i..][1..] == ms[i + 1..];
      NothingToDo(sql, ms, i + 1, db, fates);
    }
  }

  /** Rolling back and migrating again restores the bookkeeping and the schema. */
  lemma DownThenUpRestores<S(!new)>(
      sql: Sql<S>, ms: seq<Migration>, empty: S, db: Db<S>, n: int, fates: int64 -> Fate, again: int64 -> Fate)
    requires Ascending(ms) && DownsInvert(sql, ms) && At(sql, ms, empty, |ms|, db)
    ensures var d := DownFrom(sql, ms, db.applied, db, n, fates);
            var u := UpFrom(sql, ms, d.db.applied, d.db, again);
            && (d.error.None? ==> d.count == Least(if n < 0 then 0 else n, |ms|))
            && (d.error.None? && u.error.None? ==> u.db == db && u.count == d.count)
  {
    assert ms[..|ms|] == ms;
    DownShortens(sql, ms, empty, |ms|, |ms|, db, n, fates);
    var d := DownFrom(sql, ms, db.applied, db, n, fates);
    hide UpFrom, DownFrom, DownsInvert, At;
    UpCompletes(sql, ms, empty, |ms| - Moved(d), d.db, again);
    var u := UpFrom(sql, ms, d.db.applied, d.db, again);
    if d.error.None? && u.error.None? {
      AtDetermines(sql, ms, empty, |ms|, u.db, db);
    }
  }

  /** With k migrations in force, the highest applied version is the k-th one. */
  lemma HighestIsLast(ms: seq<Migration>, k: nat, v: int64)
    requires Ascending(ms) && 0 < k <= |ms|
    requires v in Rows(ms[..k]) && forall u :: u in Rows(ms[..k]) ==> u <= v
    ensures v == ms[k - 1].version
  {
    InPrefix(ms, k, k - 1);
    RowsOfPrefix(ms[..k], v);
    assert forall x :: x in ms[..k] ==> x.version <= ms[k - 1].version;
  }

  // ---------- the checksum guard ----------

  ghost predicate Injective(sha: string -> string) {
    forall s, t :: sha(s) == sha(t) ==> s == t
  }

  /** Up with an applied migration edited refuses at the first one edited, and changes nothing. */
  lemma EditedIsRefused<S(!new)>(
      sql: Sql<S>, sha: string -> string, ms: seq<Migration>, edited: seq<Migration>, empty: S,
      k: nat, j: nat, db: Db<S>, fates: int64 -> Fate)
    requires Injective(sha) && Ascending(ms) && At(sql, ms, empty, k, db)
    requires j < k && j < |edited|
    requires forall i :: 0 <= i <= j ==> edited[i].version == ms[i].version
    requires forall i :: 0 <= i <= j ==> edited[i].checksum == sha(edited[i].up) && ms[i].checksum == sha(ms[i].up)
    requires (forall i :: 0 <= i < j ==> edited[i].up == ms[i].up) && edited[j].up != ms[j].up
    ensures UpFrom(sql, edited, db.applied, db, fates) == Outcome(db, 0, Some(Modified(ms[j].version)))
  {
    forall i | 0 <= i <= j
      ensures edited[i].version in db.applied && db.applied[edited[i].version].checksum == ms[i].checksum
    {
      InPrefix(ms, k, i);
    }
    StopsAtEdit(sql, edited, j, 0, db, fates);
    assert edited[0..] == edited;
  }

  lemma {:induction false} StopsAtEdit<S(!new)>(
      sql: Sql<S>, ms: seq<Migration>, j: nat, i: nat, db: Db<S>, fates: int64 -> Fate)
    requires i <= j < |ms|
    requires forall l :: i <= l <= j ==> ms[l].version in db.applied
    requires forall l :: i <= l <= j ==> (db.applied[ms[l].version].checksum == ms[l].checksum <==> l < j)
    ensures UpFrom(sql, ms[i..], db.applied, db, fates) == Outcome(db, 0, Some(Modified(ms[j].version)))
    decreases j - i
  {
    assert ms[i..][0] == ms[i] && ms[i..][1..] == ms[i + 1..];
    if i < j {
      StopsAtEdit(sql, ms, j, i + 1, db, fates);
    }
  }
}
