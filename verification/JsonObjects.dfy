/** Objects as maps: key order, replacement, and why one map has one list of fields. */
module JsonObjects {
  import opened Wrappers
  import opened JsonText

  lemma {:induction false} LessIrreflexive(a: string)
    ensures !Less(a, a)
  {
    if a != "" { LessIrreflexive(a[1..]); }
  }

  lemma {:induction false} LessTransitive(a: string, b: string, c: string)
    requires Less(a, b) && Less(b, c)
    ensures Less(a, c)
  {
    if a != "" && a[0] == b[0] == c[0] { LessTransitive(a[1..], b[1..], c[1..]); }
  }

  lemma {:induction false} LessTotal(a: string, b: string)
    ensures a == b || Less(a, b) || Less(b, a)
  {
    if a != "" && b != "" && a[0] == b[0] {
      LessTotal(a[1..], b[1..]);
      assert a == [a[0]] + a[1..] && b == [b[0]] + b[1..];
    }
  }

  predicate Sorted(fields: seq<Field>) {
    forall i, j :: 0 <= i < j < |fields| ==> Less(fields[i].key, fields[j].key)
  }

  /** The map an object's fields stand for. */
  function Lookup(fields: seq<Field>, key: string): Option<Json> {
    if fields == [] then None
    else if fields[0].key == key then Some(fields[0].value)
    else Lookup(fields[1..], key)
  }

  lemma {:induction false} LookupIn(fields: seq<Field>, key: string)
    requires Sorted(fields)
    ensures Lookup(fields, key).Some? ==> Field(key, Lookup(fields, key).value) in fields
    ensures forall f <- fields :: f.key == key ==> Lookup(fields, key) == Some(f.value)
  {
    if fields != [] {
      LookupIn(fields[1..], key);
      forall f | f in fields && f.key == key ensures Lookup(fields, key) == Some(f.value) {
        var i :| 0 <= i < |fields| && fields[i] == f;
        if i > 0 {
          LessIrreflexive(key);
          assert Less(fields[0].key, fields[i].key);
          assert fields[1..][i - 1] == f;
        }
      }
    }
  }

  /** Put is m[key] = value. */
  lemma {:induction false} PutLookup(fields: seq<Field>, key: string, value: Json, k: string)
    requires Sorted(fields)
    ensures Lookup(Put(fields, key, value), k) == if k == key then Some(value) else Lookup(fields, k)
  {
    if fields == [] {
    } else if key == fields[0].key || Less(key, fields[0].key) {
      var rest := if key == fields[0].key then fields[1..] else fields;
      assert ([Field(key, value)] + rest)[1..] == rest;
    } else {
      PutLookup(fields[1..], key, value, k);
      var rest := Put(fields[1..], key, value);
      assert ([fields[0]] + rest)[1..] == rest;
    }
  }

  lemma {:induction false} PutMembers(fields: seq<Field>, key: string, value: Json)
    ensures forall f <- Put(fields, key, value) :: f in fields || f == Field(key, value)
  {
    if fields != [] && key != fields[0].key && !Less(key, fields[0].key) {
      PutMembers(fields[1..], key, value);
    }
  }

  lemma {:induction false} PutSorted(fields: seq<Field>, key: string, value: Json)
    requires Sorted(fields)
    ensures Sorted(Put(fields, key, value))
  {
    if fields == [] {
    } else if key == fields[0].key {
    } else if Less(key, fields[0].key) {
      forall j | 0 <= j < |fields| ensures Less(key, fields[j].key) {
        if j > 0 { LessTransitive(key, fields[0].key, fields[j].key); }
      }
    } else {
      var rest := Put(fields[1..], key, value);
      PutSorted(fields[1..], key, value);
      PutMembers(fields[1..], key, value);
      LessTotal(key, fields[0].key);
      forall f | f in rest ensures Less(fields[0].key, f.key) {
      }
    }
  }

  /** A key beyond all others goes to the end. */
  lemma {:induction false} PutLast(fields: seq<Field>, key: string, value: Json)
    requires forall f <- fields :: Less(f.key, key)
    ensures Put(fields, key, value) == fields + [Field(key, value)]
  {
    if fields != [] {
      assert fields[0] in fields;
      LessIrreflexive(key);
      if Less(key, fields[0].key) {
        LessTransitive(key, fields[0].key, key);
      }
      PutLast(fields[1..], key, value);
      assert fields == [fields[0]] + fields[1..];
    }
  }

  /** Equal as maps is equal. */
  lemma {:induction false} SameMapSameFields(a: seq<Field>, b: seq<Field>)
    requires Sorted(a) && Sorted(b) && forall k :: Lookup(a, k) == Lookup(b, k)
    ensures a == b
  {
    if a == [] || b == [] {
      FirstFound(a);
      FirstFound(b);
    } else {
      FirstKey(a, b);
      assert Lookup(a, a[0].key) == Lookup(b, b[0].key);
      forall k ensures Lookup(a[1..], k) == Lookup(b[1..], k) {
        assert Lookup(a, k) == Lookup(b, k);
        NotTwice(a);
        NotTwice(b);
      }
      SameMapSameFields(a[1..], b[1..]);
      assert a == [a[0]] + a[1..] && b == [b[0]] + b[1..];
    }
  }

  lemma FirstFound(a: seq<Field>)
    ensures a != [] ==> Lookup(a, a[0].key) == Some(a[0].value)
  {
  }

  lemma NotTwice(a: seq<Field>)
    requires Sorted(a) && a != []
    ensures Lookup(a[1..], a[0].key) == None
  {
    LookupIn(a[1..], a[0].key);
    LessIrreflexive(a[0].key);
    forall f | f in a[1..] ensures Less(a[0].key, f.key) {
      var i :| 0 <= i < |a| - 1 && a[1..][i] == f;
      assert a[i + 1] == f;
    }
  }

  lemma FirstKey(a: seq<Field>, b: seq<Field>)
    requires Sorted(a) && Sorted(b) && a != [] && b != [] && forall k :: Lookup(a, k) == Lookup(b, k)
    ensures a[0].key == b[0].key
  {
    NotBefore(a, b);
    NotBefore(b, a);
    LessTotal(a[0].key, b[0].key);
  }

  lemma NotBefore(a: seq<Field>, b: seq<Field>)
    requires Sorted(b) && a != [] && b != [] && Lookup(b, a[0].key).Some?
    ensures !Less(a[0].key, b[0].key)
  {
    LookupIn(b, a[0].key);
    LessIrreflexive(a[0].key);
    var i :| 0 <= i < |b| && b[i].key == a[0].key;
    if Less(a[0].key, b[0].key) && i > 0 {
      LessTransitive(a[0].key, b[0].key, b[i].key);
    }
  }
}
