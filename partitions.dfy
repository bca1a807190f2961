/** One LevelDB sub-partition of the store: the entries `db.put` writes, keyed by
    a module's url, and the ascending key order in which a value stream visits
    them. The codec is an identity round-trip, so an entry keeps the record
    itself next to the type tag it was written with. */
module Partitions {
  import opened JsValues
  import opened Strings
  import opened DatJson

  /** What one `db.put(key, {type: tag, value})` leaves in the partition. */
  datatype Entry = Entry(tag: Option<AvroType>, value: Object)

  datatype Partition = Partition(entries: map<string, Entry>, order: seq<string>)

  /** Keys strictly ascending: LevelDB holds each key once, in byte order. */
  predicate StrictlySorted(keys: seq<string>) {
    forall i, j :: 0 <= i < j < |keys| ==> Below(keys[i], keys[j])
  }

  /** `order` lists exactly the stored keys, ascending. */
  ghost predicate WellFormed(p: Partition) {
    && StrictlySorted(p.order)
    && (forall k :: k in p.entries <==> k in p.order)
  }

  const Empty: Partition := Partition(map[], [])

  lemma EmptyWellFormed()
    ensures WellFormed(Empty)
  {
  }

  /** `keys` with k put in its place in the order (and left alone if present). */
  function Insert(keys: seq<string>, k: string): seq<string>
    decreases |keys|
  {
    if keys == [] then [k]
    else if Below(k, keys[0]) then [k] + keys
    else if k == keys[0] then keys
    else [keys[0]] + Insert(keys[1..], k)
  }

  lemma {:induction false} InsertMembers(keys: seq<string>, k: string)
    ensures forall x :: x in Insert(keys, k) <==> x in keys || x == k
  {
    if keys != [] && !Below(k, keys[0]) && k != keys[0] {
      InsertMembers(keys[1..], k);
      assert keys == [keys[0]] + keys[1..];
    }
  }

  lemma {:induction false} InsertSorted(keys: seq<string>, k: string)
    requires StrictlySorted(keys)
    ensures StrictlySorted(Insert(keys, k))
  {
    if keys == [] {
    } else if Below(k, keys[0]) {
      var r := [k] + keys;
      forall i, j | 0 <= i < j < |r| ensures Below(r[i], r[j]) {
        if i == 0 && j > 1 { BelowTransitive(k, keys[0], keys[j - 1]); }
      }
    } else if k == keys[0] {
    } else {
      BelowTotal(k, keys[0]);
      var rest := Insert(keys[1..], k);
      InsertSorted(keys[1..], k);
      InsertMembers(keys[1..], k);
      forall x | x in rest ensures Below(keys[0], x) {
        if x != k {
          var j :| 0 <= j < |keys[1..]| && keys[1..][j] == x;
          assert keys[j + 1] == x;
        }
      }
      var r := [keys[0]] + rest;
      forall i, j | 0 <= i < j < |r| ensures Below(r[i], r[j]) {
        if i == 0 { assert r[j] in rest; } else { assert r[i] == rest[i - 1] && r[j] == rest[j - 1]; }
      }
    }
  }

  /** A fresh key goes in between the keys below it and those above it. */
  lemma {:induction false} InsertSplits(keys: seq<string>, k: string) returns (i: nat)
    requires StrictlySorted(keys) && k !in keys
    ensures i <= |keys| && Insert(keys, k) == keys[..i] + [k] + keys[i..]
    ensures forall j :: 0 <= j < i ==> Below(keys[j], k)
    ensures forall j :: i <= j < |keys| ==> Below(k, keys[j])
  {
    if keys == [] {
      i := 0;
    } else if Below(k, keys[0]) {
      i := 0;
      forall j | 0 < j < |keys| ensures Below(k, keys[j]) {
        BelowTransitive(k, keys[0], keys[j]);
      }
    } else {
      assert k != keys[0];
      BelowTotal(k, keys[0]);
      assert k !in keys[1..] by { assert forall x :: x in keys[1..] ==> x in keys; }
      var i' := InsertSplits(keys[1..], k);
      i := i' + 1;
      assert keys[..i] == [keys[0]] + keys[1..][..i'];
      assert keys[i..] == keys[1..][i'..];
      forall j | 0 < j < i ensures Below(keys[j], k) {
        assert keys[j] == keys[1..][j - 1];
      }
      forall j | i <= j < |keys| ensures Below(k, keys[j]) {
        assert keys[j] == keys[1..][j - 1];
      }
    }
  }

  /** `db.put(key, entry)`: the entry replaces whatever was stored under key; a new
      key takes its place in the order. */
  function Put(p: Partition, key: string, e: Entry): (q: Partition)
    ensures q.entries == p.entries[key := e]
  {
    Partition(p.entries[key := e], if key in p.entries then p.order else Insert(p.order, key))
  }

  /** After a put the partition still holds each key once, in ascending order. */
  lemma PutWellFormed(p: Partition, key: string, e: Entry)
    requires WellFormed(p)
    ensures WellFormed(Put(p, key, e))
    ensures forall k :: k in Put(p, key, e).order <==> k in p.order || k == key
  {
    InsertMembers(p.order, key);
    InsertSorted(p.order, key);
  }

  /** `db.get(key)`, with the codec decoding what was encoded. */
  function Lookup(p: Partition, key: string): (r: Option<Entry>)
    ensures r.Some? <==> key in p.entries
    ensures r.Some? ==> r.value == p.entries[key]
  {
    if key in p.entries then Some(p.entries[key]) else None
  }

  /** What `db.createValueStream()` yields: the records of the entries, in key order. */
  function Values(p: Partition): (vs: seq<Object>)
    requires WellFormed(p)
    ensures |vs| == |p.order|
    ensures forall i :: 0 <= i < |p.order| ==> vs[i] == p.entries[p.order[i]].value
  {
    seq(|p.order|, i requires 0 <= i < |p.order| => p.entries[p.order[i]].value)
  }

  /** Every stored record is streamed, and nothing else is. */
  lemma ValuesMembers(p: Partition)
    requires WellFormed(p)
    ensures forall x :: x in Values(p) <==> exists k :: k in p.entries && p.entries[k].value == x
  {
    var vs := Values(p);
    forall x ensures x in vs <==> exists k :: k in p.entries && p.entries[k].value == x {
      if x in vs {
        var i :| 0 <= i < |vs| && vs[i] == x;
        assert p.order[i] in p.entries;
      }
      if k :| k in p.entries && p.entries[k].value == x {
        var i :| 0 <= i < |p.order| && p.order[i] == k;
        assert vs[i] == x;
      }
    }
  }

  /** Putting a fresh key streams exactly one more record, the new one, in its place
      between the records stored under smaller and under larger keys. */
  lemma PutFreshValues(p: Partition, key: string, e: Entry) returns (i: nat)
    requires WellFormed(p) && key !in p.entries
    ensures WellFormed(Put(p, key, e)) && i <= |Values(p)|
    ensures Values(Put(p, key, e)) == Values(p)[..i] + [e.value] + Values(p)[i..]
    ensures forall j :: 0 <= j < i ==> Below(p.order[j], key)
    ensures forall j :: i <= j < |p.order| ==> Below(key, p.order[j])
  {
    PutWellFormed(p, key, e);
    i := InsertSplits(p.order, key);
    var q := Put(p, key, e);
    assert q.order == p.order[..i] + [key] + p.order[i..];
    var vs, ws := Values(p), Values(q);
    var rhs := vs[..i] + [e.value] + vs[i..];
    assert |ws| == |rhs|;
    forall j | 0 <= j < |ws| ensures ws[j] == rhs[j] {
      if j < i {
        assert q.order[j] == p.order[j];
      } else if j > i {
        assert q.order[j] == p.order[j - 1];
      }
    }
  }

  /** Re-putting a stored key with a new entry keeps the order and replaces that one
      record in place. */
  lemma PutStoredValues(p: Partition, key: string, e: Entry) returns (i: nat)
    requires WellFormed(p) && key in p.entries
    ensures WellFormed(Put(p, key, e)) && i < |Values(p)| && p.order[i] == key
    ensures Values(Put(p, key, e)) == Values(p)[i := e.value]
  {
    PutWellFormed(p, key, e);
    i :| 0 <= i < |p.order| && p.order[i] == key;
    var q := Put(p, key, e);
    forall j | 0 <= j < |p.order| ensures Values(q)[j] == Values(p)[i := e.value][j] {
      if j != i {
        assert p.order[j] != key by {
          if i < j { BelowIrreflexive(key); } else { BelowIrreflexive(key); }
        }
      }
    }
  }
}
