/** The two secondary indexes over the content partition (`by.title` and
    `by.description`) and the queries that read them: the substring scan `filter`
    and the exact lookup `filterExact`. An index is the ascending sequence of its
    entries; each entry pairs the index key (the case-folded field of a content
    record) with the record it leads to. */
module Queries {
  import opened JsValues
  import opened Strings

  datatype IndexEntry = IndexEntry(key: string, record: Object)

  type Index = seq<IndexEntry>

  datatype Indexes = Indexes(title: Index, description: Index)

  /** `this.by[feature]`: only 'title' and 'description' have an index. */
  function IndexFor(ix: Indexes, feature: string): (r: Option<Index>)
    ensures r.Some? <==> feature == "title" || feature == "description"
    ensures feature == "title" ==> r == Some(ix.title)
    ensures feature == "description" ==> r == Some(ix.description)
  {
    if feature == "title" then Some(ix.title)
    else if feature == "description" then Some(ix.description)
    else None
  }

  /** An index holds each key once, in ascending key order. */
  predicate IndexSorted(idx: Index) {
    forall i, j :: 0 <= i < j < |idx| ==> Below(idx[i].key, idx[j].key)
  }

  /** Every entry was produced by the index's reducer: its key is the record's
      field, case-folded. */
  predicate Indexed(idx: Index, feature: string) {
    forall i :: 0 <= i < |idx| ==>
      Prop(idx[i].record, NameOf(feature)).Str? && idx[i].key == Lower(Prop(idx[i].record, NameOf(feature)).s)
  }

  /** The range scan `createValueStream({gte: lq})` visits exactly the entries whose
      key is at or above lq. */
  predicate Examined(e: IndexEntry, lq: string) {
    AtOrAbove(e.key, lq)
  }

  /** The `data` handler's test: the field is truthy and its case-folded text
      contains lq. */
  predicate Matches(e: IndexEntry, feature: string, lq: string) {
    var v := Prop(e.record, NameOf(feature));
    Truthy(v) && v.Str? && Contains(Lower(v.s), lq)
  }

  /** A truthy field that is not a string has no `toLowerCase`. */
  predicate BadField(e: IndexEntry, feature: string) {
    var v := Prop(e.record, NameOf(feature));
    Truthy(v) && !v.Str?
  }

  /** Some entry the scan visits makes the `data` handler throw. */
  predicate Faulty(idx: Index, feature: string, lq: string) {
    exists i :: 0 <= i < |idx| && Examined(idx[i], lq) && BadField(idx[i], feature)
  }

  /** The entries the scan visits and keeps, in index order. */
  function Kept(idx: Index, feature: string, lq: string): Index
    decreases |idx|
  {
    if idx == [] then []
    else
      var e := idx[|idx| - 1];
      var rest := Kept(idx[..|idx| - 1], feature, lq);
      if Examined(e, lq) && Matches(e, feature, lq) then rest + [e] else rest
  }

  function Records(es: Index): (rs: seq<Object>)
    ensures |rs| == |es|
    ensures forall i :: 0 <= i < |es| ==> rs[i] == es[i].record
  {
    seq(|es|, i requires 0 <= i < |es| => es[i].record)
  }

  /** `filter(feature, criteria)`: the checks in the order the source makes them, then
      the records of the kept entries; a visited entry with a truthy non-string
      field makes the whole query fail. */
  function FilterSpec(ix: Indexes, feature: Value, criteria: Value): (r: Result<seq<Object>>)
    ensures r.Ok? ==> feature.Str? && IndexFor(ix, feature.s).Some? && criteria.Str? && criteria.s != ""
  {
    if !feature.Str? then Err(FeatureRequired)
    else if !Truthy(criteria) then Err(CriteriaRequired)
    else if !criteria.Str? then Err(TypeError)
    else
      var lq := Lower(criteria.s);
      match IndexFor(ix, feature.s)
      case None => Err(TypeError)
      case Some(idx) =>
        if Faulty(idx, feature.s, lq) then Err(TypeError)
        else Ok(Records(Kept(idx, feature.s, lq)))
  }

  lemma RecordsSnoc(es: Index, e: IndexEntry)
    ensures Records(es + [e]) == Records(es) + [e.record]
  {
    assert |Records(es + [e])| == |Records(es) + [e.record]|;
  }

  /** One step of the scan: the next entry either makes the query fail or adds its
      record if it is visited and matches. */
  lemma ScanStep(idx: Index, i: nat, feature: string, lq: string)
    requires i < |idx| && !Faulty(idx[..i], feature, lq)
    ensures Faulty(idx[..i + 1], feature, lq) <==> Examined(idx[i], lq) && BadField(idx[i], feature)
    ensures Records(Kept(idx[..i + 1], feature, lq))
         == Records(Kept(idx[..i], feature, lq))
            + (if Examined(idx[i], lq) && Matches(idx[i], feature, lq) then [idx[i].record] else [])
  {
    var pre := idx[..i + 1];
    assert pre[..i] == idx[..i] && pre[i] == idx[i];
    RecordsSnoc(Kept(idx[..i], feature, lq), idx[i]);
    if Examined(idx[i], lq) && BadField(idx[i], feature) {
      assert Examined(pre[i], lq) && BadField(pre[i], feature);
    } else {
      forall j | 0 <= j < |pre| && Examined(pre[j], lq) ensures !BadField(pre[j], feature) {
        if j < i { assert pre[j] == idx[..i][j]; }
      }
    }
  }

  /** `filter` as the source runs it: one pass over the index, pushing every visited
      record whose field matches. */
  method Filter(ix: Indexes, feature: Value, criteria: Value) returns (r: Result<seq<Object>>)
    ensures r == FilterSpec(ix, feature, criteria)
  {
    if !feature.Str? {
      return Err(FeatureRequired);
    }
    if !Truthy(criteria) {
      return Err(CriteriaRequired);
    }
    if !criteria.Str? {
      return Err(TypeError);
    }
    var f := feature.s;
    var lq := Lower(criteria.s);
    var found := IndexFor(ix, f);
    if found.None? {
      return Err(TypeError);
    }
    var idx := found.value;
    var out: seq<Object> := [];
    var i := 0;
    while i < |idx|
      invariant 0 <= i <= |idx|
      invariant out == Records(Kept(idx[..i], f, lq))
      invariant !Faulty(idx[..i], f, lq)
    {
      var e := idx[i];
      ScanStep(idx, i, f, lq);
      if Examined(e, lq) {
        var v := Prop(e.record, NameOf(f));
        if Truthy(v) {
          if !v.Str? {
            return Err(TypeError);
          }
          if Contains(Lower(v.s), lq) {
            out := out + [e.record];
          }
        }
      }
      i := i + 1;
    }
    assert idx[..i] == idx;
    return Ok(out);
  }

  /** An entry is kept exactly when it is in the index, the scan visits it and its
      field matches. */
  lemma {:induction false} KeptMembers(idx: Index, feature: string, lq: string)
    ensures forall e :: e in Kept(idx, feature, lq) <==>
      e in idx && Examined(e, lq) && Matches(e, feature, lq)
    decreases |idx|
  {
    if idx != [] {
      var init := idx[..|idx| - 1];
      KeptMembers(init, feature, lq);
      assert idx == init + [idx[|idx| - 1]];
    }
  }

  /** Every kept entry comes from idx no earlier than the entries kept before it:
      kept entries appear in index order. */
  lemma {:induction false} KeptSorted(idx: Index, feature: string, lq: string)
    requires IndexSorted(idx)
    ensures IndexSorted(Kept(idx, feature, lq))
    decreases |idx|
  {
    if idx != [] {
      var init := idx[..|idx| - 1];
      var e := idx[|idx| - 1];
      var rest := Kept(init, feature, lq);
      assert IndexSorted(init) by {
        forall i, j | 0 <= i < j < |init| ensures Below(init[i].key, init[j].key) {
          assert init[i] == idx[i] && init[j] == idx[j];
        }
      }
      KeptSorted(init, feature, lq);
      KeptMembers(init, feature, lq);
      if Examined(e, lq) && Matches(e, feature, lq) {
        var r := rest + [e];
        forall i, j | 0 <= i < j < |r| ensures Below(r[i].key, r[j].key) {
          if j == |rest| {
            assert r[i] in init;
            var k :| 0 <= k < |init| && init[k] == r[i];
            assert idx[k] == r[i];
          } else {
            assert r[i] == rest[i] && r[j] == rest[j];
          }
        }
      }
    }
  }

  /** The records of the kept entries are exactly those of the visited, matching
      entries. */
  lemma KeptRecords(idx: Index, feature: string, lq: string)
    ensures forall o :: o in Records(Kept(idx, feature, lq)) <==>
      exists e :: e in idx && e.record == o && Examined(e, lq) && Matches(e, feature, lq)
  {
    var kept := Kept(idx, feature, lq);
    KeptMembers(idx, feature, lq);
    forall o | o in Records(kept)
      ensures exists e :: e in idx && e.record == o && Examined(e, lq) && Matches(e, feature, lq)
    {
      var i :| 0 <= i < |kept| && Records(kept)[i] == o;
      assert kept[i] in kept;
    }
    forall e | e in idx && Examined(e, lq) && Matches(e, feature, lq) ensures e.record in Records(kept) {
      assert e in kept;
      var i :| 0 <= i < |kept| && kept[i] == e;
      assert Records(kept)[i] == e.record;
    }
  }

  /** `filter` returns exactly the records of the visited entries whose field
      contains the case-folded query, and nothing is returned from an entry whose key
      sorts below it. */
  lemma FilterMembers(ix: Indexes, feature: string, q: string)
    requires IndexFor(ix, feature).Some? && q != ""
    requires !Faulty(IndexFor(ix, feature).value, feature, Lower(q))
    ensures FilterSpec(ix, Str(feature), Str(q)).Ok?
    ensures var idx, lq := IndexFor(ix, feature).value, Lower(q);
      forall o :: o in FilterSpec(ix, Str(feature), Str(q)).value <==>
        exists e :: e in idx && e.record == o && AtOrAbove(e.key, lq) && Matches(e, feature, lq)
  {
    var idx, lq := IndexFor(ix, feature).value, Lower(q);
    KeptRecords(idx, feature, lq);
    assert FilterSpec(ix, Str(feature), Str(q)) == Ok(Records(Kept(idx, feature, lq)));
  }

  /** The query fails on the first visited entry whose field is truthy but not a
      string, and only then (given a valid feature and a non-empty string query). */
  lemma FilterFailsOnBadField(ix: Indexes, feature: string, q: string)
    requires IndexFor(ix, feature).Some? && q != ""
    ensures FilterSpec(ix, Str(feature), Str(q)).Err? <==>
      exists e :: e in IndexFor(ix, feature).value && AtOrAbove(e.key, Lower(q)) && BadField(e, feature)
  {
    var idx := IndexFor(ix, feature).value;
    if e :| e in idx && AtOrAbove(e.key, Lower(q)) && BadField(e, feature) {
      var i :| 0 <= i < |idx| && idx[i] == e;
      assert Examined(idx[i], Lower(q)) && BadField(idx[i], feature);
    }
  }

  /** Over an index built by its reducer, every record whose field starts with the
      query, ignoring case, is returned: its key is at or above the case-folded query. */
  lemma FilterFindsPrefixes(ix: Indexes, feature: string, q: string, e: IndexEntry)
    requires IndexFor(ix, feature).Some? && q != ""
    requires Indexed(IndexFor(ix, feature).value, feature)
    requires !Faulty(IndexFor(ix, feature).value, feature, Lower(q))
    requires e in IndexFor(ix, feature).value
    requires Lower(q) <= Lower(Prop(e.record, NameOf(feature)).s)
    ensures FilterSpec(ix, Str(feature), Str(q)).Ok?
    ensures e.record in FilterSpec(ix, Str(feature), Str(q)).value
  {
    var idx, lq := IndexFor(ix, feature).value, Lower(q);
    var i :| 0 <= i < |idx| && idx[i] == e;
    var t := Prop(e.record, NameOf(feature)).s;
    assert e.key == Lower(t);
    PrefixAtOrAbove(lq, e.key);
    assert |lq| == |q| > 0;
    assert Contains(Lower(t), lq);
    assert Truthy(Prop(e.record, NameOf(feature)));
    FilterMembers(ix, feature, q);
  }

  /** In a sorted index the records come back in index-key order. */
  lemma FilterInIndexOrder(ix: Indexes, feature: string, q: string)
    requires IndexFor(ix, feature).Some? && q != ""
    requires IndexSorted(IndexFor(ix, feature).value)
    requires !Faulty(IndexFor(ix, feature).value, feature, Lower(q))
    ensures var kept := Kept(IndexFor(ix, feature).value, feature, Lower(q));
      && FilterSpec(ix, Str(feature), Str(q)) == Ok(Records(kept))
      && IndexSorted(kept)
  {
    KeptSorted(IndexFor(ix, feature).value, feature, Lower(q));
  }

  /** The query is case-insensitive: two queries with the same case folding give the
      same answer. */
  lemma FilterIgnoresCase(ix: Indexes, feature: Value, a: string, b: string)
    requires Lower(a) == Lower(b)
    ensures FilterSpec(ix, feature, Str(a)) == FilterSpec(ix, feature, Str(b))
  {
    assert |a| == |Lower(a)| == |b|;
  }

  /** A record whose title contains the query but whose index key sorts below it is
      not found: a title 'a demo' is missed by the query 'demo'. */
  lemma FilterSkipsKeysBelowQuery(rec: Object)
    requires Prop(rec, Title) == Str("a demo")
    ensures Contains("a demo", "demo")
    ensures FilterSpec(Indexes([IndexEntry("a demo", rec)], []), Str("title"), Str("demo")) == Ok([])
  {
    var e := IndexEntry("a demo", rec);
    assert "a demo"[1..][1..] == "demo";
    assert Lower("demo") == "demo";
    assert Below("a demo", "demo") by { assert 'a' < 'd'; }
    BelowAsymmetric("a demo", "demo");
    assert !Examined(e, "demo");
    assert [e][..0] == [];
    assert Kept([e], "title", "demo") == [];
    assert !Faulty([e], "title", "demo");
  }

  /** `db.get(key)` on an index: the record of the entry stored under key. */
  function Lookup(idx: Index, key: string): (r: Option<Object>)
    ensures r.None? <==> forall i :: 0 <= i < |idx| ==> idx[i].key != key
    decreases |idx|
  {
    if idx == [] then None
    else if idx[0].key == key then Some(idx[0].record)
    else
      var r := Lookup(idx[1..], key);
      assert forall i :: 1 <= i < |idx| ==> idx[i] == idx[1..][i - 1];
      r
  }

  /** In a sorted index a stored key leads to its own entry's record. */
  lemma {:induction false} LookupStored(idx: Index, i: nat)
    requires IndexSorted(idx) && i < |idx|
    ensures Lookup(idx, idx[i].key) == Some(idx[i].record)
    decreases |idx|
  {
    if i > 0 {
      assert idx[0].key != idx[i].key by { BelowIrreflexive(idx[i].key); }
      assert IndexSorted(idx[1..]) by {
        forall a, b | 0 <= a < b < |idx[1..]| ensures Below(idx[1..][a].key, idx[1..][b].key) {
          assert idx[1..][a] == idx[a + 1] && idx[1..][b] == idx[b + 1];
        }
      }
      assert idx[1..][i - 1] == idx[i];
      LookupStored(idx[1..], i - 1);
    }
  }

  /** The lookup behind `filterExact` once its checks pass: the text of the key as
      given, the single record wrapped in a list, or the lookup's NotFound error. */
  function ExactWith(idx: Index, key: string): (r: Result<seq<Object>>)
    ensures r.Ok? <==> Lookup(idx, key).Some?
    ensures r.Ok? ==> r.value == [Lookup(idx, key).value]
    ensures r.Err? ==> r.error == NotFound(key)
  {
    match Lookup(idx, key)
    case None => Err(NotFound(key))
    case Some(o) => Ok([o])
  }

  /** `filterExact(feature, criteria)` as written: the criteria become the lookup key
      with their case kept. */
  function FilterExact(ix: Indexes, feature: Value, criteria: Value): (r: Result<seq<Object>>)
    ensures r.Ok? ==> feature.Str? && IndexFor(ix, feature.s).Some? && Truthy(criteria) && |r.value| == 1
  {
    if !feature.Str? then Err(FeatureRequired)
    else if !Truthy(criteria) then Err(CriteriaRequired)
    else
      match IndexFor(ix, feature.s)
      case None => Err(TypeError)
      case Some(idx) => ExactWith(idx, ToText(criteria).value)
  }

  /** `filterExact` with the criteria case-folded, as the index keys are. */
  function FilterExactFolded(ix: Indexes, feature: Value, criteria: Value): (r: Result<seq<Object>>)
    ensures r.Ok? ==> feature.Str? && IndexFor(ix, feature.s).Some? && Truthy(criteria) && |r.value| == 1
  {
    if !feature.Str? then Err(FeatureRequired)
    else if !Truthy(criteria) then Err(CriteriaRequired)
    else
      match IndexFor(ix, feature.s)
      case None => Err(TypeError)
      case Some(idx) => ExactWith(idx, Lower(ToText(criteria).value))
  }

  /** A failed check ends `filterExact` before any lookup; after the checks it answers
      with the one stored record or with NotFound for the criteria's text. */
  lemma FilterExactOutcomes(ix: Indexes, feature: Value, criteria: Value)
    ensures !feature.Str? ==> FilterExact(ix, feature, criteria) == Err(FeatureRequired)
    ensures feature.Str? && !Truthy(criteria) ==> FilterExact(ix, feature, criteria) == Err(CriteriaRequired)
    ensures feature.Str? && Truthy(criteria) && IndexFor(ix, feature.s).None? ==>
      FilterExact(ix, feature, criteria) == Err(TypeError)
    ensures feature.Str? && Truthy(criteria) && IndexFor(ix, feature.s).Some? ==>
      var idx, key := IndexFor(ix, feature.s).value, ToText(criteria).value;
      && (FilterExact(ix, feature, criteria).Ok? <==> exists i :: 0 <= i < |idx| && idx[i].key == key)
      && (FilterExact(ix, feature, criteria).Err? ==> FilterExact(ix, feature, criteria).error == NotFound(key))
      && (forall i :: 0 <= i < |idx| && idx[i].key == key && IndexSorted(idx) ==>
            FilterExact(ix, feature, criteria) == Ok([idx[i].record]))
  {
    if feature.Str? && Truthy(criteria) && IndexFor(ix, feature.s).Some? {
      var idx, key := IndexFor(ix, feature.s).value, ToText(criteria).value;
      forall i | 0 <= i < |idx| && idx[i].key == key && IndexSorted(idx)
        ensures FilterExact(ix, feature, criteria) == Ok([idx[i].record])
      {
        LookupStored(idx, i);
      }
    }
  }

  /** Over an index built by its reducer, `filterExact` finds nothing for criteria
      with an upper-case letter, even when a record's field folds to them: the index
      keys are case-folded and the criteria are not. */
  lemma FilterExactMissesUppercase(ix: Indexes, feature: string, q: string)
    requires IndexFor(ix, feature).Some?
    requires Indexed(IndexFor(ix, feature).value, feature)
    requires !NoUpper(q)
    ensures FilterExact(ix, Str(feature), Str(q)) == Err(NotFound(q))
  {
    var idx := IndexFor(ix, feature).value;
    assert q != "";
    forall i | 0 <= i < |idx| ensures idx[i].key != q {
      LowerHasNoUpper(Prop(idx[i].record, NameOf(feature)).s);
    }
  }

  /** The index of one record titled 'demo': `filterExact('title', 'DEMO')` as
      written fails with NotFound, the case-folded lookup finds the record. */
  lemma FilterExactDemo(rec: Object)
    requires Prop(rec, Title) == Str("demo")
    ensures FilterExact(Indexes([IndexEntry("demo", rec)], []), Str("title"), Str("DEMO")) == Err(NotFound("DEMO"))
    ensures FilterExactFolded(Indexes([IndexEntry("demo", rec)], []), Str("title"), Str("DEMO")) == Ok([rec])
  {
    var ix := Indexes([IndexEntry("demo", rec)], []);
    assert Indexed(ix.title, "title") by {
      assert Lower("demo") == "demo";
    }
    assert 'A' <= "DEMO"[3] <= 'Z';
    FilterExactMissesUppercase(ix, "title", "DEMO");
    assert Lower("DEMO") == "demo";
  }

  /** The corrected lookup does not depend on the case of the criteria:
      `filterExact('title', 'demo')` and `filterExact('title', 'DEMO')` agree. */
  lemma FilterExactFoldedIgnoresCase(ix: Indexes, feature: Value, a: string, b: string)
    requires Lower(a) == Lower(b)
    ensures FilterExactFolded(ix, feature, Str(a)) == FilterExactFolded(ix, feature, Str(b))
  {
    assert |a| == |Lower(a)| == |b|;
  }

  /** Over a sorted index built by its reducer, the corrected lookup finds the record
      whose field folds to the same text as the criteria. */
  lemma FilterExactFoldedFinds(ix: Indexes, feature: string, q: string, i: nat)
    requires IndexFor(ix, feature).Some? && q != ""
    requires IndexSorted(IndexFor(ix, feature).value) && Indexed(IndexFor(ix, feature).value, feature)
    requires i < |IndexFor(ix, feature).value|
    requires Lower(Prop(IndexFor(ix, feature).value[i].record, NameOf(feature)).s) == Lower(q)
    ensures FilterExactFolded(ix, Str(feature), Str(q)) == Ok([IndexFor(ix, feature).value[i].record])
  {
    LookupStored(IndexFor(ix, feature).value, i);
  }
}
