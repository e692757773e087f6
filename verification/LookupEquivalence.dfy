/** Which lookups mean the same: they have one normal form if and only if they differ in the order of their
    keys, in explicit defaults, and in whether a single dictionary is put into a list. */
module LookupEquivalence {
  import opened Outcomes
  import opened Strings
  import opened Lookups
  import opened LookupNormalization

  predicate IsDefault(key: string, v: Json) {
    (key == "child_type" && v == Str(ChildTypeName(Artifact))) || (key == "category" && v == Null)
  }

  ghost predicate SameField(key: string, a: Json, b: Json)
    decreases a, 3
  {
    if FormOf(key).LookupKey? then SameFilter(a, b) else a == b
  }

  ghost predicate SameDict(v: Json, w: Json)
    decreases v, 0
  {
    && v.Obj? && w.Obj?
    && (forall f :: f in v.fields ==>
         IsDefault(f.0, f.1) || exists g :: g in w.fields && g.0 == f.0 && SameField(f.0, f.1, g.1))
    && (forall g :: g in w.fields ==>
         IsDefault(g.0, g.1) || exists f :: f in v.fields && g.0 == f.0 && SameField(f.0, f.1, g.1))
  }

  ghost predicate SameElement(a: Json, b: Json)
    decreases a, 1
  {
    if a.Obj? then SameDict(a, b) else a == b
  }

  /** A dictionary is the list of just that dictionary. */
  function AsList(v: Json): seq<Json> {
    if v.Arr? then v.items else [v]
  }

  ghost predicate SameFilter(a: Json, b: Json)
    decreases a, 2
  {
    if a.Arr? then
      IsList(b) && |AsList(b)| == |a.items| && forall i :: 0 <= i < |a.items| ==> SameElement(a.items[i], AsList(b)[i])
    else if a.Obj? then IsList(b) && |AsList(b)| == 1 && SameElement(a, AsList(b)[0])
    else a == b
  }

  predicate IsList(v: Json) {
    v.Arr? || v.Obj?
  }

  // ----- what a field of a normalized dictionary is -----

  lemma {:induction false} SameKey(f: (string, Json), g: (string, Json), fields: seq<(string, Json)>)
    requires DistinctKeys(fields) && f in fields && g in fields && f.0 == g.0
    ensures f == g
  {
    var i :| 0 <= i < |fields| && fields[i] == f;
    var j :| 0 <= j < |fields| && fields[j] == g;
  }

  lemma {:induction false} SamePrefixSameKey(f: (string, Json), g: (string, Json), fields: seq<(string, Json)>)
    requires DistinctKeys(fields) && !HasConflict(fields) && f in fields && g in fields
    requires MatcherPrefix(f.0) == MatcherPrefix(g.0) && MatcherPrefix(f.0) != []
    ensures f == g
  {
    SameKey(f, g, fields);
  }

  lemma {:induction false} SameFormSameKey(k: string, l: string)
    requires FormOf(k) == FormOf(l) && !FormOf(k).Malformed? && !FormOf(k).Other?
    ensures k == l
  {
    KeyOfForm(k);
    KeyOfForm(l);
  }

  lemma {:induction false} NameField(fields: seq<(string, Json)>, d: LookupDict, f: (string, Json))
    requires DistinctKeys(fields) && !HasConflict(fields) && NameMatches(fields, d) && f in fields &&
      FormOf(f.0).NameKey?
    ensures d.nameMatcher == Some(Matcher(FormOf(f.0).kind, f.1))
  {
    var g :| g in fields && FormOf(g.0) == NameKey(d.nameMatcher.value.kind) && g.1 == d.nameMatcher.value.value;
    FormDeterminesPrefix(f.0);
    FormDeterminesPrefix(g.0);
    SamePrefixSameKey(f, g, fields);
  }

  lemma {:induction false} FilterSource(v: Json, filters: seq<(string, Filter)>, m: (string, Filter))
    returns (g: (string, Json))
    requires v.Obj? && FiltersMatch(v, filters) && m in filters
    ensures g in v.fields && FormOf(g.0) == LookupKey(m.0) && IsNormalFilter(g.1, m.1)
  {
    g :| g in v.fields && FormOf(g.0) == LookupKey(m.0) && IsNormalFilter(g.1, m.1);
  }

  lemma {:induction false} FilterTarget(v: Json, filters: seq<(string, Filter)>, f: (string, Json))
    returns (m: (string, Filter))
    requires v.Obj? && FiltersMatch(v, filters) && f in v.fields && FormOf(f.0).LookupKey?
    ensures m in filters && m.0 == FormOf(f.0).key
  {
    m :| m in filters && m.0 == FormOf(f.0).key;
  }

  lemma {:induction false} FilterField(v: Json, filters: seq<(string, Filter)>, f: (string, Json))
    returns (m: (string, Filter))
    requires v.Obj? && DistinctKeys(v.fields) && FiltersMatch(v, filters)
    requires f in v.fields && FormOf(f.0).LookupKey?
    ensures m in filters && m.0 == FormOf(f.0).key && IsNormalFilter(f.1, m.1)
  {
    m := FilterTarget(v, filters, f);
    var g := FilterSource(v, filters, m);
    SameFormSameKey(f.0, g.0);
    SameKey(f, g, v.fields);
  }

  // ----- equal normal forms come from equal lookups -----

  lemma {:induction false} PlainFieldIn(v: Json, w: Json, d: LookupDict, f: (string, Json))
    requires v.Obj? && w.Obj? && DistinctKeys(v.fields) && PlainFieldsMatch(v.fields, d) &&
      PlainFieldsMatch(w.fields, d)
    requires f in v.fields && PlainFieldOk(f.0, f.1)
    ensures IsDefault(f.0, f.1) || f in w.fields
  {
    if f.0 == "collection" {
      SameKey(f, ("collection", d.collection), v.fields);
    } else if f.0 == "child_type" {
      if g :| g in w.fields && g.0 == "child_type" {
        assert g == f;
      }
    } else if g :| g in w.fields && g.0 == "category" {
      assert g == f;
    } else {
      assert d.category == None;
    }
  }

  lemma {:induction false} MatcherFieldIn(v: Json, w: Json, d: LookupDict, f: (string, Json))
    requires v.Obj? && DistinctKeys(v.fields) && !HasConflict(v.fields) && NameMatches(v.fields, d) &&
      DataMatch(v.fields, d)
    requires w.Obj? && NameMatches(w.fields, d) && DataMatch(w.fields, d)
    requires f in v.fields && (FormOf(f.0).NameKey? || FormOf(f.0).DataKey?)
    ensures f in w.fields
  {
    if FormOf(f.0).NameKey? {
      NameField(v.fields, d, f);
      var g :| g in w.fields && FormOf(g.0) == NameKey(d.nameMatcher.value.kind) && g.1 == d.nameMatcher.value.value;
      SameFormSameKey(f.0, g.0);
    } else {
      var m := (FormOf(f.0).key, Matcher(FormOf(f.0).kind, f.1));
      assert m in d.dataMatchers;
      var g :| g in w.fields && FormOf(g.0) == DataKey(m.0, m.1.kind) && g.1 == m.1.value;
      SameFormSameKey(f.0, g.0);
    }
  }

  /** The fields that are not subordinate lookups are the same, up to defaults. */
  lemma {:induction false} FieldIn(v: Json, w: Json, d: LookupDict, f: (string, Json))
    requires ValidJson(v) && IsNormal(v, d) && IsNormal(w, d) && f in v.fields && !FormOf(f.0).LookupKey?
    ensures IsDefault(f.0, f.1) || f in w.fields
  {
    if FormOf(f.0).Other? {
      PlainFieldIn(v, w, d, f);
    } else {
      MatcherFieldIn(v, w, d, f);
    }
  }

  lemma {:induction false} FilterIn(v: Json, w: Json, d: LookupDict, f: (string, Json))
    returns (g: (string, Json), m: (string, Filter))
    requires ValidJson(v) && IsNormal(v, d) && IsNormal(w, d) && f in v.fields && FormOf(f.0).LookupKey?
    ensures g in w.fields && g.0 == f.0 && m in d.lookupFilters && IsNormalFilter(f.1, m.1) && IsNormalFilter(g.1, m.1)
  {
    m := FilterField(v, d.lookupFilters, f);
    g := FilterSource(w, d.lookupFilters, m);
    SameFormSameKey(f.0, g.0);
  }

  lemma {:induction false} SameNormalSameDict(v: Json, w: Json, d: LookupDict)
    requires ValidJson(v) && ValidJson(w) && IsNormal(v, d) && IsNormal(w, d)
    ensures SameDict(v, w)
    decreases v, 0
  {
    forall f | f in v.fields
      ensures IsDefault(f.0, f.1) || exists g :: g in w.fields && g.0 == f.0 && SameField(f.0, f.1, g.1)
    {
      if FormOf(f.0).LookupKey? {
        var g, m := FilterIn(v, w, d, f);
        SameNormalSameFilter(f.1, g.1, m.1);
        assert g in w.fields && g.0 == f.0 && SameField(f.0, f.1, g.1);
      } else {
        FieldIn(v, w, d, f);
        if !IsDefault(f.0, f.1) {
          assert f in w.fields && SameField(f.0, f.1, f.1);
        }
      }
    }
    forall g | g in w.fields
      ensures IsDefault(g.0, g.1) || exists f :: f in v.fields && g.0 == f.0 && SameField(f.0, f.1, g.1)
    {
      if FormOf(g.0).LookupKey? {
        var f, m := FilterIn(w, v, d, g);
        SameNormalSameFilter(f.1, g.1, m.1);
        assert f in v.fields && g.0 == f.0 && SameField(f.0, f.1, g.1);
      } else {
        FieldIn(w, v, d, g);
        if !IsDefault(g.0, g.1) {
          assert g in v.fields && SameField(g.0, g.1, g.1);
        }
      }
    }
  }

  lemma {:induction false} SameNormalSameElement(a: Json, b: Json, e: Element)
    requires ValidJson(a) && ValidJson(b) && IsNormalElement(a, e) && IsNormalElement(b, e)
    ensures SameElement(a, b)
    decreases a, 1
  {
    if e.Dict? {
      SameNormalSameDict(a, b, e.dict);
    }
  }

  lemma {:induction false} SameNormalSameFilter(a: Json, b: Json, f: Filter)
    requires ValidJson(a) && ValidJson(b) && IsNormalFilter(a, f) && IsNormalFilter(b, f)
    ensures SameFilter(a, b)
    decreases a, 2
  {
    if f.Multiple? {
      ListNormal(b, f.elements);
      if a.Arr? {
        forall i | 0 <= i < |a.items|
          ensures SameElement(a.items[i], AsList(b)[i])
        {
          assert a.items[i] in a.items && AsList(b)[i] in AsList(b);
          SameNormalSameElement(a.items[i], AsList(b)[i], f.elements[i]);
        }
      } else {
        SameNormalSameElement(a, AsList(b)[0], f.elements[0]);
      }
    }
  }

  lemma ListNormal(b: Json, elements: seq<Element>)
    requires ValidJson(b) && IsNormalFilter(b, Multiple(elements))
    ensures IsList(b) && |AsList(b)| == |elements|
    ensures forall i :: 0 <= i < |elements| ==> ValidJson(AsList(b)[i]) && IsNormalElement(AsList(b)[i], elements[i])
  {
  }

  // ----- equal lookups have equal normal forms -----

  lemma {:induction false} SortedIsUnique<T(!new)>(s: seq<(string, T)>, t: seq<(string, T)>)
    requires SortedByKey(s) && SortedByKey(t) && forall x :: x in s <==> x in t
    ensures s == t
  {
    if t != [] {
      FirstIsLeast(t, s);
    }
    if s != [] {
      FirstIsLeast(s, t);
      LeqAntisymmetric(s[0].0, t[0].0);
      assert s[0] == t[0] by {
        assert t[0] in s;
        var i :| 0 <= i < |s| && s[i] == t[0];
      }
      RestOfSorted(s);
      RestOfSorted(t);
      SortedIsUnique(s[1..], t[1..]);
      assert s == [s[0]] + s[1..] && t == [t[0]] + t[1..];
    }
  }

  lemma {:induction false} FirstIsLeast<T(!new)>(s: seq<(string, T)>, t: seq<(string, T)>)
    requires SortedByKey(s) && s != [] && forall x :: x in s <==> x in t
    ensures t != [] && Leq(s[0].0, t[0].0)
  {
    assert s[0] in t;
    assert t[0] in s;
    LeqTotal(s[0].0, s[0].0);
  }

  lemma {:induction false} RestOfSorted<T(!new)>(s: seq<(string, T)>)
    requires SortedByKey(s) && s != []
    ensures SortedByKey(s[1..]) && forall x :: x in s[1..] <==> x in s && x != s[0]
  {
    assert s == [s[0]] + s[1..];
  }

  /** Every field of `fields` that is not a subordinate lookup and not a default is also in `others`. */
  ghost predicate Within(fields: seq<(string, Json)>, others: seq<(string, Json)>) {
    forall f :: f in fields && !FormOf(f.0).LookupKey? && !IsDefault(f.0, f.1) ==> f in others
  }

  lemma {:induction false} SameIsWithin(v: Json, w: Json)
    requires SameDict(v, w)
    ensures Within(v.fields, w.fields) && Within(w.fields, v.fields)
  {
    forall f | f in v.fields && !FormOf(f.0).LookupKey? && !IsDefault(f.0, f.1)
      ensures f in w.fields
    {
      var g :| g in w.fields && g.0 == f.0 && SameField(f.0, f.1, g.1);
      assert g == f;
    }
    forall g | g in w.fields && !FormOf(g.0).LookupKey? && !IsDefault(g.0, g.1)
      ensures g in v.fields
    {
      var f :| f in v.fields && g.0 == f.0 && SameField(f.0, f.1, g.1);
      assert g == f;
    }
  }

  lemma {:induction false} NotDefault(key: string, v: Json)
    requires FormOf(key).NameKey? || FormOf(key).DataKey? || FormOf(key).LookupKey?
    ensures !IsDefault(key, v)
  {
    FormDeterminesPrefix(key);
    if key == "child_type" || key == "category" {
      PlainKeyIsOther(key);
    }
  }

  lemma {:induction false} SameData(v: seq<(string, Json)>, w: seq<(string, Json)>, d: LookupDict, e: LookupDict)
    requires DataMatch(v, d) && DataMatch(w, e) && Within(v, w) && Within(w, v)
    ensures d.dataMatchers == e.dataMatchers
  {
    forall m | m in d.dataMatchers
      ensures m in e.dataMatchers
    {
      DataWithin(v, w, d, e, m);
    }
    forall m | m in e.dataMatchers
      ensures m in d.dataMatchers
    {
      DataWithin(w, v, e, d, m);
    }
    SortedIsUnique(d.dataMatchers, e.dataMatchers);
  }

  lemma {:induction false} DataWithin(v: seq<(string, Json)>, w: seq<(string, Json)>, d: LookupDict, e: LookupDict,
                                      m: (string, Matcher))
    requires DataMatch(v, d) && DataMatch(w, e) && Within(v, w) && m in d.dataMatchers
    ensures m in e.dataMatchers
  {
    var f :| f in v && FormOf(f.0) == DataKey(m.0, m.1.kind) && f.1 == m.1.value;
    NotDefault(f.0, f.1);
    assert f in w;
    assert m == (FormOf(f.0).key, Matcher(FormOf(f.0).kind, f.1));
  }

  lemma {:induction false} SameName(v: seq<(string, Json)>, w: seq<(string, Json)>, d: LookupDict, e: LookupDict)
    requires DistinctKeys(v) && !HasConflict(v) && NameMatches(v, d) && DistinctKeys(w) && !HasConflict(w) &&
      NameMatches(w, e)
    requires Within(v, w) && Within(w, v)
    ensures d.nameMatcher == e.nameMatcher
  {
    if d.nameMatcher.Some? {
      NameWithin(v, w, d, e);
    } else if e.nameMatcher.Some? {
      NameWithin(w, v, e, d);
    }
  }

  lemma {:induction false} NameWithin(v: seq<(string, Json)>, w: seq<(string, Json)>, d: LookupDict, e: LookupDict)
    requires NameMatches(v, d) && DistinctKeys(w) && !HasConflict(w) && NameMatches(w, e) && Within(v, w) &&
      d.nameMatcher.Some?
    ensures d.nameMatcher == e.nameMatcher
  {
    var f :| f in v && FormOf(f.0) == NameKey(d.nameMatcher.value.kind) && f.1 == d.nameMatcher.value.value;
    NotDefault(f.0, f.1);
    NameField(w, e, f);
  }

  lemma {:induction false} SameCollection(v: seq<(string, Json)>, w: seq<(string, Json)>, d: LookupDict, e: LookupDict)
    requires PlainFieldsMatch(v, d) && PlainFieldsMatch(w, e) && DistinctKeys(w) && Within(v, w)
    ensures d.collection == e.collection
  {
    PlainKeyIsOther("collection");
    assert ("collection", d.collection) in w;
    SameKey(("collection", d.collection), ("collection", e.collection), w);
  }

  lemma {:induction false} NamesDiffer(a: ChildType, b: ChildType)
    requires ChildTypeName(a) == ChildTypeName(b)
    ensures a == b
  {
    assert ChildTypeOf(ChildTypeName(a)) == Some(a) && ChildTypeOf(ChildTypeName(b)) == Some(b);
  }

  lemma {:induction false} SameChildType(v: seq<(string, Json)>, w: seq<(string, Json)>, d: ChildType, e: ChildType)
    requires ChildTypeMatches(v, d) && ChildTypeMatches(w, e) && Within(v, w) && Within(w, v)
    ensures d == e
  {
    if d != Artifact {
      ChildTypeWithin(v, w, d, e);
    } else if e != Artifact {
      ChildTypeWithin(w, v, e, d);
    }
  }

  lemma {:induction false} ChildTypeWithin(v: seq<(string, Json)>, w: seq<(string, Json)>, d: ChildType, e: ChildType)
    requires ChildTypeMatches(v, d) && ChildTypeMatches(w, e) && Within(v, w) && d != Artifact
    ensures d == e
  {
    var f :| f in v && f.0 == "child_type";
    PlainKeyIsOther("child_type");
    if ChildTypeName(d) == ChildTypeName(Artifact) {
      NamesDiffer(d, Artifact);
    }
    assert f in w;
    NamesDiffer(d, e);
  }

  lemma {:induction false} SameCategory(v: seq<(string, Json)>, w: seq<(string, Json)>, d: Option<string>,
                                        e: Option<string>)
    requires CategoryMatches(v, d) && CategoryMatches(w, e) && Within(v, w) && Within(w, v)
    ensures d == e
  {
    if d.Some? {
      CategoryWithin(v, w, d, e);
    } else if e.Some? {
      CategoryWithin(w, v, e, d);
    }
  }

  lemma {:induction false} CategoryWithin(v: seq<(string, Json)>, w: seq<(string, Json)>, d: Option<string>,
                                          e: Option<string>)
    requires CategoryMatches(v, d) && CategoryMatches(w, e) && Within(v, w) && d.Some?
    ensures d == e
  {
    var f :| f in v && f.0 == "category";
    PlainKeyIsOther("category");
    assert f in w;
  }

  lemma {:induction false} SameOwnFields(v: Json, w: Json, d: LookupDict, e: LookupDict)
    requires ValidJson(v) && ValidJson(w) && IsNormal(v, d) && IsNormal(w, e) && SameDict(v, w)
    ensures d.collection == e.collection && d.childType == e.childType && d.category == e.category
    ensures d.nameMatcher == e.nameMatcher && d.dataMatchers == e.dataMatchers
  {
    SameIsWithin(v, w);
    SameCollection(v.fields, w.fields, d, e);
    SameChildType(v.fields, w.fields, d.childType, e.childType);
    SameCategory(v.fields, w.fields, d.category, e.category);
    SameName(v.fields, w.fields, d, e);
    SameData(v.fields, w.fields, d, e);
  }

  lemma {:induction false} FilterForth(v: Json, w: Json, d: LookupDict, e: LookupDict, m: (string, Filter))
    returns (f: (string, Json), g: (string, Json), n: (string, Filter))
    requires ValidJson(w) && IsNormal(v, d) && IsNormal(w, e) && SameDict(v, w) && m in d.lookupFilters
    ensures f in v.fields && g in w.fields && n in e.lookupFilters && n.0 == m.0
    ensures IsNormalFilter(f.1, m.1) && IsNormalFilter(g.1, n.1) && SameFilter(f.1, g.1)
  {
    f := FilterSource(v, d.lookupFilters, m);
    NotDefault(f.0, f.1);
    g :| g in w.fields && g.0 == f.0 && SameField(f.0, f.1, g.1);
    n := FilterField(w, e.lookupFilters, g);
  }

  lemma {:induction false} FilterBack(v: Json, w: Json, d: LookupDict, e: LookupDict, n: (string, Filter))
    returns (f: (string, Json), g: (string, Json), m: (string, Filter))
    requires ValidJson(v) && IsNormal(v, d) && IsNormal(w, e) && SameDict(v, w) && n in e.lookupFilters
    ensures f in v.fields && g in w.fields && m in d.lookupFilters && n.0 == m.0
    ensures IsNormalFilter(f.1, m.1) && IsNormalFilter(g.1, n.1) && SameFilter(f.1, g.1)
  {
    g := FilterSource(w, e.lookupFilters, n);
    NotDefault(g.0, g.1);
    f :| f in v.fields && g.0 == f.0 && SameField(f.0, f.1, g.1);
    m := FilterField(v, d.lookupFilters, f);
  }

  lemma {:induction false} SameDictSameNormal(v: Json, w: Json, d: LookupDict, e: LookupDict)
    requires ValidJson(v) && ValidJson(w) && IsNormal(v, d) && IsNormal(w, e) && SameDict(v, w)
    ensures d == e
    decreases v, 0, 1
  {
    SameOwnFields(v, w, d, e);
    forall m | m in d.lookupFilters
      ensures m in e.lookupFilters
    {
      var f, g, n := FilterForth(v, w, d, e, m);
      SameFilterSameNormal(f.1, g.1, m.1, n.1);
      assert m == n;
    }
    forall n | n in e.lookupFilters
      ensures n in d.lookupFilters
    {
      var f, g, m := FilterBack(v, w, d, e, n);
      SameFilterSameNormal(f.1, g.1, m.1, n.1);
      assert m == n;
    }
    assert FiltersMatch(v, d.lookupFilters) && FiltersMatch(w, e.lookupFilters);
    SortedIsUnique(d.lookupFilters, e.lookupFilters);
  }

  lemma {:induction false} SameElementSameNormal(a: Json, b: Json, x: Element, y: Element)
    requires ValidJson(a) && ValidJson(b) && IsNormalElement(a, x) && IsNormalElement(b, y) && SameElement(a, b)
    ensures x == y
    decreases a, 1
  {
    if a.Obj? {
      SameDictSameNormal(a, b, x.dict, y.dict);
    }
  }

  lemma {:induction false} SameListSameNormal(s: seq<Json>, t: seq<Json>, xs: seq<Element>, ys: seq<Element>)
    requires |s| == |t| == |xs| == |ys|
    requires forall i :: 0 <= i < |s| ==> ValidJson(s[i]) && ValidJson(t[i]) && SameElement(s[i], t[i])
    requires forall i :: 0 <= i < |s| ==> IsNormalElement(s[i], xs[i]) && IsNormalElement(t[i], ys[i])
    ensures xs == ys
    decreases s
  {
    forall i | 0 <= i < |s|
      ensures xs[i] == ys[i]
    {
      SameElementSameNormal(s[i], t[i], xs[i], ys[i]);
    }
  }

  lemma {:induction false} SameFilterSameNormal(a: Json, b: Json, x: Filter, y: Filter)
    requires ValidJson(a) && ValidJson(b) && IsNormalFilter(a, x) && IsNormalFilter(b, y) && SameFilter(a, b)
    ensures x == y
    decreases a, 2
  {
    if a.Arr? {
      ListNormal(a, x.elements);
      ListNormal(b, y.elements);
      SameListSameNormal(a.items, AsList(b), x.elements, y.elements);
    } else if a.Obj? {
      ListNormal(b, y.elements);
      SameElementSameNormal(a, AsList(b)[0], x.elements[0], y.elements[0]);
      assert x.elements == [x.elements[0]] && y.elements == [y.elements[0]];
    }
  }

  /** The normal form is canonical: two accepted dictionaries have the same one exactly when they differ only in
      the order of keys, explicit defaults and single dictionaries put into a list, at any depth. */
  lemma {:induction false} NormalFormIsCanonical(v: Json, w: Json, d: LookupDict, e: LookupDict)
    requires ValidJson(v) && ValidJson(w) && IsNormal(v, d) && IsNormal(w, e)
    ensures d == e <==> SameDict(v, w)
  {
    if d == e {
      SameNormalSameDict(v, w, d);
    }
    if SameDict(v, w) {
      SameDictSameNormal(v, w, d, e);
    }
  }
}
