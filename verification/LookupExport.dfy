/** The way back from the normal form of a lookup to its surface syntax. */
module LookupExport {
  import opened Outcomes
  import opened Lookups
  import opened LookupNormalization
  import opened LookupEquivalence

  // ----- what can be exported -----

  /** These forms are those of the keys they are written as. */
  ghost predicate Writable(form: Form) {
    !form.Malformed? && !form.Other? && FormOf(KeyOf(form)) == form
  }

  ghost predicate DataWellFormed(data: seq<(string, Matcher)>) {
    SortedByKey(data) && forall m :: m in data ==> Writable(DataKey(m.0, m.1.kind)) && ValidJson(m.1.value)
  }

  ghost predicate FiltersWellFormed(d: LookupDict)
    decreases d, 0
  {
    SortedByKey(d.lookupFilters) &&
      forall m :: m in d.lookupFilters ==> Writable(LookupKey(m.0)) && FilterWellFormed(m.1)
  }

  ghost predicate WellFormed(d: LookupDict)
    decreases d, 1
  {
    && IsScalar(d.collection)
    && (d.nameMatcher.Some? ==> ValidJson(d.nameMatcher.value.value))
    && DataWellFormed(d.dataMatchers)
    && FiltersWellFormed(d)
  }

  ghost predicate ElementWellFormed(e: Element)
    decreases e
  {
    match e
    case Plain(value) => IsScalar(value)
    case Dict(d) => WellFormed(d)
  }

  ghost predicate FilterWellFormed(f: Filter)
    decreases f
  {
    match f
    case Single(value) => IsScalar(value)
    case Multiple(elements) => forall e :: e in elements ==> ElementWellFormed(e)
  }

  // ----- exporting -----

  function NameFields(name: Option<Matcher>): seq<(string, Json)> {
    if name.None? then [] else [(KeyOf(NameKey(name.value.kind)), name.value.value)]
  }

  function ChildTypeFields(childType: ChildType): seq<(string, Json)> {
    if childType == Artifact then [] else [("child_type", Str(ChildTypeName(childType)))]
  }

  function CategoryFields(category: Option<string>): seq<(string, Json)> {
    if category.None? then [] else [("category", Str(category.value))]
  }

  function PlainFields(d: LookupDict): seq<(string, Json)> {
    [("collection", d.collection)] + ChildTypeFields(d.childType) + CategoryFields(d.category)
  }

  function DataFields(data: seq<(string, Matcher)>): (fields: seq<(string, Json)>)
    ensures |fields| == |data|
    ensures forall i :: 0 <= i < |data| ==> fields[i] == (KeyOf(DataKey(data[i].0, data[i].1.kind)), data[i].1.value)
  {
    if data == [] then []
    else
      var n := |data| - 1;
      DataFields(data[..n]) + [(KeyOf(DataKey(data[n].0, data[n].1.kind)), data[n].1.value)]
  }

  /** The subordinate lookups up to the `n`th. */
  function FilterFields(d: LookupDict, n: nat): (fields: seq<(string, Json)>)
    requires n <= |d.lookupFilters|
    ensures |fields| == n
    ensures forall i :: 0 <= i < n ==>
      fields[i] == (KeyOf(LookupKey(d.lookupFilters[i].0)), ExportFilter(d.lookupFilters[i].1))
    decreases d, n
  {
    if n == 0 then []
    else FilterFields(d, n - 1) + [(KeyOf(LookupKey(d.lookupFilters[n - 1].0)), ExportFilter(d.lookupFilters[n - 1].1))]
  }

  function ExportDict(d: LookupDict): Json
    decreases d, |d.lookupFilters| + 1
  {
    Obj(PlainFields(d) + NameFields(d.nameMatcher) + DataFields(d.dataMatchers) + FilterFields(d, |d.lookupFilters|))
  }

  function ExportElement(e: Element): Json
    decreases e
  {
    match e
    case Plain(value) => value
    case Dict(d) => ExportDict(d)
  }

  function ExportElements(elements: seq<Element>): (items: seq<Json>)
    ensures |items| == |elements|
    ensures forall i :: 0 <= i < |elements| ==> items[i] == ExportElement(elements[i])
    decreases elements
  {
    if elements == [] then []
    else ExportElements(elements[..|elements| - 1]) + [ExportElement(elements[|elements| - 1])]
  }

  /** A list of one dictionary is exported as that dictionary. */
  function ExportFilter(f: Filter): Json
    decreases f
  {
    match f
    case Single(value) => value
    case Multiple(elements) =>
      if |elements| == 1 && elements[0].Dict? then ExportDict(elements[0].dict) else Arr(ExportElements(elements))
  }

  // ----- the exported keys are distinct -----

  /** Fields with keys of different kinds. */
  function Tag(key: string): int {
    var form := FormOf(key);
    if form.NameKey? then 1 else if form.DataKey? then 2 else if form.LookupKey? then 3 else 0
  }

  ghost predicate AllTagged(fields: seq<(string, Json)>, tag: int) {
    forall f :: f in fields ==> Tag(f.0) == tag
  }

  lemma {:induction false} DistinctParts(a: seq<(string, Json)>, b: seq<(string, Json)>)
    requires DistinctKeys(a) && DistinctKeys(b) && forall f, g :: f in a && g in b ==> f.0 != g.0
    ensures DistinctKeys(a + b)
  {
    forall i, j | 0 <= i < j < |a + b|
      ensures (a + b)[i].0 != (a + b)[j].0
    {
      if i < |a| <= j {
        assert a[i] in a && b[j - |a|] in b;
      }
    }
  }

  /** At most one field, with this key. */
  ghost predicate OnlyKey(fields: seq<(string, Json)>, key: string) {
    |fields| <= 1 && forall f :: f in fields ==> f.0 == key
  }

  lemma {:induction false} ThreeKeys(a: seq<(string, Json)>, b: seq<(string, Json)>, c: seq<(string, Json)>, x: string,
                                     y: string, z: string)
    requires OnlyKey(a, x) && OnlyKey(b, y) && OnlyKey(c, z) && x != y && x != z && y != z
    requires Tag(x) == Tag(y) == Tag(z) == 0
    ensures AllTagged(a + b + c, 0) && DistinctKeys(a + b + c)
  {
    DistinctParts(a, b);
    DistinctParts(a + b, c);
  }

  lemma OnlyPlainKeys(d: LookupDict, x: string, y: string, z: string)
    requires x == "collection" && y == "child_type" && z == "category"
    ensures OnlyKey([("collection", d.collection)], x)
    ensures OnlyKey(ChildTypeFields(d.childType), y) && OnlyKey(CategoryFields(d.category), z)
  {
  }

  lemma {:induction false} PlainFieldsTagged(d: LookupDict)
    ensures AllTagged(PlainFields(d), 0) && DistinctKeys(PlainFields(d))
  {
    var x, y, z := PlainKeys();
    OnlyPlainKeys(d, x, y, z);
    ThreeKeys([("collection", d.collection)], ChildTypeFields(d.childType), CategoryFields(d.category), x, y, z);
  }

  lemma {:induction false} PlainKeyTag(key: string)
    requires key in {"collection", "child_type", "category"}
    ensures Tag(key) == 0
  {
    PlainKeyIsOther(key);
    FormDeterminesPrefix(key);
  }

  lemma {:induction false} PlainKeys() returns (x: string, y: string, z: string)
    ensures x == "collection" && y == "child_type" && z == "category"
    ensures Tag(x) == Tag(y) == Tag(z) == 0 && x != y && x != z && y != z
  {
    x, y, z := "collection", "child_type", "category";
    assert x[1] == 'o' && y[1] == 'h' && z[1] == 'a';
    PlainKeyTag(x);
    PlainKeyTag(y);
    PlainKeyTag(z);
  }

  lemma {:induction false} NameIsWritable(kind: Kind)
    ensures Writable(NameKey(kind))
  {
    hide SplitWords;
    if kind == Exact {
      OneWord("name");
    } else {
      assert '_' !in KindName(kind);
      TwoWords("name", KindName(kind));
      KindNameOf(kind);
    }
  }

  lemma KindNameOf(kind: Kind)
    ensures KindOf(KindName(kind)) == Some(kind) && (kind != Exact ==> KindName(kind) != "exact")
  {
  }

  lemma {:induction false} DataFieldsTagged(data: seq<(string, Matcher)>)
    requires DataWellFormed(data)
    ensures AllTagged(DataFields(data), 2) && DistinctKeys(DataFields(data))
  {
    var fields := DataFields(data);
    forall i | 0 <= i < |fields|
      ensures FormOf(fields[i].0) == DataKey(data[i].0, data[i].1.kind)
    {
      assert data[i] in data;
    }
  }

  lemma {:induction false} FilterFieldsTagged(d: LookupDict)
    requires FiltersWellFormed(d)
    ensures AllTagged(FilterFields(d, |d.lookupFilters|), 3) && DistinctKeys(FilterFields(d, |d.lookupFilters|))
  {
    var fields := FilterFields(d, |d.lookupFilters|);
    forall i | 0 <= i < |fields|
      ensures FormOf(fields[i].0) == LookupKey(d.lookupFilters[i].0)
    {
      assert d.lookupFilters[i] in d.lookupFilters;
    }
  }

  lemma {:induction false} NameFieldsTagged(name: Option<Matcher>)
    ensures AllTagged(NameFields(name), 1) && DistinctKeys(NameFields(name))
  {
    if name.Some? {
      NameIsWritable(name.value.kind);
    }
  }

  lemma {:induction false} DifferentTags(a: seq<(string, Json)>, b: seq<(string, Json)>, tag: int)
    requires DistinctKeys(a) && DistinctKeys(b) && AllTagged(b, tag) && forall f :: f in a ==> Tag(f.0) != tag
    ensures DistinctKeys(a + b)
  {
    DistinctParts(a, b);
  }

  lemma {:induction false} ExportedKeysDistinct(d: LookupDict)
    requires WellFormed(d)
    ensures DistinctKeys(ExportDict(d).fields)
  {
    PlainFieldsTagged(d);
    NameFieldsTagged(d.nameMatcher);
    DataFieldsTagged(d.dataMatchers);
    FilterFieldsTagged(d);
    var own := PlainFields(d) + NameFields(d.nameMatcher);
    DifferentTags(PlainFields(d), NameFields(d.nameMatcher), 1);
    DifferentTags(own, DataFields(d.dataMatchers), 2);
    DifferentTags(own + DataFields(d.dataMatchers), FilterFields(d, |d.lookupFilters|), 3);
  }

  // ----- an exported dictionary normalizes to where it came from -----

  /** The tag of a key tells which part of the export a field belongs to. */
  lemma {:induction false} PartOf(d: LookupDict, f: (string, Json))
    requires WellFormed(d)
    ensures f in ExportDict(d).fields && Tag(f.0) == 0 <==> f in PlainFields(d)
    ensures f in ExportDict(d).fields && Tag(f.0) == 1 <==> f in NameFields(d.nameMatcher)
    ensures f in ExportDict(d).fields && Tag(f.0) == 2 <==> f in DataFields(d.dataMatchers)
    ensures f in ExportDict(d).fields && Tag(f.0) == 3 <==> f in FilterFields(d, |d.lookupFilters|)
    ensures f in ExportDict(d).fields ==> Tag(f.0) in {0, 1, 2, 3}
  {
    PlainFieldsTagged(d);
    NameFieldsTagged(d.nameMatcher);
    DataFieldsTagged(d.dataMatchers);
    FilterFieldsTagged(d);
  }

  lemma {:induction false} NamePart(name: Option<Matcher>, f: (string, Json))
    requires f in NameFields(name)
    ensures name.Some? && FormOf(f.0) == NameKey(name.value.kind) && f.1 == name.value.value
  {
    NameIsWritable(name.value.kind);
  }

  lemma {:induction false} DataPart(data: seq<(string, Matcher)>, f: (string, Json)) returns (m: (string, Matcher))
    requires DataWellFormed(data) && f in DataFields(data)
    ensures m in data && FormOf(f.0) == DataKey(m.0, m.1.kind) && f.1 == m.1.value
    ensures f.0 == KeyOf(DataKey(m.0, m.1.kind))
  {
    var i :| 0 <= i < |data| && DataFields(data)[i] == f;
    m := data[i];
  }

  lemma {:induction false} FilterPart(d: LookupDict, f: (string, Json)) returns (m: (string, Filter))
    requires FiltersWellFormed(d) && f in FilterFields(d, |d.lookupFilters|)
    ensures m in d.lookupFilters && FormOf(f.0) == LookupKey(m.0) && f.1 == ExportFilter(m.1) &&
      f.0 == KeyOf(LookupKey(m.0))
  {
    var i :| 0 <= i < |d.lookupFilters| && FilterFields(d, |d.lookupFilters|)[i] == f;
    m := d.lookupFilters[i];
  }

  lemma {:induction false} SameItem<T(!new)>(items: seq<(string, T)>, a: (string, T), b: (string, T))
    requires SortedByKey(items) && a in items && b in items && a.0 == b.0
    ensures a == b
  {
    var i :| 0 <= i < |items| && items[i] == a;
    var j :| 0 <= j < |items| && items[j] == b;
  }

  lemma {:induction false} SamePrefixSameTag(k: string, l: string)
    requires MatcherPrefix(k) == MatcherPrefix(l) && MatcherPrefix(k) != [] && Tag(k) != 0 && Tag(l) != 0
    ensures Tag(k) == Tag(l)
    ensures FormOf(k).DataKey? || FormOf(k).LookupKey? ==> FormOf(k).key == FormOf(l).key
  {
    FormDeterminesPrefix(k);
    FormDeterminesPrefix(l);
    assert "name"[0] == 'n' && "data"[0] == 'd' && "lookup"[0] == 'l';
  }

  lemma {:induction false} PlainHasNoPrefix(d: LookupDict, f: (string, Json))
    requires f in PlainFields(d)
    ensures MatcherPrefix(f.0) == []
  {
    if f in ChildTypeFields(d.childType) {
      assert f.0 == "child_type";
    } else if f in CategoryFields(d.category) {
      assert f.0 == "category";
    } else {
      assert f.0 == "collection";
    }
    PlainKeyIsOther(f.0);
  }

  lemma {:induction false} NoConflict(d: LookupDict, f: (string, Json), g: (string, Json))
    requires WellFormed(d) && f in ExportDict(d).fields && g in ExportDict(d).fields
    requires MatcherPrefix(f.0) == MatcherPrefix(g.0) && MatcherPrefix(f.0) != []
    ensures f.0 == g.0
  {
    PartOf(d, f);
    PartOf(d, g);
    if Tag(f.0) == 0 {
      PlainHasNoPrefix(d, f);
    } else if Tag(g.0) == 0 {
      PlainHasNoPrefix(d, g);
    } else {
      SamePrefixSameTag(f.0, g.0);
      if Tag(f.0) == 2 {
        var m := DataPart(d.dataMatchers, f);
        var n := DataPart(d.dataMatchers, g);
        SameItem(d.dataMatchers, m, n);
      } else if Tag(f.0) == 3 {
        var m := FilterPart(d, f);
        var n := FilterPart(d, g);
      }
    }
  }

  lemma {:induction false} ExportHasNoConflict(d: LookupDict)
    requires WellFormed(d)
    ensures !HasConflict(ExportDict(d).fields)
  {
    var fields := ExportDict(d).fields;
    forall f, g | f in fields && g in fields && MatcherPrefix(f.0) == MatcherPrefix(g.0) && MatcherPrefix(f.0) != []
      ensures f.0 == g.0
    {
      NoConflict(d, f, g);
    }
  }

  lemma {:induction false} ExportNameMatches(d: LookupDict)
    requires WellFormed(d)
    ensures NameMatches(ExportDict(d).fields, d)
  {
    var fields := ExportDict(d).fields;
    forall f | f in fields && FormOf(f.0).NameKey?
      ensures d.nameMatcher.Some?
    {
      PartOf(d, f);
      NamePart(d.nameMatcher, f);
    }
    if d.nameMatcher.Some? {
      var f := NameFields(d.nameMatcher)[0];
      PartOf(d, f);
      NamePart(d.nameMatcher, f);
    }
  }

  lemma {:induction false} ExportDataMatch(d: LookupDict)
    requires WellFormed(d)
    ensures DataMatch(ExportDict(d).fields, d)
  {
    var fields := ExportDict(d).fields;
    forall m | m in d.dataMatchers
      ensures exists f :: f in fields && FormOf(f.0) == DataKey(m.0, m.1.kind) && f.1 == m.1.value
    {
      var i :| 0 <= i < |d.dataMatchers| && d.dataMatchers[i] == m;
      PartOf(d, DataFields(d.dataMatchers)[i]);
    }
    forall f | f in fields && FormOf(f.0).DataKey?
      ensures (FormOf(f.0).key, Matcher(FormOf(f.0).kind, f.1)) in d.dataMatchers
    {
      PartOf(d, f);
      var m := DataPart(d.dataMatchers, f);
    }
  }

  lemma {:induction false} PlainFieldByKey(d: LookupDict, f: (string, Json), key: string)
    requires WellFormed(d) && f in ExportDict(d).fields && f.0 == key && Tag(key) == 0
    ensures f in PlainFields(d)
  {
    PartOf(d, f);
  }

  lemma PlainFieldIsExported(d: LookupDict, f: (string, Json))
    requires f in PlainFields(d)
    ensures f in ExportDict(d).fields
  {
  }

  lemma {:induction false} ChildTypeByKey(d: LookupDict, f: (string, Json))
    requires f in PlainFields(d) && f.0 == "child_type"
    ensures f in ChildTypeFields(d.childType)
  {
    assert "child_type"[1] == 'h' && "collection"[1] == 'o' && "category"[1] == 'a';
  }

  lemma {:induction false} CategoryByKey(d: LookupDict, f: (string, Json))
    requires f in PlainFields(d) && f.0 == "category"
    ensures f in CategoryFields(d.category)
  {
    assert "child_type"[1] == 'h' && "collection"[1] == 'o' && "category"[1] == 'a';
  }

  lemma {:induction false} ExportChildTypeMatches(d: LookupDict)
    requires WellFormed(d)
    ensures ChildTypeMatches(ExportDict(d).fields, d.childType)
  {
    var fields := ExportDict(d).fields;
    PlainKeyTag("child_type");
    forall f | f in fields && f.0 == "child_type"
      ensures f in ChildTypeFields(d.childType)
    {
      PlainFieldByKey(d, f, "child_type");
      ChildTypeByKey(d, f);
    }
    forall f | f in ChildTypeFields(d.childType)
      ensures f in fields
    {
      PlainFieldIsExported(d, f);
    }
    ChildTypeExported(fields, d.childType);
  }

  lemma {:induction false} ExportCategoryMatches(d: LookupDict)
    requires WellFormed(d)
    ensures CategoryMatches(ExportDict(d).fields, d.category)
  {
    var fields := ExportDict(d).fields;
    PlainKeyTag("category");
    forall f | f in fields && f.0 == "category"
      ensures f in CategoryFields(d.category)
    {
      PlainFieldByKey(d, f, "category");
      CategoryByKey(d, f);
    }
    forall f | f in CategoryFields(d.category)
      ensures f in fields
    {
      PlainFieldIsExported(d, f);
    }
    CategoryExported(fields, d.category);
  }

  lemma {:induction false} ExportPlainFieldsMatch(d: LookupDict)
    requires WellFormed(d)
    ensures PlainFieldsMatch(ExportDict(d).fields, d)
  {
    ExportChildTypeMatches(d);
    ExportCategoryMatches(d);
    assert ("collection", d.collection) in PlainFields(d);
    PlainFieldIsExported(d, ("collection", d.collection));
  }

  lemma {:induction false} ChildTypeExported(fields: seq<(string, Json)>, childType: ChildType)
    requires forall f :: f in fields && f.0 == "child_type" ==> f in ChildTypeFields(childType)
    requires forall f :: f in ChildTypeFields(childType) ==> f in fields
    ensures ChildTypeMatches(fields, childType)
  {
    if childType != Artifact {
      assert ("child_type", Str(ChildTypeName(childType))) in fields;
    }
  }

  lemma {:induction false} CategoryExported(fields: seq<(string, Json)>, category: Option<string>)
    requires forall f :: f in fields && f.0 == "category" ==> f in CategoryFields(category)
    requires forall f :: f in CategoryFields(category) ==> f in fields
    ensures CategoryMatches(fields, category)
  {
    if category.Some? {
      assert ("category", Str(category.value)) in fields;
    }
  }

  lemma {:induction false} PlainFieldFine(d: LookupDict, f: (string, Json))
    requires IsScalar(d.collection) && f in PlainFields(d)
    ensures PlainFieldOk(f.0, f.1) && FormOf(f.0).Other?
  {
    if f in ChildTypeFields(d.childType) {
      ChildTypeFine(d.childType, f);
    } else if f in CategoryFields(d.category) {
      assert f.0 == "category";
    } else {
      assert f.0 == "collection";
    }
    PlainHasNoPrefix(d, f);
    FormDeterminesPrefix(f.0);
  }

  lemma {:induction false} ChildTypeFine(childType: ChildType, f: (string, Json))
    requires f in ChildTypeFields(childType)
    ensures PlainFieldOk(f.0, f.1)
  {
    assert ChildTypeOf(ChildTypeName(childType)) == Some(childType);
  }

  lemma {:induction false} ExportedKeysFine(d: LookupDict)
    requires WellFormed(d)
    ensures forall f :: f in ExportDict(d).fields ==>
      !FormOf(f.0).Malformed? && (FormOf(f.0).Other? ==> PlainFieldOk(f.0, f.1))
  {
    forall f | f in ExportDict(d).fields
      ensures !FormOf(f.0).Malformed? && (FormOf(f.0).Other? ==> PlainFieldOk(f.0, f.1))
    {
      PartOf(d, f);
      if Tag(f.0) == 0 {
        PlainFieldFine(d, f);
      }
    }
  }

  lemma {:induction false} ExportIsNormal(d: LookupDict)
    requires WellFormed(d)
    ensures IsNormal(ExportDict(d), d)
    decreases d
  {
    ExportHasNoConflict(d);
    ExportedKeysFine(d);
    ExportPlainFieldsMatch(d);
    ExportNameMatches(d);
    ExportDataMatch(d);
    forall m | m in d.lookupFilters
      ensures IsNormalFilter(ExportFilter(m.1), m.1)
    {
      ExportFilterIsNormal(m.1);
    }
    ExportFiltersMatch(d);
  }

  lemma {:induction false} FilterIsExported(d: LookupDict, m: (string, Filter)) returns (f: (string, Json))
    requires WellFormed(d) && m in d.lookupFilters
    ensures f in ExportDict(d).fields && FormOf(f.0) == LookupKey(m.0) && f.1 == ExportFilter(m.1)
  {
    var i :| 0 <= i < |d.lookupFilters| && d.lookupFilters[i] == m;
    f := FilterFields(d, |d.lookupFilters|)[i];
    PartOf(d, f);
  }

  lemma {:induction false} FilterBehind(d: LookupDict, f: (string, Json)) returns (m: (string, Filter))
    requires WellFormed(d) && f in ExportDict(d).fields && FormOf(f.0).LookupKey?
    ensures m in d.lookupFilters && m.0 == FormOf(f.0).key
  {
    PartOf(d, f);
    m := FilterPart(d, f);
  }

  lemma {:induction false} ExportFiltersMatch(d: LookupDict)
    requires WellFormed(d) && forall m :: m in d.lookupFilters ==> IsNormalFilter(ExportFilter(m.1), m.1)
    ensures FiltersMatch(ExportDict(d), d.lookupFilters)
  {
    var v := ExportDict(d);
    forall m | m in d.lookupFilters
      ensures exists f :: f in v.fields && FormOf(f.0) == LookupKey(m.0) && IsNormalFilter(f.1, m.1)
    {
      var f := FilterIsExported(d, m);
      assert f in v.fields && FormOf(f.0) == LookupKey(m.0) && IsNormalFilter(f.1, m.1);
    }
    forall f | f in v.fields && FormOf(f.0).LookupKey?
      ensures exists m :: m in d.lookupFilters && m.0 == FormOf(f.0).key
    {
      var m := FilterBehind(d, f);
    }
  }

  lemma {:induction false} ExportElementIsNormal(e: Element)
    requires ElementWellFormed(e)
    ensures IsNormalElement(ExportElement(e), e)
    decreases e
  {
    if e.Dict? {
      ExportIsNormal(e.dict);
    }
  }

  lemma {:induction false} ExportFilterIsNormal(f: Filter)
    requires FilterWellFormed(f)
    ensures IsNormalFilter(ExportFilter(f), f)
    decreases f
  {
    if f.Multiple? {
      forall i | 0 <= i < |f.elements|
        ensures IsNormalElement(ExportElement(f.elements[i]), f.elements[i])
      {
        ExportElementIsNormal(f.elements[i]);
      }
    }
  }

  lemma {:induction false} ExportIsValid(d: LookupDict)
    requires WellFormed(d)
    ensures ValidJson(ExportDict(d))
    decreases d
  {
    ExportedKeysDistinct(d);
    forall f | f in ExportDict(d).fields
      ensures ValidJson(f.1)
    {
      PartOf(d, f);
      if Tag(f.0) == 0 {
        PlainFieldFine(d, f);
      } else if Tag(f.0) == 1 {
        NamePart(d.nameMatcher, f);
      } else if Tag(f.0) == 2 {
        var m := DataPart(d.dataMatchers, f);
      } else {
        var m := FilterPart(d, f);
        ExportFilterIsValid(m.1);
      }
    }
  }

  lemma {:induction false} ExportFilterIsValid(f: Filter)
    requires FilterWellFormed(f)
    ensures ValidJson(ExportFilter(f))
    decreases f
  {
    if f.Multiple? {
      forall e | e in f.elements
        ensures ValidJson(ExportElement(e))
      {
        if e.Dict? {
          ExportIsValid(e.dict);
        }
      }
      assert forall i :: 0 <= i < |f.elements| ==> f.elements[i] in f.elements;
    }
  }

  // ----- every normal form can be exported -----

  lemma {:induction false} KeyIsWritable(key: string)
    requires !FormOf(key).Malformed? && !FormOf(key).Other?
    ensures Writable(FormOf(key))
  {
    KeyOfForm(key);
  }

  lemma {:induction false} NormalDataWellFormed(v: Json, d: LookupDict)
    requires ValidJson(v) && v.Obj? && DataMatch(v.fields, d)
    ensures DataWellFormed(d.dataMatchers)
  {
    forall m | m in d.dataMatchers
      ensures Writable(DataKey(m.0, m.1.kind)) && ValidJson(m.1.value)
    {
      var f :| f in v.fields && FormOf(f.0) == DataKey(m.0, m.1.kind) && f.1 == m.1.value;
      KeyIsWritable(f.0);
    }
  }

  lemma {:induction false} NormalIsWellFormed(v: Json, d: LookupDict)
    requires ValidJson(v) && IsNormal(v, d)
    ensures WellFormed(d)
    decreases v, 0
  {
    if d.nameMatcher.Some? {
      var f :| f in v.fields && FormOf(f.0) == NameKey(d.nameMatcher.value.kind) && f.1 == d.nameMatcher.value.value;
      assert ValidJson(f.1);
    }
    NormalDataWellFormed(v, d);
    forall m | m in d.lookupFilters
      ensures Writable(LookupKey(m.0)) && FilterWellFormed(m.1)
    {
      var f := FilterSource(v, d.lookupFilters, m);
      KeyIsWritable(f.0);
      NormalFilterIsWellFormed(f.1, m.1);
    }
    assert FiltersMatch(v, d.lookupFilters);
  }

  lemma {:induction false} NormalElementIsWellFormed(v: Json, e: Element)
    requires ValidJson(v) && IsNormalElement(v, e)
    ensures ElementWellFormed(e)
    decreases v, 1
  {
    if e.Dict? {
      NormalIsWellFormed(v, e.dict);
    }
  }

  lemma {:induction false} NormalFilterIsWellFormed(v: Json, f: Filter)
    requires ValidJson(v) && IsNormalFilter(v, f)
    ensures FilterWellFormed(f)
    decreases v, 2
  {
    if f.Multiple? {
      ListNormal(v, f.elements);
      forall i | 0 <= i < |f.elements|
        ensures ElementWellFormed(f.elements[i])
      {
        assert v.Arr? ==> v.items[i] in v.items;
        NormalElementIsWellFormed(AsList(v)[i], f.elements[i]);
      }
    }
  }

  // ----- the round trip -----

  lemma {:induction false} NormalIsAccepted(v: Json, d: LookupDict)
    requires ValidJson(v) && IsNormal(v, d)
    ensures AcceptsDict(v)
    decreases v, 0
  {
    forall f | f in v.fields
      ensures FieldOk(f.0, f.1)
    {
      if FormOf(f.0).LookupKey? {
        var m := FilterField(v, d.lookupFilters, f);
        NormalFilterIsAccepted(f.1, m.1);
      }
    }
    assert ("collection", d.collection) in v.fields;
  }

  lemma {:induction false} NormalElementIsAccepted(v: Json, e: Element)
    requires ValidJson(v) && IsNormalElement(v, e)
    ensures AcceptsElement(v)
    decreases v, 1
  {
    if e.Dict? {
      NormalIsAccepted(v, e.dict);
    }
  }

  lemma {:induction false} NormalFilterIsAccepted(v: Json, f: Filter)
    requires ValidJson(v) && IsNormalFilter(v, f)
    ensures AcceptsFilter(v)
    decreases v, 2
  {
    if v.Obj? {
      NormalIsAccepted(v, f.elements[0].dict);
    } else if v.Arr? {
      forall i | 0 <= i < |v.items|
        ensures AcceptsElement(v.items[i])
      {
        assert v.items[i] in v.items;
        NormalElementIsAccepted(v.items[i], f.elements[i]);
      }
    }
  }

  /** Normalizing an accepted dictionary and exporting the result gives the dictionary back, up to key order,
      explicit defaults and one-element lists. The export is accepted, and its normal form is the same one and
      no other. */
  lemma {:induction false} RoundTrip(v: Json, d: LookupDict)
    requires ValidJson(v) && IsNormal(v, d)
    ensures ValidJson(ExportDict(d)) && AcceptsDict(ExportDict(d)) && SameDict(v, ExportDict(d))
    ensures forall e :: IsNormal(ExportDict(d), e) <==> e == d
  {
    NormalIsWellFormed(v, d);
    ExportIsNormal(d);
    ExportIsValid(d);
    NormalIsAccepted(ExportDict(d), d);
    NormalFormIsCanonical(v, ExportDict(d), d, d);
    forall e | IsNormal(ExportDict(d), e)
      ensures e == d
    {
      NormalFormIsCanonical(v, ExportDict(d), d, e);
    }
  }

  /** The same for a lookup of several items, a dictionary or a list of lookups. */
  lemma {:induction false} MultipleRoundTrip(v: Json, elements: seq<Element>)
    requires ValidJson(v) && IsNormalFilter(v, Multiple(elements))
    ensures var w := ExportFilter(Multiple(elements));
      ValidJson(w) && AcceptsFilter(w) && SameFilter(v, w) &&
        forall f :: IsNormalFilter(w, f) <==> f == Multiple(elements)
  {
    var m := Multiple(elements);
    var w := ExportFilter(m);
    NormalFilterIsWellFormed(v, m);
    ExportFilterIsNormal(m);
    ExportFilterIsValid(m);
    NormalFilterIsAccepted(w, m);
    SameNormalSameFilter(v, w, m);
    SameNormalSameFilter(w, w, m);
    forall f | IsNormalFilter(w, f)
      ensures f == m
    {
      SameFilterSameNormal(w, w, f, m);
    }
  }

  // ----- exporting step by step -----

  /** Assignment to a key of a dictionary that keeps the order of insertion. */
  function Put(fields: seq<(string, Json)>, key: string, v: Json): seq<(string, Json)> {
    if fields == [] then [(key, v)]
    else if fields[0].0 == key then [(key, v)] + fields[1..]
    else [fields[0]] + Put(fields[1..], key, v)
  }

  lemma {:induction false} PutAppends(fields: seq<(string, Json)>, key: string, v: Json)
    requires forall f :: f in fields ==> f.0 != key
    ensures Put(fields, key, v) == fields + [(key, v)]
  {
    if fields != [] {
      assert fields == [fields[0]] + fields[1..];
      PutAppends(fields[1..], key, v);
    }
  }

  /** As long as the keys are distinct nothing is overwritten. */
  lemma {:induction false} PutNext(fields: seq<(string, Json)>, key: string, v: Json, rest: seq<(string, Json)>)
    requires DistinctKeys(fields + [(key, v)] + rest)
    ensures Put(fields, key, v) == fields + [(key, v)]
  {
    var all := fields + [(key, v)] + rest;
    assert all[|fields|].0 == key;
    assert forall i :: 0 <= i < |fields| ==> all[i] == fields[i];
    PutAppends(fields, key, v);
  }

  lemma {:induction false} PutAt(fields: seq<(string, Json)>, all: seq<(string, Json)>, i: nat)
    requires DistinctKeys(fields + all) && i < |all|
    ensures Put(fields + all[..i], all[i].0, all[i].1) == fields + all[..i + 1]
  {
    assert fields + all == (fields + all[..i]) + [all[i]] + all[i + 1..];
    PutNext(fields + all[..i], all[i].0, all[i].1, all[i + 1..]);
  }

  lemma {:induction false} DistinctPart(a: seq<(string, Json)>, b: seq<(string, Json)>)
    requires DistinctKeys(a + b)
    ensures DistinctKeys(a)
  {
    assert forall i :: 0 <= i < |a| ==> (a + b)[i] == a[i];
  }

  method ExportPlain(d: LookupDict) returns (value: seq<(string, Json)>)
    requires DistinctKeys(PlainFields(d))
    ensures value == PlainFields(d)
  {
    value := [("collection", d.collection)];
    DistinctPart(value + ChildTypeFields(d.childType), CategoryFields(d.category));
    if d.childType != Artifact {
      PutNext(value, "child_type", Str(ChildTypeName(d.childType)), []);
      value := Put(value, "child_type", Str(ChildTypeName(d.childType)));
    }
    if d.category.Some? {
      PutNext(value, "category", Str(d.category.value), []);
      value := Put(value, "category", Str(d.category.value));
    }
  }

  method ExportName(name: Option<Matcher>, fields: seq<(string, Json)>) returns (value: seq<(string, Json)>)
    requires DistinctKeys(fields + NameFields(name))
    ensures value == fields + NameFields(name)
  {
    value := fields;
    if name.Some? {
      var matcher := name.value;
      var key := if matcher.kind == Exact then "name" else "name" + SEP + KindName(matcher.kind);
      PutNext(value, key, matcher.value, []);
      value := Put(value, key, matcher.value);
    }
  }

  method ExportData(data: seq<(string, Matcher)>, fields: seq<(string, Json)>) returns (value: seq<(string, Json)>)
    requires DistinctKeys(fields + DataFields(data))
    ensures value == fields + DataFields(data)
  {
    value := fields;
    for i := 0 to |data|
      invariant value == fields + DataFields(data)[..i]
    {
      var (x, matcher) := data[i];
      var key := if matcher.kind == Exact then "data" + SEP + x else "data" + SEP + x + SEP + KindName(matcher.kind);
      PutAt(fields, DataFields(data), i);
      value := Put(value, key, matcher.value);
    }
  }

  method ExportFilters(d: LookupDict, fields: seq<(string, Json)>) returns (value: seq<(string, Json)>)
    requires WellFormed(d) && DistinctKeys(fields + FilterFields(d, |d.lookupFilters|))
    ensures value == fields + FilterFields(d, |d.lookupFilters|)
    decreases d, 0
  {
    ghost var all := FilterFields(d, |d.lookupFilters|);
    value := fields;
    for i := 0 to |d.lookupFilters|
      invariant value == fields + all[..i]
    {
      var (x, filter) := d.lookupFilters[i];
      assert d.lookupFilters[i] in d.lookupFilters;
      var filterValue := ExportFilterValue(filter);
      PutAt(fields, all, i);
      value := Put(value, "lookup" + SEP + x, filterValue);
    }
  }

  /** No key is written twice, so that the dictionary has all the fields of the export. */
  method Export(d: LookupDict) returns (v: Json)
    requires WellFormed(d)
    ensures v == ExportDict(d)
    decreases d, 1
  {
    ExportedKeysDistinct(d);
    PlainFieldsTagged(d);
    DistinctPart(PlainFields(d) + NameFields(d.nameMatcher) + DataFields(d.dataMatchers),
      FilterFields(d, |d.lookupFilters|));
    DistinctPart(PlainFields(d) + NameFields(d.nameMatcher), DataFields(d.dataMatchers));
    var value := ExportPlain(d);
    value := ExportName(d.nameMatcher, value);
    value := ExportData(d.dataMatchers, value);
    value := ExportFilters(d, value);
    v := Obj(value);
  }

  method ExportListElement(e: Element) returns (v: Json)
    requires ElementWellFormed(e)
    ensures v == ExportElement(e)
    decreases e
  {
    match e
    case Plain(value) => v := value;
    case Dict(d) => v := Export(d);
  }

  method ExportFilterValue(f: Filter) returns (v: Json)
    requires FilterWellFormed(f)
    ensures v == ExportFilter(f)
    decreases f
  {
    match f
    case Single(value) => v := value;
    case Multiple(elements) =>
      if |elements| == 1 && elements[0].Dict? {
        assert ElementWellFormed(elements[0]);
        v := Export(elements[0].dict);
      } else {
        var items := [];
        for i := 0 to |elements|
          invariant items == ExportElements(elements)[..i]
        {
          assert ElementWellFormed(elements[i]);
          var item := ExportListElement(elements[i]);
          items := items + [item];
        }
        v := Arr(items);
      }
  }
}
