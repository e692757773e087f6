/** The surface syntax of collection lookups, its normal form, and the way back. A dictionary lookup has
    keys like name__contains, data__KEY__KIND and lookup__KEY, which are split at double underscores and
    turned into matchers and subordinate lookups. */
module Lookups {
  import opened Outcomes
  import opened Strings

  /** Input as it comes from JSON or YAML; a dictionary is in insertion order. */
  datatype Json = Null | Num(n: int) | Str(s: string) | Arr(items: seq<Json>) | Obj(fields: seq<(string, Json)>)

  datatype Kind = Contains | EndsWith | Exact | StartsWith

  datatype ChildType = Bare | Artifact | ArtifactOrPromise | Collection | AnyType

  datatype Matcher = Matcher(kind: Kind, value: Json)

  datatype LookupDict = LookupDict(
    collection: Json,  // a number or a string
    childType: ChildType,
    category: Option<string>,
    nameMatcher: Option<Matcher>,
    dataMatchers: seq<(string, Matcher)>,
    lookupFilters: seq<(string, Filter)>)

  datatype Filter = Single(value: Json) | Multiple(elements: seq<Element>)

  datatype Element = Plain(value: Json) | Dict(dict: LookupDict)

  datatype Error = Conflict | Unrecognized | BadField

  // ----- names -----

  function KindName(k: Kind): string {
    match k
    case Contains => "contains"
    case EndsWith => "endswith"
    case Exact => "exact"
    case StartsWith => "startswith"
  }

  function KindOf(s: string): Option<Kind> {
    if s == "contains" then Some(Contains)
    else if s == "endswith" then Some(EndsWith)
    else if s == "exact" then Some(Exact)
    else if s == "startswith" then Some(StartsWith)
    else None
  }

  function ChildTypeName(t: ChildType): string {
    match t
    case Bare => "bare"
    case Artifact => "artifact"
    case ArtifactOrPromise => "artifact-or-promise"
    case Collection => "collection"
    case AnyType => "any"
  }

  function ChildTypeOf(s: string): Option<ChildType> {
    if s == "bare" then Some(Bare)
    else if s == "artifact" then Some(Artifact)
    else if s == "artifact-or-promise" then Some(ArtifactOrPromise)
    else if s == "collection" then Some(Collection)
    else if s == "any" then Some(AnyType)
    else None
  }

  // ----- keys -----

  const SEP := "__"

  function SplitWords(key: string): (words: seq<string>)
    ensures words != []
  {
    Split(key, SEP)
  }

  type Prefix = seq<string>

  function PrefixOfWords(words: seq<string>): Prefix
    requires words != []
  {
    if words[0] == "name" then ["name"]
    else if words[0] == "data" && |words| >= 2 then ["data", words[1]]
    else if words[0] == "lookup" && |words| == 2 then ["lookup", words[1]]
    else []
  }

  /** Keys with the same non-empty prefix may not occur together. */
  function MatcherPrefix(key: string): Prefix {
    PrefixOfWords(SplitWords(key))
  }

  /** What a key stands for. */
  datatype Form = NameKey(kind: Kind) | DataKey(key: string, kind: Kind) | LookupKey(key: string) | Malformed | Other

  function FormOfWords(words: seq<string>): Form
    requires words != []
  {
    if PrefixOfWords(words) == [] then Other
    else if words[0] == "name" then
      if |words| == 1 then NameKey(Exact)
      else if |words| == 2 && words[1] != "exact" && KindOf(words[1]).Some? then NameKey(KindOf(words[1]).value)
      else Malformed
    else if words[0] == "data" then
      if |words| == 2 then DataKey(words[1], Exact)
      else if |words| == 3 && words[2] != "exact" && KindOf(words[2]).Some?
        then DataKey(words[1], KindOf(words[2]).value)
      else Malformed
    else LookupKey(words[1])
  }

  function FormOf(key: string): Form {
    FormOfWords(SplitWords(key))
  }

  /** The key that stands for a form. */
  function KeyOf(form: Form): string
    requires !form.Malformed? && !form.Other?
  {
    match form
    case NameKey(kind) => if kind.Exact? then "name" else "name" + SEP + KindName(kind)
    case DataKey(key, kind) => if kind.Exact? then "data" + SEP + key else "data" + SEP + key + SEP + KindName(kind)
    case LookupKey(key) => "lookup" + SEP + key
  }

  lemma {:induction false} KeyOfWords(words: seq<string>)
    requires words != [] && !FormOfWords(words).Malformed? && !FormOfWords(words).Other?
    ensures KeyOf(FormOfWords(words)) == Join(words, SEP)
  {
    hide Split;
    if |words| == 2 {
      assert Join(words[1..], SEP) == words[1];
    } else if |words| == 3 {
      assert Join(words[1..][1..], SEP) == words[2];
      assert Join(words[1..], SEP) == words[1] + SEP + words[2];
      assert Join(words, SEP) == words[0] + SEP + (words[1] + SEP + words[2]);
    }
  }

  /** Splitting at the leftmost separators loses nothing: a key is determined by its form. */
  lemma {:induction false} KeyOfForm(key: string)
    requires !FormOf(key).Malformed? && !FormOf(key).Other?
    ensures KeyOf(FormOf(key)) == key
  {
    JoinOfSplit(key, SEP);
    KeyOfWords(SplitWords(key));
  }

  lemma {:induction false} SuffixOfKind(s: string, kind: Kind)
    ensures s + SEP + KindName(kind) == s +
      match kind
      case Contains => "__contains"
      case EndsWith => "__endswith"
      case Exact => "__exact"
      case StartsWith => "__startswith"
  {
    var suffix := SEP + KindName(kind);
    assert s + SEP + KindName(kind) == s + suffix;
    match kind
    case Contains => assert suffix == "__contains";
    case EndsWith => assert suffix == "__endswith";
    case Exact => assert suffix == "__exact";
    case StartsWith => assert suffix == "__startswith";
  }

  /** The keys, spelled out. */
  lemma {:induction false} KeysAre(key: string)
    requires !FormOf(key).Malformed? && !FormOf(key).Other?
    ensures
      match FormOf(key)
      case NameKey(Exact) => key == "name"
      case NameKey(Contains) => key == "name" + "__contains"
      case NameKey(StartsWith) => key == "name" + "__startswith"
      case NameKey(EndsWith) => key == "name" + "__endswith"
      case DataKey(x, Exact) => key == "data__" + x
      case DataKey(x, Contains) => key == "data__" + x + "__contains"
      case DataKey(x, StartsWith) => key == "data__" + x + "__startswith"
      case DataKey(x, EndsWith) => key == "data__" + x + "__endswith"
      case LookupKey(x) => key == "lookup__" + x
  {
    KeyOfForm(key);
    hide FormOf, KindName;
    assert "data" + SEP == "data__" && "lookup" + SEP == "lookup__";
    match FormOf(key)
    case NameKey(kind) => SuffixOfKind("name", kind);
    case DataKey(x, kind) => SuffixOfKind("data__" + x, kind);
    case LookupKey(x) =>
  }

  lemma FormDeterminesPrefix(key: string)
    ensures FormOf(key).NameKey? ==> MatcherPrefix(key) == ["name"]
    ensures FormOf(key).DataKey? ==> MatcherPrefix(key) == ["data", FormOf(key).key]
    ensures FormOf(key).LookupKey? ==> MatcherPrefix(key) == ["lookup", FormOf(key).key]
    ensures FormOf(key).Other? <==> MatcherPrefix(key) == []
  {
  }

  // ----- dictionaries -----

  predicate DistinctKeys<T(!new)>(fields: seq<(string, T)>) {
    forall i, j :: 0 <= i < j < |fields| ==> fields[i].0 != fields[j].0
  }

  /** No dictionary has a key twice. */
  ghost predicate ValidJson(v: Json) {
    match v
    case Obj(fields) => DistinctKeys(fields) && forall f :: f in fields ==> ValidJson(f.1)
    case Arr(items) => forall x :: x in items ==> ValidJson(x)
    case _ => true
  }

  predicate IsScalar(v: Json) {
    v.Num? || v.Str?
  }

  // ----- which lookups are accepted -----

  ghost predicate HasConflict(fields: seq<(string, Json)>) {
    exists f, g :: f in fields && g in fields && f.0 != g.0 &&
      MatcherPrefix(f.0) == MatcherPrefix(g.0) && MatcherPrefix(f.0) != []
  }

  predicate PlainFieldOk(key: string, v: Json) {
    || (key == "collection" && IsScalar(v))
    || (key == "child_type" && v.Str? && ChildTypeOf(v.s).Some?)
    || (key == "category" && (v.Null? || v.Str?))
  }

  ghost predicate FieldOk(key: string, v: Json)
    decreases v, 2
  {
    match FormOf(key)
    case Malformed => false
    case Other => PlainFieldOk(key, v)
    case LookupKey(_) => AcceptsFilter(v)
    case _ => true
  }

  ghost predicate AcceptsDict(v: Json)
    decreases v, 0
  {
    && v.Obj? && !HasConflict(v.fields)
    && (forall f :: f in v.fields ==> FieldOk(f.0, f.1))
    && (exists f :: f in v.fields && f.0 == "collection")
  }

  ghost predicate AcceptsElement(v: Json)
    decreases v, 1
  {
    IsScalar(v) || (v.Obj? && AcceptsDict(v))
  }

  ghost predicate AcceptsFilter(v: Json)
    decreases v, 1
  {
    match v
    case Arr(items) => forall x :: x in items ==> AcceptsElement(x)
    case Obj(_) => AcceptsDict(v)
    case _ => IsScalar(v)
  }

  // ----- normal forms -----

  ghost predicate SortedByKey<T(!new)>(s: seq<(string, T)>) {
    forall i, j :: 0 <= i < j < |s| ==> Leq(s[i].0, s[j].0) && s[i].0 != s[j].0
  }

  ghost predicate ChildTypeMatches(fields: seq<(string, Json)>, childType: ChildType) {
    && (forall f :: f in fields && f.0 == "child_type" ==> f.1 == Str(
          match childType
          case Bare => "bare"
          case Artifact => "artifact"
          case ArtifactOrPromise => "artifact-or-promise"
          case Collection => "collection"
          case AnyType => "any"))
    && ((forall f :: f in fields ==> f.0 != "child_type") ==> childType == Artifact)
  }

  function CategoryValue(category: Option<string>): Json {
    if category.Some? then Str(category.value) else Null
  }

  ghost predicate CategoryMatches(fields: seq<(string, Json)>, category: Option<string>) {
    && (forall f :: f in fields && f.0 == "category" ==> f.1 == CategoryValue(category))
    && ((forall f :: f in fields ==> f.0 != "category") ==> category == None)
  }

  ghost predicate PlainFieldsMatch(fields: seq<(string, Json)>, d: LookupDict) {
    && ("collection", d.collection) in fields && IsScalar(d.collection)
    && ChildTypeMatches(fields, d.childType)
    && CategoryMatches(fields, d.category)
  }

  ghost predicate NameMatches(fields: seq<(string, Json)>, d: LookupDict) {
    && (d.nameMatcher.None? ==> forall f :: f in fields ==> !FormOf(f.0).NameKey?)
    && (d.nameMatcher.Some? ==>
          exists f :: f in fields && FormOf(f.0) == NameKey(d.nameMatcher.value.kind) &&
            f.1 == d.nameMatcher.value.value)
  }

  ghost predicate DataMatch(fields: seq<(string, Json)>, d: LookupDict) {
    && SortedByKey(d.dataMatchers)
    && (forall m :: m in d.dataMatchers ==>
          exists f :: f in fields && FormOf(f.0) == DataKey(m.0, m.1.kind) && f.1 == m.1.value)
    && (forall f :: f in fields && FormOf(f.0).DataKey? ==>
          (FormOf(f.0).key, Matcher(FormOf(f.0).kind, f.1)) in d.dataMatchers)
  }

  ghost predicate FiltersMatch(v: Json, filters: seq<(string, Filter)>)
    requires v.Obj?
    decreases v, 0
  {
    && SortedByKey(filters)
    && (forall m :: m in filters ==>
         exists f :: f in v.fields && FormOf(f.0) == LookupKey(m.0) && IsNormalFilter(f.1, m.1))
    && (forall f :: f in v.fields && FormOf(f.0).LookupKey? ==> exists m :: m in filters && m.0 == FormOf(f.0).key)
  }

  /** `d` is the normal form of the dictionary `v`. The order of the keys of `v` does not matter. */
  ghost predicate IsNormal(v: Json, d: LookupDict)
    decreases v, 1
  {
    && v.Obj? && !HasConflict(v.fields)
    && (forall f :: f in v.fields ==> !FormOf(f.0).Malformed? && (FormOf(f.0).Other? ==> PlainFieldOk(f.0, f.1)))
    && PlainFieldsMatch(v.fields, d) && NameMatches(v.fields, d) && DataMatch(v.fields, d)
    && FiltersMatch(v, d.lookupFilters)
  }

  ghost predicate IsNormalElement(v: Json, e: Element)
    decreases v, 2
  {
    match e
    case Plain(value) => IsScalar(v) && v == value
    case Dict(d) => IsNormal(v, d)
  }

  ghost predicate IsNormalFilter(v: Json, f: Filter)
    decreases v, 3
  {
    match f
    case Single(value) => IsScalar(v) && v == value
    case Multiple(elements) =>
      if v.Obj? then |elements| == 1 && elements[0].Dict? && IsNormal(v, elements[0].dict)
      else v.Arr? && |elements| == |v.items| &&
           forall i :: 0 <= i < |elements| ==> IsNormalElement(v.items[i], elements[i])
  }

  // ----- sorting and grouping keys -----

  predicate PrefixLeq(a: Prefix, b: Prefix) {
    a == [] || (b != [] && if a[0] == b[0] then PrefixLeq(a[1..], b[1..]) else Leq(a[0], b[0]))
  }

  lemma {:induction false} PrefixLeqTotal(a: Prefix, b: Prefix)
    ensures PrefixLeq(a, b) || PrefixLeq(b, a)
  {
    if a != [] && b != [] {
      if a[0] == b[0] {
        PrefixLeqTotal(a[1..], b[1..]);
      } else {
        LeqTotal(a[0], b[0]);
      }
    }
  }

  lemma {:induction false} PrefixLeqAntisymmetric(a: Prefix, b: Prefix)
    requires PrefixLeq(a, b) && PrefixLeq(b, a)
    ensures a == b
  {
    if a != [] {
      if a[0] == b[0] {
        PrefixLeqAntisymmetric(a[1..], b[1..]);
        assert a == [a[0]] + a[1..] && b == [b[0]] + b[1..];
      } else {
        LeqAntisymmetric(a[0], b[0]);
      }
    }
  }

  lemma {:induction false} PrefixLeqTransitive(a: Prefix, b: Prefix, c: Prefix)
    requires PrefixLeq(a, b) && PrefixLeq(b, c)
    ensures PrefixLeq(a, c)
  {
    if a != [] {
      if a[0] == b[0] == c[0] {
        PrefixLeqTransitive(a[1..], b[1..], c[1..]);
      } else {
        LeqTotal(a[0], a[0]);
        LeqTotal(b[0], b[0]);
        LeqTransitive(a[0], b[0], c[0]);
        if a[0] == c[0] {
          LeqAntisymmetric(a[0], b[0]);
        }
      }
    }
  }

  /** Puts a key behind the keys that are not greater. */
  function Insert(sorted: seq<string>, key: string): seq<string> {
    if sorted == [] then [key]
    else
      var n := |sorted| - 1;
      if PrefixLeq(MatcherPrefix(sorted[n]), MatcherPrefix(key)) then sorted + [key]
      else Insert(sorted[..n], key) + [sorted[n]]
  }

  /** A stable sort by prefix. */
  function SortByPrefix(keys: seq<string>): seq<string> {
    if keys == [] then [] else Insert(SortByPrefix(keys[..|keys| - 1]), keys[|keys| - 1])
  }

  ghost predicate Sorted(keys: seq<string>) {
    forall i, j :: 0 <= i < j < |keys| ==> PrefixLeq(MatcherPrefix(keys[i]), MatcherPrefix(keys[j]))
  }

  predicate Distinct(keys: seq<string>) {
    forall i, j :: 0 <= i < j < |keys| ==> keys[i] != keys[j]
  }

  lemma {:induction false} InsertMembers(sorted: seq<string>, key: string)
    ensures forall k :: k in Insert(sorted, key) <==> k in sorted || k == key
    ensures Distinct(sorted) && key !in sorted ==> Distinct(Insert(sorted, key))
  {
    if sorted != [] {
      var n := |sorted| - 1;
      assert sorted == sorted[..n] + [sorted[n]];
      InsertMembers(sorted[..n], key);
      var front := Insert(sorted[..n], key);
      assert forall i :: 0 <= i < |front| ==> front[i] in front;
    }
  }

  lemma AppendSorted(keys: seq<string>, key: string)
    requires Sorted(keys) && forall k :: k in keys ==> PrefixLeq(MatcherPrefix(k), MatcherPrefix(key))
    ensures Sorted(keys + [key])
  {
  }

  lemma {:induction false} NotAboveLast(sorted: seq<string>, k: string)
    requires Sorted(sorted) && k in sorted
    ensures PrefixLeq(MatcherPrefix(k), MatcherPrefix(sorted[|sorted| - 1]))
  {
    PrefixLeqTotal(MatcherPrefix(k), MatcherPrefix(k));
  }

  lemma {:induction false} InsertSorted(sorted: seq<string>, key: string)
    requires Sorted(sorted)
    ensures Sorted(Insert(sorted, key))
  {
    if sorted != [] {
      var n := |sorted| - 1;
      if PrefixLeq(MatcherPrefix(sorted[n]), MatcherPrefix(key)) {
        forall k | k in sorted
          ensures PrefixLeq(MatcherPrefix(k), MatcherPrefix(key))
        {
          NotAboveLast(sorted, k);
          PrefixLeqTransitive(MatcherPrefix(k), MatcherPrefix(sorted[n]), MatcherPrefix(key));
        }
        AppendSorted(sorted, key);
      } else {
        InsertSorted(sorted[..n], key);
        InsertMembers(sorted[..n], key);
        PrefixLeqTotal(MatcherPrefix(sorted[n]), MatcherPrefix(key));
        AppendSorted(Insert(sorted[..n], key), sorted[n]);
      }
    }
  }

  lemma {:induction false} SortByPrefixSorts(keys: seq<string>)
    ensures Sorted(SortByPrefix(keys))
    ensures forall k :: k in SortByPrefix(keys) <==> k in keys
    ensures Distinct(keys) ==> Distinct(SortByPrefix(keys))
  {
    if keys != [] {
      var n := |keys| - 1;
      SortByPrefixSorts(keys[..n]);
      InsertSorted(SortByPrefix(keys[..n]), keys[n]);
      InsertMembers(SortByPrefix(keys[..n]), keys[n]);
      assert keys == keys[..n] + [keys[n]];
    }
  }

  /** In a sorted list equal prefixes stand next to each other. */
  lemma {:induction false} EqualPrefixesAreAdjacent(keys: seq<string>, i: nat, j: nat, k: nat)
    requires Sorted(keys) && i < j < k < |keys| && MatcherPrefix(keys[i]) == MatcherPrefix(keys[k])
    ensures MatcherPrefix(keys[j]) == MatcherPrefix(keys[i])
  {
    PrefixLeqAntisymmetric(MatcherPrefix(keys[i]), MatcherPrefix(keys[j]));
  }
}
