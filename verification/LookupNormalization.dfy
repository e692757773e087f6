/** How a dictionary lookup is normalized: its keys are sorted and grouped by prefix, and each group becomes a
    matcher or a subordinate lookup. */
module LookupNormalization {
  import opened Outcomes
  import opened Strings
  import opened Lookups

  /** The items of a dictionary in the order of their keys. */
  function SortedItems<T(!new)>(m: map<string, T>): (s: seq<(string, T)>)
    ensures SortedByKey(s)
    ensures forall p :: p in s <==> p.0 in m && m[p.0] == p.1
  {
    if m.Keys == {} then []
    else
      HasLeast(m.Keys);
      assert forall x, y :: Leq(x, y) && Leq(y, x) ==> x == y by {
        forall x, y | Leq(x, y) && Leq(y, x)
          ensures x == y
        {
          LeqAntisymmetric(x, y);
        }
      }
      var k :| k in m.Keys && forall x :: x in m.Keys ==> Leq(k, x);
      var rest := SortedItems(m - {k});
      assert forall i :: 0 <= i < |rest| ==> rest[i] in rest;
      [(k, m[k])] + rest
  }

  function ToMap(fields: seq<(string, Json)>): (m: map<string, Json>)
    requires DistinctKeys(fields)
    ensures forall f :: f in fields <==> f.0 in m && m[f.0] == f.1
  {
    if fields == [] then map[]
    else
      var n := |fields| - 1;
      assert fields == fields[..n] + [fields[n]];
      assert forall f :: f in fields[..n] ==> f.0 != fields[n].0;
      ToMap(fields[..n])[fields[n].0 := fields[n].1]
  }

  function KeysOf(fields: seq<(string, Json)>): (keys: seq<string>)
    requires DistinctKeys(fields)
    ensures Distinct(keys) && forall k :: k in keys <==> exists f :: f in fields && f.0 == k
  {
    var keys := seq(|fields|, i requires 0 <= i < |fields| => fields[i].0);
    assert forall i :: 0 <= i < |fields| ==> keys[i] == fields[i].0 && keys[i] in keys && fields[i] in fields;
    keys
  }

  /** The collected matchers, over the keys that were looked at. */
  datatype Matchers = Matchers(name: Option<Matcher>, data: map<string, Matcher>, filters: map<string, Filter>)

  ghost predicate NameInv(values: map<string, Json>, done: set<string>, name: Option<Matcher>) {
    && (name.None? ==> forall k :: k in done ==> !FormOf(k).NameKey?)
    && (name.Some? ==>
         exists k :: k in done && k in values && FormOf(k) == NameKey(name.value.kind) && values[k] == name.value.value)
  }

  ghost predicate DataInv(values: map<string, Json>, done: set<string>, data: map<string, Matcher>) {
    && (forall k :: k in done && k in values && FormOf(k).DataKey? ==>
          FormOf(k).key in data && data[FormOf(k).key] == Matcher(FormOf(k).kind, values[k]))
    && (forall x :: x in data ==>
          exists k :: k in done && k in values && FormOf(k) == DataKey(x, data[x].kind) && values[k] == data[x].value)
  }

  ghost predicate FiltersInv(values: map<string, Json>, done: set<string>, filters: map<string, Filter>) {
    && (forall k :: k in done && k in values && FormOf(k).LookupKey? ==> FormOf(k).key in filters)
    && (forall x :: x in filters ==>
          exists k :: k in done && k in values && FormOf(k) == LookupKey(x) && IsNormalFilter(values[k], filters[x]))
  }

  ghost predicate MatchersInv(values: map<string, Json>, done: set<string>, m: Matchers) {
    NameInv(values, done, m.name) && DataInv(values, done, m.data) && FiltersInv(values, done, m.filters)
  }

  /** No other key has this prefix. */
  ghost predicate Lone(done: set<string>, key: string) {
    key !in done && forall k :: k in done ==> MatcherPrefix(k) != MatcherPrefix(key)
  }

  lemma NameKept(values: map<string, Json>, done: set<string>, name: Option<Matcher>, key: string)
    requires NameInv(values, done, name) && !FormOf(key).NameKey?
    ensures NameInv(values, done + {key}, name)
  {
  }

  lemma DataKept(values: map<string, Json>, done: set<string>, data: map<string, Matcher>, key: string)
    requires DataInv(values, done, data) && !FormOf(key).DataKey?
    ensures DataInv(values, done + {key}, data)
  {
  }

  lemma FiltersKept(values: map<string, Json>, done: set<string>, filters: map<string, Filter>, key: string)
    requires FiltersInv(values, done, filters) && !FormOf(key).LookupKey?
    ensures FiltersInv(values, done + {key}, filters)
  {
  }

  lemma {:induction false} NameAdded(values: map<string, Json>, done: set<string>, m: Matchers, key: string)
    requires MatchersInv(values, done, m) && key in values && FormOf(key).NameKey?
    ensures MatchersInv(values, done + {key}, m.(name := Some(Matcher(FormOf(key).kind, values[key]))))
  {
    DataKept(values, done, m.data, key);
    FiltersKept(values, done, m.filters, key);
  }

  lemma DataTaken(values: map<string, Json>, done: set<string>, data: map<string, Matcher>, key: string)
    requires DataInv(values, done, data) && key in values && FormOf(key).DataKey?
    requires forall k :: k in done && FormOf(k).DataKey? ==> FormOf(k).key != FormOf(key).key
    ensures DataInv(values, done + {key}, data[FormOf(key).key := Matcher(FormOf(key).kind, values[key])])
  {
  }

  lemma {:induction false} DataAdded(values: map<string, Json>, done: set<string>, m: Matchers, key: string)
    requires MatchersInv(values, done, m) && Lone(done, key) && key in values && FormOf(key).DataKey?
    ensures MatchersInv(values, done + {key},
      m.(data := m.data[FormOf(key).key := Matcher(FormOf(key).kind, values[key])]))
  {
    FormDeterminesPrefix(key);
    forall k | k in done && FormOf(k).DataKey?
      ensures FormOf(k).key != FormOf(key).key
    {
      FormDeterminesPrefix(k);
    }
    NameKept(values, done, m.name, key);
    DataTaken(values, done, m.data, key);
    FiltersKept(values, done, m.filters, key);
  }

  lemma FiltersTaken(values: map<string, Json>, done: set<string>, filters: map<string, Filter>, key: string,
                     filter: Filter)
    requires FiltersInv(values, done, filters) && key in values && FormOf(key).LookupKey?
    requires forall k :: k in done && FormOf(k).LookupKey? ==> FormOf(k).key != FormOf(key).key
    requires IsNormalFilter(values[key], filter)
    ensures FiltersInv(values, done + {key}, filters[FormOf(key).key := filter])
  {
  }

  lemma {:induction false} FilterAdded(values: map<string, Json>, done: set<string>, m: Matchers, key: string,
                                       filter: Filter)
    requires MatchersInv(values, done, m) && Lone(done, key) && key in values && FormOf(key).LookupKey?
    requires IsNormalFilter(values[key], filter)
    ensures MatchersInv(values, done + {key}, m.(filters := m.filters[FormOf(key).key := filter]))
  {
    FormDeterminesPrefix(key);
    forall k | k in done && FormOf(k).LookupKey?
      ensures FormOf(k).key != FormOf(key).key
    {
      FormDeterminesPrefix(k);
    }
    NameKept(values, done, m.name, key);
    DataKept(values, done, m.data, key);
    FiltersTaken(values, done, m.filters, key, filter);
  }

  lemma {:induction false} OthersAdded(values: map<string, Json>, done: set<string>, m: Matchers, others: set<string>)
    requires MatchersInv(values, done, m) && forall k :: k in others ==> MatcherPrefix(k) == []
    ensures MatchersInv(values, done + others, m)
  {
    forall k | k in others
      ensures FormOf(k).Other?
    {
      FormDeterminesPrefix(k);
    }
  }

  // ----- conflicts -----

  /** No two of these keys share a prefix that stands for a matcher. */
  ghost predicate ClashFree(keys: set<string>) {
    forall k, l :: k in keys && l in keys && k != l && MatcherPrefix(k) == MatcherPrefix(l) ==> MatcherPrefix(k) == []
  }

  /** A key that is not for pydantic is well formed, and its subordinate lookup is accepted. */
  ghost predicate MatcherOk(key: string, v: Json) {
    match FormOf(key)
    case Malformed => false
    case LookupKey(_) => AcceptsFilter(v)
    case _ => true
  }

  ghost predicate MatchersOk(values: map<string, Json>, keys: set<string>)
    requires keys <= values.Keys
  {
    ClashFree(keys) && forall k :: k in keys ==> MatcherOk(k, values[k])
  }

  ghost predicate Clash(values: map<string, Json>, k: string, l: string) {
    k in values && l in values && k != l && MatcherPrefix(k) == MatcherPrefix(l) && MatcherPrefix(k) != []
  }

  /** Two keys clash, and nothing else is wrong with the keys sorted before them. */
  ghost predicate ConflictComesFirst(values: map<string, Json>) {
    exists k, l :: Clash(values, k, l) && FineBefore(values, k)
  }

  ghost predicate FineBefore(values: map<string, Json>, k: string) {
    forall h :: h in values && MatcherPrefix(h) != MatcherPrefix(k) && PrefixLeq(MatcherPrefix(h), MatcherPrefix(k)) ==>
      MatcherOk(h, values[h])
  }

  ghost function Members(keys: seq<string>): set<string> {
    set k | k in keys
  }

  /** The end of the group that starts at `i`. */
  method GroupEnd(keys: seq<string>, i: nat) returns (j: nat)
    requires i < |keys|
    ensures i < j <= |keys|
    ensures forall k :: i <= k < j ==> MatcherPrefix(keys[k]) == MatcherPrefix(keys[i])
    ensures j < |keys| ==> MatcherPrefix(keys[j]) != MatcherPrefix(keys[j - 1])
  {
    j := i + 1;
    while j < |keys| && MatcherPrefix(keys[j]) == MatcherPrefix(keys[i])
      invariant i < j <= |keys|
      invariant forall k :: i <= k < j ==> MatcherPrefix(keys[k]) == MatcherPrefix(keys[i])
    {
      j := j + 1;
    }
  }

  /** A group starts at `i` when the key before it has another prefix. */
  predicate GroupStart(keys: seq<string>, i: nat) {
    i <= |keys| && (0 < i < |keys| ==> MatcherPrefix(keys[i - 1]) != MatcherPrefix(keys[i]))
  }

  lemma {:induction false} GroupsDiffer(keys: seq<string>, i: nat, a: nat)
    requires Sorted(keys) && GroupStart(keys, i) && a < i < |keys|
    ensures MatcherPrefix(keys[a]) != MatcherPrefix(keys[i])
  {
    hide MatcherPrefix, PrefixLeq;
    if a < i - 1 && MatcherPrefix(keys[a]) == MatcherPrefix(keys[i]) {
      EqualPrefixesAreAdjacent(keys, a, i - 1, i);
    }
  }

  lemma {:induction false} GroupIsLone(keys: seq<string>, i: nat)
    requires Sorted(keys) && Distinct(keys) && GroupStart(keys, i) && i < |keys|
    ensures Lone(Members(keys[..i]), keys[i])
  {
    forall k | k in Members(keys[..i])
      ensures k != keys[i] && MatcherPrefix(k) != MatcherPrefix(keys[i])
    {
      var a :| 0 <= a < i && keys[a] == k;
      GroupsDiffer(keys, i, a);
    }
  }

  // ----- the loop over the groups -----

  /** What is left for pydantic once the keys in `done` were looked at. */
  function Remaining(values: map<string, Json>, done: set<string>): map<string, Json> {
    map k | k in values && (k !in done || MatcherPrefix(k) == []) :: values[k]
  }

  ghost predicate SortedKeys(keys: seq<string>, values: map<string, Json>) {
    Sorted(keys) && Distinct(keys) && Members(keys) == values.Keys
  }

  ghost predicate LoopInv(keys: seq<string>, values: map<string, Json>, i: nat, m: Matchers, rest: map<string, Json>)
    requires SortedKeys(keys, values)
  {
    && GroupStart(keys, i)
    && Members(keys[..i]) <= values.Keys
    && MatchersOk(values, Members(keys[..i]))
    && MatchersInv(values, Members(keys[..i]), m)
    && rest == Remaining(values, Members(keys[..i]))
  }

  lemma {:induction false} PositionOf(keys: seq<string>, values: map<string, Json>, k: string) returns (a: nat)
    requires SortedKeys(keys, values) && k in values
    ensures a < |keys| && keys[a] == k
  {
    assert k in Members(keys);
    a :| a < |keys| && keys[a] == k;
  }

  lemma {:induction false} MembersStep(keys: seq<string>, i: nat, j: nat)
    requires i <= j <= |keys|
    ensures Members(keys[..j]) == Members(keys[..i]) + Members(keys[i..j])
  {
    assert keys[..j] == keys[..i] + keys[i..j];
  }

  lemma {:induction false} MembersNext(keys: seq<string>, i: nat)
    requires i < |keys|
    ensures Members(keys[..i + 1]) == Members(keys[..i]) + {keys[i]}
  {
    MembersStep(keys, i, i + 1);
    assert keys[i..i + 1] == [keys[i]];
  }

  lemma ClashFreeWithLone(done: set<string>, key: string)
    requires ClashFree(done) && Lone(done, key)
    ensures ClashFree(done + {key})
  {
  }

  lemma {:induction false} MatchersOkNext(values: map<string, Json>, done: set<string>, key: string)
    requires done <= values.Keys && MatchersOk(values, done) && Lone(done, key) && key in values &&
      MatcherOk(key, values[key])
    ensures done + {key} <= values.Keys && MatchersOk(values, done + {key})
  {
    ClashFreeWithLone(done, key);
  }

  lemma RemainingNext(values: map<string, Json>, done: set<string>, key: string)
    requires MatcherPrefix(key) != []
    ensures Remaining(values, done + {key}) == Remaining(values, done) - {key}
  {
  }

  lemma ClashFreeWithOthers(done: set<string>, others: set<string>)
    requires ClashFree(done) && forall k :: k in others ==> MatcherPrefix(k) == []
    ensures ClashFree(done + others)
  {
  }

  lemma {:induction false} MatchersOkWithOthers(values: map<string, Json>, done: set<string>, others: set<string>)
    requires done <= values.Keys && others <= values.Keys && MatchersOk(values, done)
    requires forall k :: k in others ==> MatcherPrefix(k) == []
    ensures MatchersOk(values, done + others)
  {
    ClashFreeWithOthers(done, others);
    forall k | k in others
      ensures MatcherOk(k, values[k])
    {
      FormDeterminesPrefix(k);
    }
  }

  lemma RemainingWithOthers(values: map<string, Json>, done: set<string>, others: set<string>)
    requires forall k :: k in others ==> MatcherPrefix(k) == []
    ensures Remaining(values, done + others) == Remaining(values, done)
  {
  }

  lemma MembersWithin(keys: seq<string>, i: nat, j: nat)
    requires i <= j <= |keys|
    ensures Members(keys[i..j]) <= Members(keys)
  {
  }

  lemma {:induction false} OthersSkipped(keys: seq<string>, values: map<string, Json>, i: nat, j: nat, m: Matchers,
                                         rest: map<string, Json>)
    requires SortedKeys(keys, values) && LoopInv(keys, values, i, m, rest) && i < j <= |keys| && GroupStart(keys, j)
    requires forall k :: i <= k < j ==> MatcherPrefix(keys[k]) == []
    ensures LoopInv(keys, values, j, m, rest)
  {
    var done, others := Members(keys[..i]), Members(keys[i..j]);
    MembersStep(keys, i, j);
    MembersWithin(keys, i, j);
    MatchersOkWithOthers(values, done, others);
    OthersAdded(values, done, m, others);
    RemainingWithOthers(values, done, others);
  }

  /** One group of one key is dealt with. */
  lemma {:induction false} KeyTaken(keys: seq<string>, values: map<string, Json>, i: nat, m: Matchers, m': Matchers,
                                    rest: map<string, Json>)
    requires SortedKeys(keys, values) && LoopInv(keys, values, i, m, rest) && i < |keys| && GroupStart(keys, i + 1)
    requires keys[i] in values && MatcherPrefix(keys[i]) != [] && MatcherOk(keys[i], values[keys[i]])
    requires MatchersInv(values, Members(keys[..i]) + {keys[i]}, m')
    ensures LoopInv(keys, values, i + 1, m', rest - {keys[i]})
  {
    var done := Members(keys[..i]);
    MembersNext(keys, i);
    GroupIsLone(keys, i);
    MatchersOkNext(values, done, keys[i]);
    RemainingNext(values, done, keys[i]);
  }

  lemma {:induction false} ConflictFound(keys: seq<string>, values: map<string, Json>, i: nat, m: Matchers,
                                         rest: map<string, Json>)
    requires SortedKeys(keys, values) && LoopInv(keys, values, i, m, rest) && i + 1 < |keys|
    requires MatcherPrefix(keys[i]) != [] && MatcherPrefix(keys[i + 1]) == MatcherPrefix(keys[i])
    ensures !MatchersOk(values, values.Keys) && ConflictComesFirst(values)
  {
    hide MatcherPrefix, PrefixLeq, MatcherOk;
    assert keys[i] in Members(keys) && keys[i + 1] in Members(keys);
    assert Clash(values, keys[i], keys[i + 1]);
    forall h | h in values && MatcherPrefix(h) != MatcherPrefix(keys[i]) &&
      PrefixLeq(MatcherPrefix(h), MatcherPrefix(keys[i]))
      ensures MatcherOk(h, values[h])
    {
      var c := PositionOf(keys, values, h);
      if c >= i {
        PrefixLeqAntisymmetric(MatcherPrefix(h), MatcherPrefix(keys[i]));
      }
      assert keys[..i][c] == h;
    }
    assert FineBefore(values, keys[i]);
  }

  /** The group of `keys[i]` is just that key. */
  lemma {:induction false} GroupOfOne(keys: seq<string>, i: nat, a: nat)
    requires Sorted(keys) && GroupStart(keys, i) && i < |keys| && GroupStart(keys, i + 1) && a < |keys| && a != i
    ensures MatcherPrefix(keys[a]) != MatcherPrefix(keys[i])
  {
    if a < i {
      GroupsDiffer(keys, i, a);
    } else if i + 1 < a {
      if MatcherPrefix(keys[a]) == MatcherPrefix(keys[i]) {
        EqualPrefixesAreAdjacent(keys, i, i + 1, a);
      }
    }
  }

  lemma {:induction false} RejectedBeforeClash(keys: seq<string>, values: map<string, Json>, i: nat, a: nat, b: nat)
    requires SortedKeys(keys, values) && GroupStart(keys, i) && i < |keys| && GroupStart(keys, i + 1)
    requires ClashFree(Members(keys[..i])) && a < |keys| && b < |keys| && a != b
    requires MatcherPrefix(keys[a]) == MatcherPrefix(keys[b]) && MatcherPrefix(keys[a]) != []
    ensures MatcherPrefix(keys[i]) != MatcherPrefix(keys[a]) &&
      PrefixLeq(MatcherPrefix(keys[i]), MatcherPrefix(keys[a]))
  {
    hide MatcherPrefix, PrefixLeq, ClashFree;
    NotBothBefore(keys, i, a, b);
    GroupOfOne(keys, i, if a == i then b else a);
  }

  lemma {:induction false} NotBothBefore(keys: seq<string>, i: nat, a: nat, b: nat)
    requires Distinct(keys) && i <= |keys| && ClashFree(Members(keys[..i])) && a < |keys| && b < |keys| && a != b
    requires MatcherPrefix(keys[a]) == MatcherPrefix(keys[b]) && MatcherPrefix(keys[a]) != []
    ensures i <= a || i <= b
  {
    hide MatcherPrefix;
    assert forall k :: 0 <= k < i ==> keys[..i][k] in Members(keys[..i]);
  }

  lemma {:induction false} KeyRejected(keys: seq<string>, values: map<string, Json>, i: nat, m: Matchers,
                                       rest: map<string, Json>)
    requires SortedKeys(keys, values) && LoopInv(keys, values, i, m, rest) && i < |keys| && GroupStart(keys, i + 1)
    requires keys[i] in values && !MatcherOk(keys[i], values[keys[i]])
    ensures !MatchersOk(values, values.Keys) && !ConflictComesFirst(values)
  {
    forall k, l | Clash(values, k, l)
      ensures !FineBefore(values, k)
    {
      var a := PositionOf(keys, values, k);
      var b := PositionOf(keys, values, l);
      RejectedBeforeClash(keys, values, i, a, b);
    }
  }

  lemma NothingCollected(values: map<string, Json>)
    ensures MatchersInv(values, {}, Matchers(None, map[], map[]))
  {
  }

  lemma {:induction false} NothingTaken(keys: seq<string>, values: map<string, Json>)
    requires SortedKeys(keys, values)
    ensures LoopInv(keys, values, 0, Matchers(None, map[], map[]), values)
  {
    assert Members(keys[..0]) == {};
    assert Remaining(values, {}) == values;
    NothingCollected(values);
  }

  lemma {:induction false} AllTaken(keys: seq<string>, values: map<string, Json>, m: Matchers, rest: map<string, Json>)
    requires SortedKeys(keys, values) && LoopInv(keys, values, |keys|, m, rest)
    ensures MatchersOk(values, values.Keys) && MatchersInv(values, values.Keys, m)
    ensures rest == Remaining(values, values.Keys) && !ConflictComesFirst(values)
  {
    assert keys[..|keys|] == keys;
  }

  // ----- building the normal form -----

  predicate PlainOk(rest: map<string, Json>) {
    "collection" in rest && forall k :: k in rest ==> PlainFieldOk(k, rest[k])
  }

  function Build(rest: map<string, Json>, m: Matchers): LookupDict
    requires PlainOk(rest)
  {
    LookupDict(
      rest["collection"],
      if "child_type" in rest then ChildTypeOf(rest["child_type"].s).value else Artifact,
      if "category" in rest && rest["category"].Str? then Some(rest["category"].s) else None,
      m.name,
      SortedItems(m.data),
      SortedItems(m.filters))
  }

  /** A key without two underscores in a row is one word. */
  lemma {:induction false} OneWord(key: string)
    requires forall k :: 0 < k < |key| ==> key[k - 1] != '_' || key[k] != '_'
    ensures SplitWords(key) == [key]
  {
    forall k | 0 <= k < |key|
      ensures !Strings.StartsWith(key[k..], SEP)
    {
      if k + 1 < |key| {
        assert key[k..][..2] == [key[k], key[k + 1]];
      }
    }
    SplitNone(key, SEP);
  }

  /** A word without underscores is split off. */
  lemma {:induction false} FirstWord(word: string, rest: string)
    requires '_' !in word
    ensures SplitWords(word + SEP + rest) == [word] + SplitWords(rest)
  {
    var key := word + SEP + rest;
    forall k | 0 <= k < |word|
      ensures !Strings.StartsWith(key[k..], SEP)
    {
      assert key[k..][0] == word[k];
    }
    assert Strings.StartsWith(key[|word|..], SEP);
    SplitFirst(word, rest, SEP);
  }

  lemma {:induction false} TwoWords(a: string, b: string)
    requires '_' !in a && '_' !in b
    ensures SplitWords(a + SEP + b) == [a, b]
  {
    FirstWord(a, b);
    assert forall k :: 0 < k < |b| ==> b[k] != '_';
    OneWord(b);
  }

  lemma {:induction false} PlainKeyIsOther(key: string)
    requires key in {"collection", "child_type", "category"}
    ensures MatcherPrefix(key) == []
  {
    if key == "child_type" {
      assert key[4] == 'd' && key[6] == 't';
    }
    OneWord(key);
  }

  lemma {:induction false} ConflictIsClash(v: Json)
    requires v.Obj? && ValidJson(v)
    ensures HasConflict(v.fields) <==> !ClashFree(ToMap(v.fields).Keys)
  {
    var values := ToMap(v.fields);
    if !ClashFree(values.Keys) {
      var k, l :| k in values && l in values && k != l && MatcherPrefix(k) == MatcherPrefix(l) &&
        MatcherPrefix(k) != [];
      assert (k, values[k]) in v.fields && (l, values[l]) in v.fields;
    }
  }

  lemma RemainingFields(v: Json)
    requires v.Obj? && ValidJson(v)
    ensures forall f :: f in v.fields && MatcherPrefix(f.0) == [] ==>
        var rest := Remaining(ToMap(v.fields), ToMap(v.fields).Keys); f.0 in rest && rest[f.0] == f.1
    ensures forall k :: k in Remaining(ToMap(v.fields), ToMap(v.fields).Keys) ==>
        MatcherPrefix(k) == [] && (k, Remaining(ToMap(v.fields), ToMap(v.fields).Keys)[k]) in v.fields
  {
  }

  lemma {:induction false} FieldParts(key: string, v: Json)
    requires FieldOk(key, v)
    ensures MatcherOk(key, v) && (MatcherPrefix(key) == [] ==> PlainFieldOk(key, v))
  {
    FormDeterminesPrefix(key);
  }

  lemma {:induction false} CollectionRemains(v: Json)
    requires v.Obj? && ValidJson(v) && exists f :: f in v.fields && f.0 == "collection"
    ensures "collection" in Remaining(ToMap(v.fields), ToMap(v.fields).Keys)
  {
    PlainKeyIsOther("collection");
  }

  lemma {:induction false} AcceptedField(v: Json, key: string)
    requires ValidJson(v) && AcceptsDict(v) && key in ToMap(v.fields)
    ensures FieldOk(key, ToMap(v.fields)[key])
  {
    assert (key, ToMap(v.fields)[key]) in v.fields;
  }

  lemma {:induction false} AcceptedParts(v: Json)
    requires ValidJson(v) && AcceptsDict(v)
    ensures
      var values := ToMap(v.fields);
      MatchersOk(values, values.Keys) && PlainOk(Remaining(values, values.Keys))
  {
    var values := ToMap(v.fields);
    ConflictIsClash(v);
    CollectionRemains(v);
    forall k | k in values
      ensures MatcherOk(k, values[k]) && (MatcherPrefix(k) == [] ==> PlainFieldOk(k, values[k]))
    {
      AcceptedField(v, k);
      FieldParts(k, values[k]);
    }
  }

  lemma {:induction false} PartsAccepted(v: Json)
    requires v.Obj? && ValidJson(v)
    requires
      var values := ToMap(v.fields);
      MatchersOk(values, values.Keys) && PlainOk(Remaining(values, values.Keys))
    ensures AcceptsDict(v)
  {
    var values := ToMap(v.fields);
    var rest := Remaining(values, values.Keys);
    ConflictIsClash(v);
    RemainingFields(v);
    forall f | f in v.fields
      ensures FieldOk(f.0, f.1)
    {
      assert MatcherOk(f.0, values[f.0]);
      FormDeterminesPrefix(f.0);
    }
    assert ("collection", rest["collection"]) in v.fields;
  }

  lemma {:induction false} AcceptsByParts(v: Json)
    requires v.Obj? && ValidJson(v)
    ensures
      var values := ToMap(v.fields);
      AcceptsDict(v) <==> MatchersOk(values, values.Keys) && PlainOk(Remaining(values, values.Keys))
  {
    var values := ToMap(v.fields);
    if AcceptsDict(v) {
      AcceptedParts(v);
    }
    if MatchersOk(values, values.Keys) && PlainOk(Remaining(values, values.Keys)) {
      PartsAccepted(v);
    }
  }

  // ----- the built dictionary is the normal form -----

  lemma {:induction false} NameFound(v: Json, name: Option<Matcher>, d: LookupDict)
    requires v.Obj? && ValidJson(v) && NameInv(ToMap(v.fields), ToMap(v.fields).Keys, name) && d.nameMatcher == name
    ensures NameMatches(v.fields, d)
  {
    var values := ToMap(v.fields);
    if name.Some? {
      var k :| k in values && FormOf(k) == NameKey(name.value.kind) && values[k] == name.value.value;
      assert (k, values[k]) in v.fields;
    }
  }

  lemma {:induction false} DataFound(v: Json, data: map<string, Matcher>, d: LookupDict)
    requires v.Obj? && ValidJson(v) && DataInv(ToMap(v.fields), ToMap(v.fields).Keys, data) &&
      d.dataMatchers == SortedItems(data)
    ensures DataMatch(v.fields, d)
  {
    var values := ToMap(v.fields);
    forall m | m in d.dataMatchers
      ensures exists f :: f in v.fields && FormOf(f.0) == DataKey(m.0, m.1.kind) && f.1 == m.1.value
    {
      var k :| k in values && FormOf(k) == DataKey(m.0, m.1.kind) && values[k] == m.1.value;
      assert (k, values[k]) in v.fields;
    }
  }

  lemma {:induction false} FilterKeyFound(values: map<string, Json>, filters: map<string, Filter>, x: string)
    returns (k: string)
    requires FiltersInv(values, values.Keys, filters) && x in filters
    ensures k in values && FormOf(k) == LookupKey(x) && IsNormalFilter(values[k], filters[x])
  {
    k :| k in values && FormOf(k) == LookupKey(x) && IsNormalFilter(values[k], filters[x]);
  }

  lemma {:induction false} FilterFound(v: Json, filters: map<string, Filter>, m: (string, Filter))
    returns (f: (string, Json))
    requires v.Obj? && ValidJson(v) && FiltersInv(ToMap(v.fields), ToMap(v.fields).Keys, filters)
    requires m.0 in filters && m.1 == filters[m.0]
    ensures f in v.fields && FormOf(f.0) == LookupKey(m.0) && IsNormalFilter(f.1, m.1)
  {
    var k := FilterKeyFound(ToMap(v.fields), filters, m.0);
    f := (k, ToMap(v.fields)[k]);
  }

  lemma {:induction false} FiltersFound(v: Json, filters: map<string, Filter>)
    requires v.Obj? && ValidJson(v) && FiltersInv(ToMap(v.fields), ToMap(v.fields).Keys, filters)
    ensures FiltersMatch(v, SortedItems(filters))
  {
    var items := SortedItems(filters);
    forall m | m in items
      ensures exists f :: f in v.fields && FormOf(f.0) == LookupKey(m.0) && IsNormalFilter(f.1, m.1)
    {
      var f := FilterFound(v, filters, m);
    }
    forall f | f in v.fields && FormOf(f.0).LookupKey?
      ensures exists m :: m in items && m.0 == FormOf(f.0).key
    {
      assert f.0 in ToMap(v.fields);
      assert (FormOf(f.0).key, filters[FormOf(f.0).key]) in items;
    }
  }

  lemma {:induction false} ChildTypeNameOf(v: Json)
    requires PlainFieldOk("child_type", v)
    ensures v.Str? && ChildTypeOf(v.s).Some? && ChildTypeName(ChildTypeOf(v.s).value) == v.s
  {
    assert "child_type"[1] == 'h';
  }

  lemma {:induction false} ChildTypeFound(v: Json)
    requires v.Obj? && ValidJson(v) && PlainOk(Remaining(ToMap(v.fields), ToMap(v.fields).Keys))
    ensures
      var rest := Remaining(ToMap(v.fields), ToMap(v.fields).Keys);
      ChildTypeMatches(v.fields, if "child_type" in rest then ChildTypeOf(rest["child_type"].s).value else Artifact)
  {
    var rest := Remaining(ToMap(v.fields), ToMap(v.fields).Keys);
    RemainingFields(v);
    PlainKeyIsOther("child_type");
    if "child_type" in rest {
      ChildTypeNameOf(rest["child_type"]);
      assert ("child_type", rest["child_type"]) in v.fields;
    }
  }

  lemma {:induction false} CategoryFound(v: Json)
    requires v.Obj? && ValidJson(v) && PlainOk(Remaining(ToMap(v.fields), ToMap(v.fields).Keys))
    ensures
      var rest := Remaining(ToMap(v.fields), ToMap(v.fields).Keys);
      CategoryMatches(v.fields, if "category" in rest && rest["category"].Str? then Some(rest["category"].s) else None)
  {
    var rest := Remaining(ToMap(v.fields), ToMap(v.fields).Keys);
    RemainingFields(v);
    PlainKeyIsOther("category");
    if "category" in rest {
      assert PlainFieldOk("category", rest["category"]);
      assert ("category", rest["category"]) in v.fields;
    }
  }

  lemma {:induction false} PlainFound(v: Json, m: Matchers)
    requires v.Obj? && ValidJson(v) && PlainOk(Remaining(ToMap(v.fields), ToMap(v.fields).Keys))
    ensures PlainFieldsMatch(v.fields, Build(Remaining(ToMap(v.fields), ToMap(v.fields).Keys), m))
  {
    RemainingFields(v);
    ChildTypeFound(v);
    CategoryFound(v);
    assert PlainFieldOk("collection", Remaining(ToMap(v.fields), ToMap(v.fields).Keys)["collection"]);
  }

  lemma {:induction false} KeysWellFormed(v: Json)
    requires AcceptsDict(v)
    ensures forall f :: f in v.fields ==> !FormOf(f.0).Malformed? && (FormOf(f.0).Other? ==> PlainFieldOk(f.0, f.1))
  {
    forall f | f in v.fields
      ensures !FormOf(f.0).Malformed? && (FormOf(f.0).Other? ==> PlainFieldOk(f.0, f.1))
    {
      assert FieldOk(f.0, f.1);
    }
  }

  lemma {:induction false} BuildIsNormal(v: Json, m: Matchers)
    requires v.Obj? && ValidJson(v)
    requires
      var values := ToMap(v.fields);
      MatchersOk(values, values.Keys) && MatchersInv(values, values.Keys, m) && PlainOk(Remaining(values, values.Keys))
    ensures IsNormal(v, Build(Remaining(ToMap(v.fields), ToMap(v.fields).Keys), m))
  {
    var values := ToMap(v.fields);
    var d := Build(Remaining(values, values.Keys), m);
    PlainFound(v, m);
    NameFound(v, m.name, d);
    DataFound(v, m.data, d);
    FiltersFound(v, m.filters);
    AcceptsByParts(v);
    KeysWellFormed(v);
  }

  // ----- the normalizing methods -----

  lemma {:induction false} KeysOfMap(v: Json)
    requires v.Obj? && ValidJson(v)
    ensures SortedKeys(SortByPrefix(KeysOf(v.fields)), ToMap(v.fields))
  {
    SortByPrefixSorts(KeysOf(v.fields));
    forall k | k in KeysOf(v.fields)
      ensures k in ToMap(v.fields)
    {
      var f :| f in v.fields && f.0 == k;
    }
    forall k | k in ToMap(v.fields)
      ensures k in KeysOf(v.fields)
    {
      assert (k, ToMap(v.fields)[k]) in v.fields;
    }
  }

  /** `m'` is `m` with what `key` stands for added. */
  ghost predicate Takes(key: string, value: Json, m: Matchers, m': Matchers) {
    match FormOf(key)
    case NameKey(kind) => m' == m.(name := Some(Matcher(kind, value)))
    case DataKey(x, kind) => m' == m.(data := m.data[x := Matcher(kind, value)])
    case LookupKey(x) =>
      m'.name == m.name && m'.data == m.data && x in m'.filters
      && m'.filters == m.filters[x := m'.filters[x]] && IsNormalFilter(value, m'.filters[x])
    case _ => false
  }

  lemma {:induction false} MatcherTaken(values: map<string, Json>, done: set<string>, key: string, m: Matchers,
                                        m': Matchers)
    requires MatchersInv(values, done, m) && Lone(done, key) && key in values && Takes(key, values[key], m, m')
    ensures MatchersInv(values, done + {key}, m')
  {
    match FormOf(key)
    case NameKey(_) => NameAdded(values, done, m, key);
    case DataKey(_, _) => DataAdded(values, done, m, key);
    case LookupKey(x) => FilterAdded(values, done, m, key, m'.filters[x]);
    case _ =>
  }

  /** Turns one key into what it stands for. */
  method NormalizeMatcher(key: string, value: Json, m: Matchers) returns (r: Result<Matchers, Error>)
    requires MatcherPrefix(key) != [] && ValidJson(value)
    ensures r.Ok? <==> MatcherOk(key, value)
    ensures r.Ok? ==> Takes(key, value, m, r.value)
    ensures r != Err(Conflict)
    decreases value, 4
  {
    var form := FormOf(key);
    FormDeterminesPrefix(key);
    match form
    case NameKey(kind) => r := Ok(m.(name := Some(Matcher(kind, value))));
    case DataKey(x, kind) => r := Ok(m.(data := m.data[x := Matcher(kind, value)]));
    case LookupKey(x) =>
      var filter := ParseFilter(value);
      if filter.Err? {
        return Err(BadField);
      }
      r := Ok(m.(filters := m.filters[x := filter.value]));
    case Malformed => r := Err(Unrecognized);
    case Other => assert false;
  }

  /** A subordinate lookup: a single item, a dictionary, or a list. */
  method ParseFilter(v: Json) returns (r: Result<Filter, Error>)
    requires ValidJson(v)
    ensures r.Ok? <==> AcceptsFilter(v)
    ensures r.Ok? ==> IsNormalFilter(v, r.value)
    decreases v, 3
  {
    match v
    case Num(_) => r := Ok(Single(v));
    case Str(_) => r := Ok(Single(v));
    case Null => r := Err(BadField);
    case Obj(_) =>
      var d := NormalizeDict(v);
      r := if d.Ok? then Ok(Multiple([Dict(d.value)])) else Err(BadField);
    case Arr(items) =>
      var elements := ParseElements(items);
      r := if elements.Ok? then Ok(Multiple(elements.value)) else Err(BadField);
  }

  ghost predicate AreNormal(items: seq<Json>, elements: seq<Element>) {
    |elements| == |items| && forall i :: 0 <= i < |elements| ==> IsNormalElement(items[i], elements[i])
  }

  ghost predicate AllAccepted(items: seq<Json>) {
    forall x :: x in items ==> AcceptsElement(x)
  }

  lemma OneMoreAccepted(items: seq<Json>, x: Json)
    requires AllAccepted(items) && AcceptsElement(x)
    ensures AllAccepted(items + [x])
  {
  }

  lemma OneMoreElement(items: seq<Json>, elements: seq<Element>, x: Json, e: Element)
    requires AreNormal(items, elements) && IsNormalElement(x, e)
    ensures AreNormal(items + [x], elements + [e])
  {
  }

  lemma {:induction false} OneMoreNormal(items: seq<Json>, i: nat, elements: seq<Element>, e: Element)
    requires i < |items| && AllAccepted(items[..i]) && AreNormal(items[..i], elements)
    requires AcceptsElement(items[i]) && IsNormalElement(items[i], e)
    ensures AllAccepted(items[..i + 1]) && AreNormal(items[..i + 1], elements + [e])
  {
    hide AllAccepted, AreNormal, AcceptsElement, IsNormalElement;
    assert items[..i + 1] == items[..i] + [items[i]];
    OneMoreAccepted(items[..i], items[i]);
    OneMoreElement(items[..i], elements, items[i], e);
  }

  method ParseElements(items: seq<Json>) returns (r: Result<seq<Element>, Error>)
    requires forall x :: x in items ==> ValidJson(x)
    ensures r.Ok? <==> AllAccepted(items)
    ensures r.Ok? ==> AreNormal(items, r.value)
    decreases items
  {
    var elements: seq<Element> := [];
    for i := 0 to |items|
      invariant AllAccepted(items[..i]) && AreNormal(items[..i], elements)
    {
      var item := items[i];
      assert item in items;
      var e := ParseElement(item);
      if e.Err? {
        return Err(BadField);
      }
      OneMoreNormal(items, i, elements, e.value);
      elements := elements + [e.value];
    }
    assert items[..|items|] == items;
    r := Ok(elements);
  }

  /** One element of a list: a single item or a dictionary. */
  method ParseElement(v: Json) returns (r: Result<Element, Error>)
    requires ValidJson(v)
    ensures r.Ok? <==> AcceptsElement(v)
    ensures r.Ok? ==> IsNormalElement(v, r.value)
    decreases v, 2
  {
    if v.Num? || v.Str? {
      r := Ok(Plain(v));
    } else if v.Obj? {
      var d := NormalizeDict(v);
      r := if d.Ok? then Ok(Dict(d.value)) else Err(BadField);
    } else {
      r := Err(BadField);
    }
  }

  /** A dictionary is accepted, and normalized, if and only if no two keys clash, every key is well formed, and
      every value fits. A conflict is reported if and only if nothing else is wrong before it. */
  method NormalizeDict(v: Json) returns (r: Result<LookupDict, Error>)
    requires v.Obj? && ValidJson(v)
    ensures r.Ok? <==> AcceptsDict(v)
    ensures r.Ok? ==> IsNormal(v, r.value)
    ensures r == Err(Conflict) <==> ConflictComesFirst(ToMap(v.fields))
    decreases v, 1
  {
    AcceptsByParts(v);
    var matchers := NormalizeMatchers(v);
    if matchers.Err? {
      return Err(matchers.error);
    }
    var (m, rest) := matchers.value;
    if !PlainOk(rest) {
      NoConflictWhenOk(ToMap(v.fields));
      return Err(BadField);
    }
    NoConflictWhenOk(ToMap(v.fields));
    BuildIsNormal(v, m);
    r := Ok(Build(rest, m));
  }

  lemma NoConflictWhenOk(values: map<string, Json>)
    requires ClashFree(values.Keys)
    ensures !ConflictComesFirst(values)
  {
  }

  /** Deals with the group of the keys from `i` to `j`. */
  method NormalizeGroup(v: Json, keys: seq<string>, i: nat, j: nat, m: Matchers, rest: map<string, Json>)
    returns (r: Result<(Matchers, map<string, Json>), Error>)
    requires v.Obj? && ValidJson(v) && SortedKeys(keys, ToMap(v.fields)) && LoopInv(keys, ToMap(v.fields), i, m, rest)
    requires i < j <= |keys| && GroupStart(keys, j)
    requires forall k :: i <= k < j ==> MatcherPrefix(keys[k]) == MatcherPrefix(keys[i])
    ensures r.Ok? ==> LoopInv(keys, ToMap(v.fields), j, r.value.0, r.value.1)
    ensures r.Err? ==> !MatchersOk(ToMap(v.fields), ToMap(v.fields).Keys)
    ensures r.Err? ==> (r.error == Conflict <==> ConflictComesFirst(ToMap(v.fields)))
    decreases v, 0, 0
  {
    var values := ToMap(v.fields);
    if MatcherPrefix(keys[i]) == [] {
      OthersSkipped(keys, values, i, j, m, rest);
      return Ok((m, rest));
    }
    if j - i > 1 {
      ConflictFound(keys, values, i, m, rest);
      return Err(Conflict);
    }
    var key := keys[i];
    assert key in Members(keys);
    assert (key, values[key]) in v.fields;
    var taken := NormalizeMatcher(key, values[key], m);
    if taken.Err? {
      KeyRejected(keys, values, i, m, rest);
      return Err(taken.error);
    }
    GroupIsLone(keys, i);
    MatcherTaken(values, Members(keys[..i]), key, m, taken.value);
    KeyTaken(keys, values, i, m, taken.value, rest);
    r := Ok((taken.value, rest - {key}));
  }

  /** Sorts and groups the keys, and turns every group into a matcher or a subordinate lookup. */
  method NormalizeMatchers(v: Json) returns (r: Result<(Matchers, map<string, Json>), Error>)
    requires v.Obj? && ValidJson(v)
    ensures r.Ok? <==> MatchersOk(ToMap(v.fields), ToMap(v.fields).Keys)
    ensures r.Ok? ==> MatchersInv(ToMap(v.fields), ToMap(v.fields).Keys, r.value.0)
    ensures r.Ok? ==> r.value.1 == Remaining(ToMap(v.fields), ToMap(v.fields).Keys)
    ensures r == Err(Conflict) <==> ConflictComesFirst(ToMap(v.fields))
    decreases v, 0, 1
  {
    var values := ToMap(v.fields);
    var keys := SortByPrefix(KeysOf(v.fields));
    KeysOfMap(v);
    NothingTaken(keys, values);
    var m, rest, i := Matchers(None, map[], map[]), values, 0;
    while i < |keys|
      invariant SortedKeys(keys, values) && LoopInv(keys, values, i, m, rest)
    {
      var j := GroupEnd(keys, i);
      var group := NormalizeGroup(v, keys, i, j, m, rest);
      if group.Err? {
        return group;
      }
      m, rest, i := group.value.0, group.value.1, j;
    }
    AllTaken(keys, values, m, rest);
    r := Ok((m, rest));
  }

  // ----- which error is reported -----

  /** When nothing else is wrong with the matchers, a conflict is reported exactly when two keys clash. */
  lemma {:induction false} ConflictReported(values: map<string, Json>)
    requires forall k :: k in values ==> MatcherOk(k, values[k])
    ensures ConflictComesFirst(values) <==> !ClashFree(values.Keys)
  {
    if !ClashFree(values.Keys) {
      var k, l :| k in values && l in values && k != l && MatcherPrefix(k) == MatcherPrefix(l) &&
        MatcherPrefix(k) != [];
      assert Clash(values, k, l) && FineBefore(values, k);
    }
  }

  /** In general it is not: here name and name__contains clash, but the malformed data__x__y comes first. */
  lemma {:induction false} ConflictMasked() returns (values: map<string, Json>)
    ensures !ClashFree(values.Keys) && !ConflictComesFirst(values)
  {
    hide SplitWords, ClashFree, ConflictComesFirst;
    var bad, name, contains := "data" + SEP + ("x" + SEP + "y"), "name", "name" + SEP + "contains";
    FirstWord("data", "x" + SEP + "y");
    TwoWords("x", "y");
    OneWord(name);
    TwoWords("name", "contains");
    values := map[bad := Null, name := Null, contains := Null];
    MaskedByData(values, bad, name, contains);
  }

  lemma {:induction false} MaskedByData(values: map<string, Json>, bad: string, name: string, contains: string)
    requires values.Keys == {bad, name, contains} && name != contains
    requires SplitWords(bad) == ["data", "x", "y"] && SplitWords(name) == ["name"] &&
      SplitWords(contains) == ["name", "contains"]
    ensures !ClashFree(values.Keys) && !ConflictComesFirst(values)
  {
    hide MatcherPrefix, MatcherOk, PrefixLeq, SplitWords, FineBefore, Clash;
    PrefixesOfMasked(bad, name, contains);
    MalformedIsNotOk(bad, values[bad]);
    NamesClash(values, bad, name, contains);
    forall k, l | Clash(values, k, l)
      ensures !FineBefore(values, k)
    {
      NotFine(values, bad, k);
    }
  }

  lemma {:induction false} NamesClash(values: map<string, Json>, bad: string, name: string, contains: string)
    requires values.Keys == {bad, name, contains} && name != contains
    requires MatcherPrefix(name) == MatcherPrefix(contains) != [] && MatcherPrefix(bad) != MatcherPrefix(name)
    ensures !ClashFree(values.Keys) && forall k, l :: Clash(values, k, l) ==> MatcherPrefix(k) == MatcherPrefix(name)
  {
    hide MatcherPrefix;
  }

  lemma {:induction false} NotFine(values: map<string, Json>, bad: string, k: string)
    requires bad in values && !MatcherOk(bad, values[bad])
    requires MatcherPrefix(bad) != MatcherPrefix(k) && PrefixLeq(MatcherPrefix(bad), MatcherPrefix(k))
    ensures !FineBefore(values, k)
  {
    hide MatcherPrefix, PrefixLeq, MatcherOk;
  }

  lemma MalformedIsNotOk(key: string, v: Json)
    requires SplitWords(key) == ["data", "x", "y"]
    ensures !MatcherOk(key, v)
  {
  }

  lemma {:induction false} PrefixesOfMasked(bad: string, name: string, contains: string)
    requires SplitWords(bad) == ["data", "x", "y"] && SplitWords(name) == ["name"] &&
      SplitWords(contains) == ["name", "contains"]
    ensures MatcherPrefix(bad) == ["data", "x"] && MatcherPrefix(name) == MatcherPrefix(contains) == ["name"]
    ensures PrefixLeq(MatcherPrefix(bad), MatcherPrefix(name)) && MatcherPrefix(bad) != MatcherPrefix(name)
  {
    assert "data"[0] == 'd' && "name"[0] == 'n';
  }
}
