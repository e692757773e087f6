/** Lookups of environments: a lookup string has segments separated by slashes, a match segment has
    filters separated by colons, and a filter is a key and a value around the first equals sign. Missing
    filters are filled in before the lookup is tried. */
module Environments {
  import opened Outcomes
  import opened Strings

  /** A dictionary in insertion order. */
  type Filters = seq<(string, string)>

  datatype Segment = Segment(lookupType: string, filters: Filters)

  datatype Category = Tarball | Image

  datatype Lookup = ById(id: int) | ByString(s: string)

  datatype Error = MalformedFilter | NoImageCategory | KeyError

  // ----- dictionaries -----

  predicate HasKey(d: Filters, key: string) {
    exists i :: 0 <= i < |d| && d[i].0 == key
  }

  predicate DistinctKeys(d: Filters) {
    forall i, j :: 0 <= i < j < |d| ==> d[i].0 != d[j].0
  }

  /** Setting a key keeps the position that it has. */
  function Set(d: Filters, key: string, value: string): Filters {
    if d == [] then [(key, value)]
    else if d[0].0 == key then [(key, value)] + d[1..]
    else [d[0]] + Set(d[1..], key, value)
  }

  function SetDefault(d: Filters, key: string, value: string): (d': Filters)
    ensures d <= d' && (d' == d <==> HasKey(d, key)) && (d' != d ==> d' == d + [(key, value)])
    ensures DistinctKeys(d) ==> DistinctKeys(d')
  {
    if HasKey(d, key) then d else d + [(key, value)]
  }

  lemma {:induction false} SetNew(d: Filters, key: string, value: string)
    requires !HasKey(d, key)
    ensures Set(d, key, value) == d + [(key, value)]
  {
    if d != [] {
      assert forall i :: 0 <= i < |d[1..]| ==> d[1..][i] == d[i + 1];
      SetNew(d[1..], key, value);
      assert d == [d[0]] + d[1..];
    }
  }

  lemma {:induction false} SetMembers(d: Filters, key: string, value: string)
    requires DistinctKeys(d)
    ensures DistinctKeys(Set(d, key, value))
    ensures forall p :: p in Set(d, key, value) ==> p in d || p == (key, value)
    ensures forall i :: 0 <= i < |Set(d, key, value)| ==>
      HasKey(d, Set(d, key, value)[i].0) || Set(d, key, value)[i].0 == key
  {
    if d != [] && d[0].0 != key {
      SetMembers(d[1..], key, value);
      var tail := Set(d[1..], key, value);
      forall i | 0 <= i < |tail|
        ensures tail[i].0 != d[0].0 && (HasKey(d, tail[i].0) || tail[i].0 == key)
      {
        if HasKey(d[1..], tail[i].0) {
          var k :| 0 <= k < |d[1..]| && d[1..][k].0 == tail[i].0;
          assert d[k + 1].0 == tail[i].0;
        }
      }
    }
  }

  // ----- parsing and building -----

  function ParseItem(item: string): Option<(string, string)> {
    var i := IndexOf(item, "=");
    if i == |item| then None else Some((item[..i], item[i + 1..]))
  }

  function ParseItems(items: seq<string>): Option<Filters> {
    if items == [] then Some([])
    else
      var front, last := ParseItems(items[..|items| - 1]), ParseItem(items[|items| - 1]);
      if front.None? || last.None? then None else Some(Set(front.value, last.value.0, last.value.1))
  }

  function ParseSegment(segment: string): Option<Segment> {
    var words := Split(segment, ":");
    var filters := ParseItems(words[1..]);
    if filters.None? then None else Some(Segment(words[0], filters.value))
  }

  function BuildItems(filters: Filters): seq<string> {
    seq(|filters|, i requires 0 <= i < |filters| => filters[i].0 + "=" + filters[i].1)
  }

  function BuildSegment(segment: Segment): string {
    segment.lookupType + ":" + Join(BuildItems(segment.filters), ":")
  }

  /** A lookup of two segments, the second one with filters. */
  function Parse(s: string): Option<(string, Segment)> {
    var segments := Split(s, "/");
    if |segments| != 2 || ParseSegment(segments[1]).None? then None
    else Some((segments[0], ParseSegment(segments[1]).value))
  }

  function Build(collection: string, segment: Segment): string {
    Join([collection, BuildSegment(segment)], "/")
  }

  /** A pair that survives being built and parsed. */
  predicate CleanPair(p: (string, string)) {
    ':' !in p.0 && '/' !in p.0 && '=' !in p.0 && ':' !in p.1 && '/' !in p.1
  }

  predicate Clean(filters: Filters) {
    forall i :: 0 <= i < |filters| ==> CleanPair(filters[i])
  }

  lemma {:induction false} ParseOfBuildItem(p: (string, string))
    requires '=' !in p.0
    ensures ParseItem(p.0 + "=" + p.1) == Some(p)
  {
    IndexOfChar(p.0, '=', p.1);
    var item := p.0 + "=" + p.1;
    assert item[..|p.0|] == p.0 && item[|p.0| + 1..] == p.1;
  }

  lemma {:induction false} ParsedItemIsClean(item: string)
    requires ParseItem(item).Some? && ':' !in item && '/' !in item
    ensures CleanPair(ParseItem(item).value)
  {
    var i := IndexOf(item, "=");
    forall k | 0 <= k < i
      ensures item[k] != '='
    {
      assert item[k..][..1] == [item[k]];
    }
    assert forall c :: c in item[..i] || c in item[i + 1..] ==> c in item;
  }

  lemma {:induction false} BuildOneMore(front: Filters, last: (string, string))
    ensures BuildItems(front + [last]) == BuildItems(front) + [last.0 + "=" + last.1]
  {
    assert (front + [last])[..|front|] == front;
  }

  lemma {:induction false} ParseOneMore(items: seq<string>, front: Filters, last: (string, string))
    requires ParseItems(items) == Some(front) && ParseItem(last.0 + "=" + last.1) == Some(last)
    ensures ParseItems(items + [last.0 + "=" + last.1]) == Some(Set(front, last.0, last.1))
  {
    var all := items + [last.0 + "=" + last.1];
    assert all[..|all| - 1] == items;
  }

  lemma {:induction false} ParseOfBuildItems(filters: Filters)
    requires Clean(filters) && DistinctKeys(filters)
    ensures ParseItems(BuildItems(filters)) == Some(filters)
  {
    if filters != [] {
      var front, last := filters[..|filters| - 1], filters[|filters| - 1];
      ParseOfBuildItems(front);
      ParseOfBuildItem(last);
      assert forall i :: 0 <= i < |front| ==> front[i].0 != last.0;
      SetNew(front, last.0, last.1);
      assert filters == front + [last];
      BuildOneMore(front, last);
      ParseOneMore(BuildItems(front), front, last);
    }
  }

  lemma {:induction false} JoinLacks(words: seq<string>, sep: string, c: char)
    requires c !in sep && forall w :: w in words ==> c !in w
    ensures c !in Join(words, sep)
  {
    if |words| > 1 {
      JoinLacks(words[1..], sep, c);
    }
  }

  lemma {:induction false} ParseOfBuildSegment(segment: Segment)
    requires ':' !in segment.lookupType && segment.filters != [] && Clean(segment.filters) &&
      DistinctKeys(segment.filters)
    ensures ParseSegment(BuildSegment(segment)) == Some(segment)
    ensures '/' !in segment.lookupType ==> '/' !in BuildSegment(segment)
  {
    var items := BuildItems(segment.filters);
    var words := [segment.lookupType] + items;
    assert words[1..] == items;
    assert BuildSegment(segment) == Join(words, ":");
    assert forall w :: w in items ==> ':' !in w && '/' !in w;
    SplitOfJoin(words, ':');
    ParseOfBuildItems(segment.filters);
    JoinLacks(items, ":", '/');
  }

  lemma {:induction false} ParsedItemsAreClean(items: seq<string>)
    requires ParseItems(items).Some? && forall w :: w in items ==> ':' !in w && '/' !in w
    ensures DistinctKeys(ParseItems(items).value)
    ensures forall p :: p in ParseItems(items).value ==> CleanPair(p)
  {
    if items != [] {
      var last := items[|items| - 1];
      ParsedItemsAreClean(items[..|items| - 1]);
      SetMembers(ParseItems(items[..|items| - 1]).value, ParseItem(last).value.0, ParseItem(last).value.1);
      ParsedItemIsClean(last);
    }
  }

  lemma {:induction false} ParsedIsClean(s: string)
    requires Parse(s).Some?
    ensures '/' !in Parse(s).value.0 && Clean(Parse(s).value.1.filters) && DistinctKeys(Parse(s).value.1.filters)
  {
    var segments := Split(s, "/");
    SplitPieces(s, '/');
    var words := Split(segments[1], ":");
    SplitPieces(segments[1], ':');
    JoinOfSplit(segments[1], ":");
    forall w | w in words
      ensures '/' !in w
    {
      PieceIsPart(words, ":", w);
    }
    ParsedItemsAreClean(words[1..]);
    assert forall p :: p in Parse(s).value.1.filters ==> CleanPair(p);
  }

  lemma {:induction false} PieceIsPart(words: seq<string>, sep: string, w: string)
    requires w in words
    ensures forall c :: c in w ==> c in Join(words, sep)
  {
    if |words| > 1 && w != words[0] {
      PieceIsPart(words[1..], sep, w);
    }
  }

  /** Building and parsing give the filters back exactly if no key or value holds a separator. */
  lemma {:induction false} ParseOfBuildExactly(collection: string, filters: Filters)
    requires '/' !in collection && filters != [] && DistinctKeys(filters)
    ensures Parse(Build(collection, Segment("match", filters))) == Some((collection, Segment("match", filters))) <==>
      Clean(filters)
  {
    var segment := Segment("match", filters);
    if Clean(filters) {
      ParseOfBuildSegment(segment);
      SplitOfJoin([collection, BuildSegment(segment)], '/');
    }
    if Parse(Build(collection, segment)) == Some((collection, segment)) {
      ParsedIsClean(Build(collection, segment));
    }
  }

  // ----- getting an environment -----

  /** What is known about the environment, in the order in which it is filled in. */
  function Known(architecture: Option<string>, category: Category, backend: Option<string>): Filters {
    (if architecture.Some? then [("architecture", architecture.value)] else []) +
    [("format", match category case Tarball => "tarball" case Image => "image")] +
    (if backend.Some? then [("backend", backend.value)] else [])
  }

  /** The pairs of `known` whose key is missing. */
  function Missing(filters: Filters, known: Filters): Filters {
    if known == [] then []
    else (if HasKey(filters, known[0].0) then [] else [known[0]]) + Missing(filters, known[1..])
  }

  /** The filters that are looked up: what the caller gave, unchanged, and then what was missing. */
  function Complete(filters: Filters, architecture: Option<string>, category: Category,
                    backend: Option<string>): Filters
  {
    filters + Missing(filters, Known(architecture, category, backend))
  }

  lemma {:induction false} MissingOne(filters: Filters, key: string, value: Option<string>)
    ensures Missing(filters, if value.Some? then [(key, value.value)] else []) ==
      if value.Some? && !HasKey(filters, key) then [(key, value.value)] else []
  {
    hide HasKey;
    if value.Some? {
      assert [(key, value.value)][1..] == [];
    }
  }

  /** Each of the three keys is filled in with its value, in this order, if it is known and not given. */
  lemma {:induction false} CompleteIs(given: Filters, architecture: Option<string>, category: Category,
                                      backend: Option<string>)
    ensures Complete(given, architecture, category, backend) == given
      + (if architecture.Some? && !HasKey(given, "architecture") then [("architecture", architecture.value)] else [])
      + (if HasKey(given, "format") then []
         else [("format", match category case Tarball => "tarball" case Image => "image")])
      + (if backend.Some? && !HasKey(given, "backend") then [("backend", backend.value)] else [])
  {
    hide Missing, HasKey, Known;
    var format := match category case Tarball => "tarball" case Image => "image";
    MissingThree(given, architecture, category, backend);
    MissingOne(given, "architecture", architecture);
    MissingOne(given, "format", Some(format));
    MissingOne(given, "backend", backend);
    var a :=
      if architecture.Some? && !HasKey(given, "architecture") then [("architecture", architecture.value)] else [];
    var b := if HasKey(given, "format") then [] else [("format", format)];
    var c := if backend.Some? && !HasKey(given, "backend") then [("backend", backend.value)] else [];
    assert given + (a + b + c) == given + a + b + c;
  }

  lemma {:induction false} MissingThree(given: Filters, architecture: Option<string>, category: Category,
                                        backend: Option<string>)
    ensures Missing(given, Known(architecture, category, backend)) ==
      Missing(given, if architecture.Some? then [("architecture", architecture.value)] else [])
      + Missing(given, [("format", match category case Tarball => "tarball" case Image => "image")])
      + Missing(given, if backend.Some? then [("backend", backend.value)] else [])
  {
    hide Missing;
    var a := if architecture.Some? then [("architecture", architecture.value)] else [];
    var b := [("format", match category case Tarball => "tarball" case Image => "image")];
    var c := if backend.Some? then [("backend", backend.value)] else [];
    MissingConcat(given, a + b, c);
    MissingConcat(given, a, b);
  }

  lemma {:induction false} MissingMembers(filters: Filters, known: Filters)
    requires DistinctKeys(known)
    ensures forall p :: p in Missing(filters, known) <==> p in known && !HasKey(filters, p.0)
    ensures DistinctKeys(filters) ==> DistinctKeys(filters + Missing(filters, known))
  {
    if known != [] {
      MissingMembers(filters, known[1..]);
      assert known == [known[0]] + known[1..];
      var rest := Missing(filters, known[1..]);
      assert forall i :: 0 <= i < |rest| ==> rest[i] in rest;
      if HasKey(filters, known[0].0) {
        assert Missing(filters, known) == rest;
      } else if DistinctKeys(filters) {
        NewKeyInFront(filters, known[0], rest);
      }
    }
  }

  lemma {:induction false} NewKeyInFront(filters: Filters, p: (string, string), rest: Filters)
    requires DistinctKeys(filters + rest) && !HasKey(filters, p.0)
    requires forall i :: 0 <= i < |rest| ==> rest[i].0 != p.0
    ensures DistinctKeys(filters + ([p] + rest))
  {
    var d, d' := filters + rest, filters + ([p] + rest);
    forall i, j | 0 <= i < j < |d'|
      ensures d'[i].0 != d'[j].0
    {
      var n := |filters|;
      if i != n && j != n {
        assert d'[i] == d[if i < n then i else i - 1] && d'[j] == d[if j < n then j else j - 1];
      }
    }
  }

  lemma KnownIsDistinct(architecture: Option<string>, category: Category, backend: Option<string>)
    ensures DistinctKeys(Known(architecture, category, backend))
  {
  }

  lemma {:induction false} MissingLacks(filters: Filters, known: Filters, p: (string, string))
    requires DistinctKeys(known + [p])
    ensures forall i :: 0 <= i < |Missing(filters, known)| ==> Missing(filters, known)[i].0 != p.0
  {
    var missing := Missing(filters, known);
    assert forall i :: 0 <= i < |known| ==>
      (known + [p])[i] == known[i] && (known + [p])[i].0 != (known + [p])[|known|].0;
    MissingMembers(filters, known);
    forall i | 0 <= i < |missing|
      ensures missing[i].0 != p.0
    {
      assert missing[i] in known;
      var k :| 0 <= k < |known| && known[k] == missing[i];
    }
  }

  /** Filling in one more pair. */
  lemma {:induction false} SetDefaultStep(filters: Filters, known: Filters, p: (string, string))
    requires DistinctKeys(known + [p])
    ensures SetDefault(filters + Missing(filters, known), p.0, p.1) == filters + Missing(filters, known + [p])
  {
    MissingLacks(filters, known, p);
    AppendedKeys(filters, Missing(filters, known), p.0);
    MissingConcat(filters, known, [p]);
    MissingOne(filters, p.0, Some(p.1));
    hide Missing, DistinctKeys, HasKey;
  }

  lemma {:induction false} MissingConcat(filters: Filters, a: Filters, b: Filters)
    ensures Missing(filters, a + b) == Missing(filters, a) + Missing(filters, b)
  {
    if a == [] {
      assert a + b == b;
    } else {
      assert (a + b)[1..] == a[1..] + b;
      MissingConcat(filters, a[1..], b);
    }
  }

  lemma {:induction false} AppendedKeys(filters: Filters, more: Filters, key: string)
    requires forall i :: 0 <= i < |more| ==> more[i].0 != key
    ensures HasKey(filters + more, key) <==> HasKey(filters, key)
  {
    if HasKey(filters, key) {
      var i :| 0 <= i < |filters| && filters[i].0 == key;
      assert (filters + more)[i].0 == key;
    }
  }

  /** The filter sets that are tried, in order: with a variant to prefer, first that one and then none. */
  function Attempts(filters: Filters, tryVariant: Option<string>): seq<Filters> {
    if tryVariant.Some? && !HasKey(filters, "variant")
    then [filters + [("variant", tryVariant.value)], filters + [("variant", "")]]
    else [filters]
  }

  predicate IsMatch(lookup: Lookup) {
    lookup.ByString? && Parse(lookup.s).Some? && Parse(lookup.s).value.1.lookupType == "match"
  }

  /** A value that can be put into a filter without breaking the framing. */
  predicate Framed(value: Option<string>) {
    value.None? || (':' !in value.value && '/' !in value.value)
  }

  ghost predicate FoundFirst(find: Lookup -> Option<nat>, tried: seq<Lookup>, r: Result<nat, Error>) {
    match r
    case Ok(artifact) =>
      exists i :: 0 <= i < |tried| && find(tried[i]) == Some(artifact) &&
        forall k :: 0 <= k < i ==> find(tried[k]).None?
    case Err(error) =>
      error == KeyError && forall i :: 0 <= i < |tried| ==> find(tried[i]).None?
  }

  /** The filters are filled in one after the other. */
  method CompleteFilters(given: Filters, architecture: Option<string>, category: Category, backend: Option<string>)
    returns (filters: Filters)
    ensures filters == Complete(given, architecture, category, backend)
  {
    filters := given;
    ghost var known: Filters := [];
    assert given + Missing(given, []) == given;
    if architecture.Some? {
      SetDefaultStep(given, known, ("architecture", architecture.value));
      filters := SetDefault(filters, "architecture", architecture.value);
      known := known + [("architecture", architecture.value)];
    }
    var format := match category case Tarball => "tarball" case Image => "image";
    SetDefaultStep(given, known, ("format", format));
    filters := SetDefault(filters, "format", format);
    known := known + [("format", format)];
    if backend.Some? {
      SetDefaultStep(given, known, ("backend", backend.value));
      filters := SetDefault(filters, "backend", backend.value);
      known := known + [("backend", backend.value)];
    }
    assert known == Known(architecture, category, backend);
  }

  method BuildLookups(collection: string, filters: Filters, tryVariant: Option<string>) returns (lookups: seq<Lookup>)
    ensures
      if tryVariant.Some? && forall i :: 0 <= i < |filters| ==> filters[i].0 != "variant"
      then lookups == [ByString(Build(collection, Segment("match", filters + [("variant", tryVariant.value)]))),
                       ByString(Build(collection, Segment("match", filters + [("variant", "")])))]
      else lookups == [ByString(Build(collection, Segment("match", filters)))]
    ensures |lookups| == |Attempts(filters, tryVariant)|
    ensures forall i :: 0 <= i < |lookups| ==>
      lookups[i] == ByString(Build(collection, Segment("match", Attempts(filters, tryVariant)[i])))
  {
    hide Build;
    if tryVariant.Some? && !HasKey(filters, "variant") {
      var variants := [tryVariant.value, ""];
      lookups := [];
      for i := 0 to |variants|
        invariant |lookups| == i
        invariant forall k :: 0 <= k < i ==>
          lookups[k] == ByString(Build(collection, Segment("match", filters + [("variant", variants[k])])))
      {
        lookups := lookups + [ByString(Build(collection, Segment("match", filters + [("variant", variants[i])])))];
      }
    } else {
      lookups := [ByString(Build(collection, Segment("match", filters)))];
    }
  }

  /** All but the last lookup may fail. */
  method TryLookups(lookups: seq<Lookup>, find: Lookup -> Option<nat>) returns (r: Result<nat, Error>)
    requires lookups != []
    ensures FoundFirst(find, lookups, r)
  {
    for i := 0 to |lookups| - 1
      invariant forall k :: 0 <= k < i ==> find(lookups[k]).None?
    {
      var found := find(lookups[i]);
      if found.Some? {
        return Ok(found.value);
      }
    }
    var found := find(lookups[|lookups| - 1]);
    r := if found.Some? then Ok(found.value) else Err(KeyError);
  }

  method GetEnvironment(lookup: Lookup, architecture: Option<string>, backend: Option<string>,
                        imageCategory: Option<Category>, executorCategory: string -> Category,
                        tryVariant: Option<string>, find: Lookup -> Option<nat>)
    returns (r: Result<nat, Error>, ghost tried: seq<Lookup>)
    ensures r == Err(MalformedFilter) <==>
      lookup.ByString? && |Split(lookup.s, "/")| == 2 && Parse(lookup.s).None?
    ensures r == Err(NoImageCategory) <==> IsMatch(lookup) && imageCategory.None? && backend.None?
    ensures r.Ok? || r.error == KeyError ==> FoundFirst(find, tried, r)
    ensures !IsMatch(lookup) && (r.Ok? || r.error == KeyError) ==> tried == [lookup]
    ensures IsMatch(lookup) && (imageCategory.Some? || backend.Some?) ==>
      var category := if imageCategory.Some? then imageCategory.value else executorCategory(backend.value);
      var (collection, segment) := Parse(lookup.s).value;
      var filters := Complete(segment.filters, architecture, category, backend);
      if tryVariant.Some? && forall i :: 0 <= i < |filters| ==> filters[i].0 != "variant"
      then tried == [ByString(Build(collection, Segment("match", filters + [("variant", tryVariant.value)]))),
                     ByString(Build(collection, Segment("match", filters + [("variant", "")])))]
      else tried == [ByString(Build(collection, Segment("match", filters)))]
    ensures tried != [] && find(tried[0]).Some? ==> r == Ok(find(tried[0]).value)
  {
    tried := [];
    var lookups := [lookup];
    if lookup.ByString? && |Split(lookup.s, "/")| == 2 {
      if Parse(lookup.s).None? {
        return Err(MalformedFilter), tried;
      }
      var (collection, segment) := Parse(lookup.s).value;
      if segment.lookupType == "match" {
        var category := imageCategory;
        if category.None? && backend.Some? {
          category := Some(executorCategory(backend.value));
        }
        if category.None? {
          return Err(NoImageCategory), tried;
        }
        var filters := CompleteFilters(segment.filters, architecture, category.value, backend);
        lookups := BuildLookups(collection, filters, tryVariant);
      }
    }
    tried := lookups;
    r := TryLookups(lookups, find);
  }

  /** The variant that an attempt adds, if any. */
  predicate AddsVariant(filters: Filters, tryVariant: Option<string>) {
    tryVariant.Some? && !HasKey(filters, "variant")
  }

  /** An attempt starts with the caller's filters and adds only keys that they do not have. */
  lemma {:induction false} AttemptAdds(given: Filters, architecture: Option<string>, category: Category,
                                       backend: Option<string>, tryVariant: Option<string>, attempt: Filters)
    requires DistinctKeys(given)
    requires attempt in Attempts(Complete(given, architecture, category, backend), tryVariant)
    ensures given <= attempt && attempt != [] && DistinctKeys(attempt)
    ensures forall p :: p in attempt[|given|..] ==>
      p.0 in {"architecture", "format", "backend", "variant"} && !HasKey(given, p.0)
  {
    var known := Known(architecture, category, backend);
    var filters := Complete(given, architecture, category, backend);
    var missing := Missing(given, known);
    KnownIsDistinct(architecture, category, backend);
    MissingMembers(given, known);
    FormatIsThere(given, architecture, category, backend);
    assert filters[|given|..] == missing;
    if attempt != filters {
      assert attempt == filters + [attempt[|filters|]];
      assert attempt[|given|..] == missing + [attempt[|filters|]];
      assert forall k :: HasKey(given, k) ==> HasKey(filters, k) by {
        assert forall i :: 0 <= i < |given| ==> filters[i] == given[i];
      }
    }
  }

  lemma {:induction false} FormatIsThere(given: Filters, architecture: Option<string>, category: Category,
                                         backend: Option<string>)
    ensures Complete(given, architecture, category, backend) != []
  {
    var known := Known(architecture, category, backend);
    KnownIsDistinct(architecture, category, backend);
    MissingMembers(given, known);
    var format := ("format", if category.Tarball? then "tarball" else "image");
    assert format in known;
    if !HasKey(given, "format") {
      assert format in Missing(given, known);
    }
  }

  lemma {:induction false} CleanConcat(a: Filters, b: Filters)
    ensures Clean(a + b) <==> Clean(a) && Clean(b)
  {
    assert forall i :: 0 <= i < |a| ==> (a + b)[i] == a[i];
    assert forall i :: 0 <= i < |b| ==> (a + b)[|a| + i] == b[i];
  }

  lemma {:induction false} AttemptsClean(given: Filters, missing: Filters, tryVariant: Option<string>)
    requires Clean(given)
    ensures var attempts := Attempts(given + missing, tryVariant);
      (forall i :: 0 <= i < |attempts| ==> Clean(attempts[i])) <==>
      (Clean(missing) && (AddsVariant(given + missing, tryVariant) ==> Framed(tryVariant)))
  {
    CleanConcat(given, missing);
    var attempts := Attempts(given + missing, tryVariant);
    if AddsVariant(given + missing, tryVariant) {
      CleanConcat(given + missing, [("variant", tryVariant.value)]);
      CleanConcat(given + missing, [("variant", "")]);
      assert attempts == [given + missing + [("variant", tryVariant.value)], given + missing + [("variant", "")]];
      assert attempts[0] == given + missing + [("variant", tryVariant.value)];
      assert [("variant", tryVariant.value)][0] == ("variant", tryVariant.value);
    } else {
      assert attempts == [given + missing] && attempts[0] == given + missing;
    }
  }

  /** Every lookup that is tried for a match parses back to the caller's collection and to the filters that
      were meant, exactly if the values that were added hold no separator. */
  lemma {:induction false} AttemptsParseBack(s: string, architecture: Option<string>, category: Category,
                                             backend: Option<string>, tryVariant: Option<string>)
    requires IsMatch(ByString(s))
    ensures var (collection, segment) := Parse(s).value;
      var filters := Complete(segment.filters, architecture, category, backend);
      (forall attempt :: attempt in Attempts(filters, tryVariant) ==>
        Parse(Build(collection, Segment("match", attempt))) == Some((collection, Segment("match", attempt)))) <==>
      (Clean(Missing(segment.filters, Known(architecture, category, backend))) &&
        (AddsVariant(filters, tryVariant) ==> Framed(tryVariant)))
  {
    var (collection, segment) := Parse(s).value;
    ParsedIsClean(s);
    var filters := Complete(segment.filters, architecture, category, backend);
    var attempts := Attempts(filters, tryVariant);
    AttemptsClean(segment.filters, Missing(segment.filters, Known(architecture, category, backend)), tryVariant);
    forall attempt | attempt in attempts
      ensures Parse(Build(collection, Segment("match", attempt))) == Some((collection, Segment("match", attempt))) <==>
        Clean(attempt)
    {
      AttemptAdds(segment.filters, architecture, category, backend, tryVariant, attempt);
      ParseOfBuildExactly(collection, attempt);
    }
    assert forall i :: 0 <= i < |attempts| ==> attempts[i] in attempts;
  }
}
