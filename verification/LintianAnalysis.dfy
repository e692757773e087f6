/** Summaries of lintian's tags for each architecture, and whether a run of lintian succeeded. */
module LintianAnalysis {
  import opened Outcomes
  import opened Strings
  import opened LintianReport

  // ----- order of severities -----

  /** Higher is worse. */
  function Level(s: Severity): nat {
    match s
    case Error => 7
    case Warning => 6
    case Info => 5
    case Pedantic => 4
    case Experimental => 3
    case Overridden => 2
    case Classification => 1
    case Masked => 0
  }

  /** From the worst to the mildest. */
  const SEVERITIES := [Error, Warning, Info, Pedantic, Experimental, Overridden, Classification, Masked]

  ghost predicate Worse(s: Severity, t: Severity) {
    exists i, j :: 0 <= i < j < |SEVERITIES| && SEVERITIES[i] == s && SEVERITIES[j] == t
  }

  lemma LevelAt(i: nat)
    requires i < |SEVERITIES|
    ensures |SEVERITIES| == 8 && Level(SEVERITIES[i]) == 7 - i
  {
  }

  lemma AtLevel(s: Severity)
    ensures |SEVERITIES| == 8 && Level(s) <= 7 && SEVERITIES[7 - Level(s)] == s
  {
  }

  /** The levels number the severities from the mildest to the worst. */
  lemma {:induction false} LevelsAreInOrder(s: Severity, t: Severity)
    ensures Level(s) > Level(t) <==> Worse(s, t)
    ensures Level(s) == Level(t) <==> s == t
  {
    AtLevel(s);
    AtLevel(t);
    hide Level;
    if Worse(s, t) {
      var i, j :| 0 <= i < j < |SEVERITIES| && SEVERITIES[i] == s && SEVERITIES[j] == t;
      LevelAt(i);
      LevelAt(j);
    }
  }

  /** A run succeeds unless a tag is at least as severe as `failOn`; None is the choice never to fail. */
  method TaskSucceeded(failOn: Option<Severity>, tags: seq<Tag>) returns (ok: bool)
    ensures ok <==> (failOn.Some? ==> forall t :: t in tags ==> Worse(failOn.value, t.severity))
  {
    if failOn.Some? {
      forall t | t in tags
        ensures Worse(failOn.value, t.severity) <==> Level(t.severity) < Level(failOn.value)
      {
        LevelsAreInOrder(failOn.value, t.severity);
      }
    }
    hide Worse;
    if failOn.None? {
      return true;
    }
    for i := 0 to |tags|
      invariant forall t :: t in tags[..i] ==> Level(t.severity) < Level(failOn.value)
    {
      if Level(tags[i].severity) >= Level(failOn.value) {
        return false;
      }
      assert tags[..i + 1] == tags[..i] + [tags[i]];
    }
    assert tags[..|tags|] == tags;
    ok := true;
  }

  // ----- one analysis -----

  const SOURCE_SUFFIX := " source"

  function WithoutSource(package: string): (name: string)
    ensures package == name || package == name + " source"
    ensures |package| >= 7 && package[|package| - 7..] == " source" ==> name != package
  {
    if |SOURCE_SUFFIX| <= |package| && package[|package| - |SOURCE_SUFFIX|..] == SOURCE_SUFFIX
    then package[..|package| - |SOURCE_SUFFIX|] else package
  }

  datatype Analysis = Analysis(
    tags: seq<Tag>,
    countBySeverity: map<Severity, nat>,
    packageFilename: map<string, string>,
    tagsFound: set<string>,
    overriddenFound: set<string>)

  /** The severities that are shown to the user. */
  const SHOWN := {Error, Warning, Info, Pedantic, Experimental, Overridden, Classification}

  function NoCounts(): map<Severity, nat> {
    map s | s in SHOWN :: 0
  }

  /** The tags of the packages, in order. */
  function TagsOf(tags: seq<Tag>, packages: set<string>): seq<Tag> {
    if tags == [] then []
    else
      var n := |tags| - 1;
      var front := TagsOf(tags[..n], packages);
      if tags[n].package in packages then front + [tags[n].(package := WithoutSource(tags[n].package))] else front
  }

  function CountOf(tags: seq<Tag>, s: Severity): nat {
    if tags == [] then 0
    else CountOf(tags[..|tags| - 1], s) + if tags[|tags| - 1].severity == s then 1 else 0
  }

  function Total(counts: map<Severity, nat>): int
    requires counts.Keys == SHOWN
  {
    counts[Error] + counts[Warning] + counts[Info] + counts[Pedantic] + counts[Experimental] + counts[Overridden]
    + counts[Classification]
  }

  /** What the analysis of some tags, which are those of the chosen packages, says. */
  ghost predicate Describes(a: Analysis, tags: seq<Tag>) {
    && a.tags == tags
    && a.countBySeverity.Keys == SHOWN && (forall s :: s in SHOWN ==> a.countBySeverity[s] == CountOf(tags, s))
    && (forall name :: name in a.tagsFound <==> exists t :: t in tags && t.name == name && t.severity != Overridden)
    && (forall name :: name in a.overriddenFound <==>
         exists t :: t in tags && t.name == name && t.severity == Overridden)
  }

  /** Every tag is counted once. */
  lemma {:induction false} CountsAddUp(tags: seq<Tag>, counts: map<Severity, nat>)
    requires NoMasked(tags) && counts.Keys == SHOWN && forall s :: s in SHOWN ==> counts[s] == CountOf(tags, s)
    ensures Total(counts) == |tags|
    decreases tags
  {
    if tags != [] {
      var n := |tags| - 1;
      var before := map s | s in SHOWN :: CountOf(tags[..n], s);
      CountsAddUp(tags[..n], before);
      assert tags[n] in tags;
    }
  }

  /** The tags of the packages and no others, without the suffix. */
  lemma {:induction false} TagsOfExactly(tags: seq<Tag>, packages: set<string>)
    ensures forall t :: t in TagsOf(tags, packages) <==>
      exists x :: x in tags && x.package in packages && t == x.(package := WithoutSource(x.package))
  {
    if tags != [] {
      var n := |tags| - 1;
      assert tags == tags[..n] + [tags[n]];
      TagsOfExactly(tags[..n], packages);
    }
  }

  // ----- dividing the tags among architectures -----

  ghost predicate Known(architectures: map<string, set<string>>, archs: seq<string>) {
    forall a :: a in archs ==> a in architectures
  }

  /** How many of the architectures have the package. */
  function Hits(package: string, architectures: map<string, set<string>>, archs: seq<string>): nat
    requires Known(architectures, archs)
  {
    if archs == [] then 0
    else (if package in architectures[archs[0]] then 1 else 0) + Hits(package, architectures, archs[1..])
  }

  function PackagesOf(architectures: map<string, set<string>>, archs: seq<string>): set<string>
    requires Known(architectures, archs)
  {
    if archs == [] then {} else architectures[archs[0]] + PackagesOf(architectures, archs[1..])
  }

  /** How many tags there are for the architectures together. */
  function TagsInAll(tags: seq<Tag>, architectures: map<string, set<string>>, archs: seq<string>): nat
    requires Known(architectures, archs)
  {
    if archs == [] then 0
    else |TagsOf(tags, architectures[archs[0]])| + TagsInAll(tags, architectures, archs[1..])
  }

  lemma {:induction false} HitsExactly(package: string, architectures: map<string, set<string>>, archs: seq<string>)
    requires Known(architectures, archs)
    ensures Hits(package, architectures, archs) > 0 <==> package in PackagesOf(architectures, archs)
  {
    if archs != [] {
      HitsExactly(package, architectures, archs[1..]);
    }
  }

  lemma {:induction false} TagsOfMore(tags: seq<Tag>, t: Tag, packages: set<string>)
    ensures |TagsOf(tags + [t], packages)| == |TagsOf(tags, packages)| + if t.package in packages then 1 else 0
  {
    assert (tags + [t])[..|tags|] == tags;
  }

  lemma {:induction false} OneMoreTag(tags: seq<Tag>, t: Tag, architectures: map<string, set<string>>,
                                      archs: seq<string>)
    requires Known(architectures, archs)
    ensures TagsInAll(tags + [t], architectures, archs) ==
      TagsInAll(tags, architectures, archs) + Hits(t.package, architectures, archs)
    decreases archs
  {
    if archs != [] {
      TagsOfMore(tags, t, architectures[archs[0]]);
      OneMoreTag(tags, t, architectures, archs[1..]);
    }
  }

  lemma {:induction false} NoTags(architectures: map<string, set<string>>, archs: seq<string>)
    requires Known(architectures, archs)
    ensures TagsInAll([], architectures, archs) == 0
  {
    if archs != [] {
      NoTags(architectures, archs[1..]);
    }
  }

  /** Together the architectures have each tag of their packages just once, exactly if no tag is for a package that
      several of them have; otherwise they have more. */
  lemma {:induction false} TagsAreDivided(tags: seq<Tag>, architectures: map<string, set<string>>, archs: seq<string>)
    requires Known(architectures, archs)
    ensures
      var all, once := TagsInAll(tags, architectures, archs), |TagsOf(tags, PackagesOf(architectures, archs))|;
      all >= once && (all == once <==> forall t :: t in tags ==> Hits(t.package, architectures, archs) <= 1)
    decreases tags
  {
    if tags == [] {
      NoTags(architectures, archs);
    } else {
      var n := |tags| - 1;
      assert tags == tags[..n] + [tags[n]];
      TagsAreDivided(tags[..n], architectures, archs);
      OneMoreTag(tags[..n], tags[n], architectures, archs);
      TagsOfMore(tags[..n], tags[n], PackagesOf(architectures, archs));
      HitsExactly(tags[n].package, architectures, archs);
    }
  }

  lemma {:induction false} TagsOfKeepsShown(tags: seq<Tag>, packages: set<string>)
    requires NoMasked(tags)
    ensures NoMasked(TagsOf(tags, packages))
  {
    if tags != [] {
      var n := |tags| - 1;
      assert tags == tags[..n] + [tags[n]];
      TagsOfKeepsShown(tags[..n], packages);
    }
  }

  /** Counts one more tag. */
  function Extend(a: Analysis, t: Tag, filename: string): Analysis
    requires t.severity in a.countBySeverity
  {
    Analysis(
      a.tags + [t],
      a.countBySeverity[t.severity := a.countBySeverity[t.severity] + 1],
      a.packageFilename[t.package := filename],
      if t.severity == Overridden then a.tagsFound else a.tagsFound + {t.name},
      if t.severity == Overridden then a.overriddenFound + {t.name} else a.overriddenFound)
  }

  lemma {:induction false} CountMore(tags: seq<Tag>, t: Tag)
    ensures forall s :: CountOf(tags + [t], s) == CountOf(tags, s) + if t.severity == s then 1 else 0
  {
    assert (tags + [t])[..|tags|] == tags;
  }

  lemma {:induction false} DescribesMore(a: Analysis, tags: seq<Tag>, t: Tag, filename: string)
    requires Describes(a, tags) && t.severity in SHOWN
    ensures Describes(Extend(a, t, filename), tags + [t])
  {
    hide CountOf;
    CountMore(tags, t);
    assert forall x :: x in tags + [t] <==> x in tags || x == t;
  }

  /** The names under which the packages of the tags are known, with their files. */
  function FilenamesOf(tags: seq<Tag>, packages: set<string>, filenames: map<string, string>): map<string, string>
    requires packages <= filenames.Keys
  {
    if tags == [] then map[]
    else
      var n := |tags| - 1;
      var front := FilenamesOf(tags[..n], packages, filenames);
      if tags[n].package in packages then front[WithoutSource(tags[n].package) := filenames[tags[n].package]] else front
  }

  ghost predicate AnalysisOf(a: Analysis, parsed: seq<Tag>, packages: set<string>, filenames: map<string, string>)
    requires packages <= filenames.Keys
  {
    Describes(a, TagsOf(parsed, packages)) && a.packageFilename == FilenamesOf(parsed, packages, filenames)
  }

  lemma {:induction false} AnalysisStep(a: Analysis, parsed: seq<Tag>, tag: Tag, packages: set<string>,
                                        filenames: map<string, string>)
    requires packages <= filenames.Keys && AnalysisOf(a, parsed, packages, filenames) && tag.severity in SHOWN
    ensures tag.package !in packages ==> AnalysisOf(a, parsed + [tag], packages, filenames)
    ensures tag.package in packages ==>
      AnalysisOf(Extend(a, tag.(package := WithoutSource(tag.package)), filenames[tag.package]), parsed + [tag],
        packages, filenames)
  {
    assert (parsed + [tag])[..|parsed|] == parsed;
    if tag.package in packages {
      DescribesMore(a, TagsOf(parsed, packages), tag.(package := WithoutSource(tag.package)), filenames[tag.package]);
    }
  }

  /** The analysis of the tags of some packages. As no tag is masked, every severity has a count. */
  method CreateAnalysis(parsed: seq<Tag>, packages: set<string>, filenames: map<string, string>) returns (a: Analysis)
    requires NoMasked(parsed) && packages <= filenames.Keys
    ensures Describes(a, TagsOf(parsed, packages)) && Total(a.countBySeverity) == |a.tags|
    ensures a.packageFilename == FilenamesOf(parsed, packages, filenames)
  {
    a := Analysis([], NoCounts(), map[], {}, {});
    for i := 0 to |parsed|
      invariant AnalysisOf(a, parsed[..i], packages, filenames)
    {
      var tag := parsed[i];
      assert tag in parsed;
      AnalysisStep(a, parsed[..i], tag, packages, filenames);
      assert parsed[..i + 1] == parsed[..i] + [tag];
      if tag.package in packages {
        a := Extend(a, tag.(package := WithoutSource(tag.package)), filenames[tag.package]);
      }
    }
    assert parsed[..|parsed|] == parsed;
    TagsOfKeepsShown(parsed, packages);
    CountsAddUp(a.tags, a.countBySeverity);
  }

  // ----- sorting -----

  /** By package, from the worst severity, by name and by note. */
  predicate TagLeq(a: Tag, b: Tag) {
    if a.package != b.package then Leq(a.package, b.package)
    else if a.severity != b.severity then Level(a.severity) >= Level(b.severity)
    else if a.name != b.name then Leq(a.name, b.name)
    else Leq(a.note, b.note)
  }

  lemma {:induction false} TagLeqTotal(a: Tag, b: Tag)
    ensures TagLeq(a, b) || TagLeq(b, a)
  {
    LeqTotal(a.package, b.package);
    LeqTotal(a.name, b.name);
    LeqTotal(a.note, b.note);
  }

  lemma {:induction false} TagLeqTransitive(a: Tag, b: Tag, c: Tag)
    requires TagLeq(a, b) && TagLeq(b, c)
    ensures TagLeq(a, c)
  {
    if a.package != b.package || b.package != c.package {
      LeqTotal(a.package, a.package);
      LeqTotal(c.package, c.package);
      LeqTransitive(a.package, b.package, c.package);
      if a.package == c.package {
        LeqAntisymmetric(a.package, b.package);
      }
    } else if a.severity != b.severity || b.severity != c.severity {
      if a.severity == c.severity {
        LevelsAreInOrder(a.severity, b.severity);
      }
    } else if a.name != b.name || b.name != c.name {
      LeqTotal(a.name, a.name);
      LeqTotal(c.name, c.name);
      LeqTransitive(a.name, b.name, c.name);
      if a.name == c.name {
        LeqAntisymmetric(a.name, b.name);
      }
    } else {
      LeqTransitive(a.note, b.note, c.note);
    }
  }

  ghost predicate SortedTags(tags: seq<Tag>) {
    forall i, j :: 0 <= i < j < |tags| ==> TagLeq(tags[i], tags[j])
  }

  function InsertTag(tags: seq<Tag>, t: Tag): seq<Tag> {
    if tags == [] then [t]
    else
      var n := |tags| - 1;
      if TagLeq(tags[n], t) then tags + [t] else InsertTag(tags[..n], t) + [tags[n]]
  }

  function SortTags(tags: seq<Tag>): seq<Tag> {
    if tags == [] then [] else InsertTag(SortTags(tags[..|tags| - 1]), tags[|tags| - 1])
  }

  lemma {:induction false} InsertTagMembers(tags: seq<Tag>, t: Tag)
    ensures multiset(InsertTag(tags, t)) == multiset(tags) + multiset{t}
  {
    if tags != [] {
      var n := |tags| - 1;
      assert tags == tags[..n] + [tags[n]];
      InsertTagMembers(tags[..n], t);
    }
  }

  lemma {:induction false} AppendSortedTag(tags: seq<Tag>, t: Tag)
    requires SortedTags(tags) && forall x :: x in multiset(tags) ==> TagLeq(x, t)
    ensures SortedTags(tags + [t])
  {
    forall i | 0 <= i < |tags|
      ensures TagLeq(tags[i], t)
    {
      assert tags[i] in multiset(tags);
    }
  }

  lemma {:induction false} NotAfterLast(tags: seq<Tag>, x: Tag)
    requires SortedTags(tags) && x in multiset(tags)
    ensures TagLeq(x, tags[|tags| - 1])
  {
    var i :| 0 <= i < |tags| && tags[i] == x;
    TagLeqTotal(x, x);
  }

  lemma {:induction false} InsertTagSorts(tags: seq<Tag>, t: Tag)
    requires SortedTags(tags)
    ensures SortedTags(InsertTag(tags, t))
  {
    if tags != [] {
      var n := |tags| - 1;
      if TagLeq(tags[n], t) {
        forall x | x in multiset(tags)
          ensures TagLeq(x, t)
        {
          NotAfterLast(tags, x);
          TagLeqTransitive(x, tags[n], t);
        }
        AppendSortedTag(tags, t);
      } else {
        assert tags == tags[..n] + [tags[n]];
        InsertTagSorts(tags[..n], t);
        InsertTagMembers(tags[..n], t);
        TagLeqTotal(tags[n], t);
        forall x | x in multiset(InsertTag(tags[..n], t))
          ensures TagLeq(x, tags[n])
        {
          if x != t {
            NotAfterLast(tags, x);
          }
        }
        AppendSortedTag(InsertTag(tags[..n], t), tags[n]);
      }
    }
  }

  /** Sorting gives the same tags in order. */
  /** What is compared when tags are sorted. */
  predicate SameKey(a: Tag, b: Tag) {
    a.package == b.package && a.severity == b.severity && a.name == b.name && a.note == b.note
  }

  /** The tags that compare equal to `k`, in their order. */
  function Like(tags: seq<Tag>, k: Tag): seq<Tag> {
    if tags == [] then []
    else Like(tags[..|tags| - 1], k) + if SameKey(tags[|tags| - 1], k) then [tags[|tags| - 1]] else []
  }

  lemma {:induction false} InsertTagKeepsOrder(tags: seq<Tag>, t: Tag, k: Tag)
    ensures Like(InsertTag(tags, t), k) == Like(tags + [t], k)
  {
    assert (tags + [t])[..|tags|] == tags;
    if tags != [] && !TagLeq(tags[|tags| - 1], t) {
      var n := |tags| - 1;
      InsertTagKeepsOrder(tags[..n], t, k);
      assert (tags[..n] + [t])[..n] == tags[..n];
      assert (InsertTag(tags[..n], t) + [tags[n]])[..n + 1] == InsertTag(tags[..n], t) by {
        InsertTagLength(tags[..n], t);
      }
      InsertTagLength(tags[..n], t);
      LeqTotal(t.note, t.note);
      assert !SameKey(tags[n], t);
    }
  }

  lemma {:induction false} InsertTagLength(tags: seq<Tag>, t: Tag)
    ensures |InsertTag(tags, t)| == |tags| + 1
  {
    if tags != [] && !TagLeq(tags[|tags| - 1], t) {
      InsertTagLength(tags[..|tags| - 1], t);
    }
  }

  /** Tags that compare equal stay in their order. */
  lemma {:induction false} SortTagsIsStable(tags: seq<Tag>, k: Tag)
    ensures Like(SortTags(tags), k) == Like(tags, k)
  {
    if tags != [] {
      var n := |tags| - 1;
      SortTagsIsStable(tags[..n], k);
      InsertTagKeepsOrder(SortTags(tags[..n]), tags[n], k);
      assert (SortTags(tags[..n]) + [tags[n]])[..|SortTags(tags[..n])|] == SortTags(tags[..n]);
    }
  }

  /** The same tags, by package, then from the worst severity, then by name and by note. */
  lemma {:induction false} SortedMeans(tags: seq<Tag>, i: nat, j: nat)
    requires SortedTags(tags) && i < j < |tags|
    ensures tags[i].package == tags[j].package || Leq(tags[i].package, tags[j].package)
    ensures tags[i].package == tags[j].package ==> !Worse(tags[j].severity, tags[i].severity)
    ensures tags[i].package == tags[j].package && tags[i].severity == tags[j].severity ==>
      if tags[i].name == tags[j].name then Leq(tags[i].note, tags[j].note) else Leq(tags[i].name, tags[j].name)
  {
    assert TagLeq(tags[i], tags[j]);
    LevelsAreInOrder(tags[j].severity, tags[i].severity);
    hide Worse;
  }

  lemma {:induction false} SortTagsSorts(tags: seq<Tag>)
    ensures SortedTags(SortTags(tags)) && multiset(SortTags(tags)) == multiset(tags)
  {
    if tags != [] {
      var n := |tags| - 1;
      assert tags == tags[..n] + [tags[n]];
      SortTagsSorts(tags[..n]);
      InsertTagSorts(SortTags(tags[..n]), tags[n]);
      InsertTagMembers(SortTags(tags[..n]), tags[n]);
    }
  }

  // ----- all analyses -----

  /** Which analyses are wanted. */
  datatype Output = Output(sourceAnalysis: bool, binaryAllAnalysis: bool, binaryAnyAnalysis: bool)

  predicate Wanted(output: Output, architecture: string) {
    if architecture == "source" then output.sourceAnalysis
    else if architecture == "all" then output.binaryAllAnalysis
    else output.binaryAnyAnalysis
  }

  /** There is an analysis for each architecture for which it is wanted, of the tags of just its packages, in
      order. */
  method CreateArchitectureToAnalysis(parsed: seq<Tag>, architectures: map<string, set<string>>,
                                      filenames: map<string, string>, output: Output)
    returns (analyses: map<string, Analysis>)
    requires NoMasked(parsed) && forall arch :: arch in architectures ==> architectures[arch] <= filenames.Keys
    ensures forall arch :: arch in analyses <==>
      (arch in architectures &&
       if arch == "source" then output.sourceAnalysis
       else if arch == "all" then output.binaryAllAnalysis
       else output.binaryAnyAnalysis)
    ensures forall arch :: arch in analyses ==>
      AnalysisOf(analyses[arch], SortTags(parsed), architectures[arch], filenames)
      && Total(analyses[arch].countBySeverity) == |analyses[arch].tags|
  {
    var tags := SortTags(parsed);
    SortTagsSorts(parsed);
    assert forall t :: t in tags ==> t in multiset(tags);
    analyses := map[];
    var todo := architectures.Keys;
    while todo != {}
      invariant todo <= architectures.Keys
      invariant forall arch :: arch in analyses <==> arch in architectures && arch !in todo && Wanted(output, arch)
      invariant forall arch :: arch in analyses ==>
        AnalysisOf(analyses[arch], tags, architectures[arch], filenames)
        && Total(analyses[arch].countBySeverity) == |analyses[arch].tags|
      decreases todo
    {
      var architecture :| architecture in todo;
      todo := todo - {architecture};
      if !Wanted(output, architecture) {
        continue;
      }
      var analysis := CreateAnalysis(tags, architectures[architecture], filenames);
      analyses := analyses[architecture := analysis];
    }
  }

  function TagCount(analyses: map<string, Analysis>, archs: seq<string>): nat
    requires forall a :: a in archs ==> a in analyses
  {
    if archs == [] then 0 else |analyses[archs[0]].tags| + TagCount(analyses, archs[1..])
  }

  lemma {:induction false} TagCountExactly(tags: seq<Tag>, architectures: map<string, set<string>>,
                                           analyses: map<string, Analysis>, archs: seq<string>)
    requires Known(architectures, archs) &&
      forall a :: a in archs ==> a in analyses && Describes(analyses[a], TagsOf(tags, architectures[a]))
    ensures TagCount(analyses, archs) == TagsInAll(tags, architectures, archs)
    decreases archs
  {
    if archs != [] {
      TagCountExactly(tags, architectures, analyses, archs[1..]);
    }
  }

  lemma {:induction false} AllTagsOf(tags: seq<Tag>, packages: set<string>)
    requires forall t :: t in tags ==> t.package in packages
    ensures |TagsOf(tags, packages)| == |tags|
  {
    if tags != [] {
      var n := |tags| - 1;
      assert tags == tags[..n] + [tags[n]];
      AllTagsOf(tags[..n], packages);
    }
  }

  /** The analyses that are made: if the architectures have every package of a tag, they have as many tags together as
      were parsed, exactly if no tag is for a package of several architectures. */
  lemma {:induction false} AnalysesDivideTags(parsed: seq<Tag>, architectures: map<string, set<string>>,
                                              filenames: map<string, string>, analyses: map<string, Analysis>,
                                              archs: seq<string>)
    requires Known(architectures, archs) && forall a :: a in archs ==>
      a in analyses && architectures[a] <= filenames.Keys &&
        AnalysisOf(analyses[a], SortTags(parsed), architectures[a], filenames)
    requires forall t :: t in parsed ==> t.package in PackagesOf(architectures, archs)
    ensures TagCount(analyses, archs) >= |parsed|
    ensures TagCount(analyses, archs) == |parsed| <==>
      forall t :: t in parsed ==> Hits(t.package, architectures, archs) <= 1
  {
    var tags := SortTags(parsed);
    SortTagsSorts(parsed);
    assert forall t :: t in tags <==> t in parsed by {
      assert forall t :: t in tags <==> t in multiset(tags);
      assert forall t :: t in parsed <==> t in multiset(parsed);
    }
    assert |tags| == |multiset(tags)| == |multiset(parsed)| == |parsed|;
    TagCountExactly(tags, architectures, analyses, archs);
    TagsAreDivided(tags, architectures, archs);
    AllTagsOf(tags, PackagesOf(architectures, archs));
  }
}
