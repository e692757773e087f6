/** Downloading a file together with everything that it references through .dsc and .changes files,
    with the sizes and hashes that these files claim checked against what was fetched. */
module Download {
  import opened Outcomes

  newtype byte = x: int | 0 <= x < 256

  type Bytes = seq<byte>

  datatype Value = Num(n: nat) | Text(s: string)

  type Stats = map<string, Value>

  /** An entry of a checksum section. */
  datatype Record = Record(name: string, size: nat, digest: string)

  datatype Reference = Reference(name: string, size: nat, hashName: string, digest: string)

  datatype Error = NotFound | FileExists | Malformed | InvalidName | Mismatch

  /** The server, the hash functions and the parser for .dsc and .changes files. */
  datatype World = World(
    web: map<string, seq<Bytes>>,                      // file name to the chunks that are streamed
    digest: (string, Bytes) -> string,                 // by hash name
    parse: Bytes -> Option<map<string, seq<Record>>>)  // field name to its records

  const HASHES := ["sha256", "sha1", "md5"]

  function FieldName(hashName: string): string {
    if hashName == "md5" then "files" else "checksums-" + hashName
  }

  function Flatten(chunks: seq<Bytes>): Bytes {
    if chunks == [] then [] else Flatten(chunks[..|chunks| - 1]) + chunks[|chunks| - 1]
  }

  function HashStats(w: World, hashes: seq<string>, content: Bytes): Stats {
    map h | h in hashes :: Text(w.digest(h, content))
  }

  function StatsOf(w: World, content: Bytes): Stats {
    HashStats(w, HASHES, content) + map["size" := Num(|content|)]
  }

  function Content(w: World, name: string): Bytes
    requires name in w.web
  {
    Flatten(w.web[name])
  }

  predicate HasSuffix(name: string, suffix: string) {
    |name| > |suffix| && name[|name| - |suffix|..] == suffix
  }

  predicate IsMetadata(name: string) {
    HasSuffix(name, ".dsc") || HasSuffix(name, ".changes")
  }

  // ----- what there is to download -----

  function Section(parsed: map<string, seq<Record>>, hashName: string): seq<Reference> {
    if FieldName(hashName) !in parsed then []
    else
      var records := parsed[FieldName(hashName)];
      seq(|records|, i requires 0 <= i < |records| =>
        Reference(records[i].name, records[i].size, hashName, records[i].digest))
  }

  /** The reference is a record of this section. */
  ghost predicate Lists(parsed: map<string, seq<Record>>, field: string, hashName: string, r: Reference) {
    field in parsed && r.hashName == hashName && Record(r.name, r.size, r.digest) in parsed[field]
  }

  lemma {:induction false} SectionLists(parsed: map<string, seq<Record>>, hashName: string)
    ensures forall r :: r in Section(parsed, hashName) <==> Lists(parsed, FieldName(hashName), hashName, r)
  {
    var refs := Section(parsed, hashName);
    forall r | Lists(parsed, FieldName(hashName), hashName, r)
      ensures r in refs
    {
      var i :| 0 <= i < |refs| && parsed[FieldName(hashName)][i] == Record(r.name, r.size, r.digest);
      assert refs[i] == r;
    }
  }

  /** All records of the three sections. */
  function IterReferencedFiles(parsed: map<string, seq<Record>>): (refs: seq<Reference>)
    ensures forall r :: r in refs <==>
      || Lists(parsed, "checksums-sha256", "sha256", r)
      || Lists(parsed, "checksums-sha1", "sha1", r)
      || Lists(parsed, "files", "md5", r)
    ensures forall r :: r in refs ==> r.hashName in HASHES
  {
    assert HASHES[0] == "sha256" && HASHES[1] == "sha1" && HASHES[2] == "md5";
    assert FieldName("sha256") == "checksums-sha256" && FieldName("sha1") == "checksums-sha1";
    SectionLists(parsed, "sha256");
    SectionLists(parsed, "sha1");
    SectionLists(parsed, "md5");
    Section(parsed, "sha256") + Section(parsed, "sha1") + Section(parsed, "md5")
  }

  /** The references in a file of the server. */
  function References(w: World, name: string): (refs: seq<Reference>)
    ensures forall r :: r in refs ==> r.hashName in HASHES
  {
    if name in w.web && IsMetadata(name) && w.parse(Content(w, name)).Some?
    then IterReferencedFiles(w.parse(Content(w, name)).value)
    else []
  }

  ghost predicate RefersTo(w: World, name: string, target: string) {
    exists r :: r in References(w, name) && r.name == target
  }

  ghost predicate IsPath(w: World, path: seq<string>) {
    path != [] && forall i :: 0 < i < |path| ==> RefersTo(w, path[i - 1], path[i])
  }

  ghost predicate Reachable(w: World, root: string, name: string) {
    exists path :: IsPath(w, path) && path[0] == root && path[|path| - 1] == name
  }

  /** What a reference says about its file is true. */
  ghost predicate ClaimHolds(w: World, r: Reference) {
    && r.name in w.web
    && |Content(w, r.name)| == r.size
    && w.digest(r.hashName, Content(w, r.name)) == r.digest
  }

  /** Nothing is wrong with this file: it can be fetched and written, and if it is metadata, it can be
      parsed and what it says is true. */
  ghost predicate Sound(w: World, taken: set<string>, name: string) {
    && name in w.web && name !in taken
    && (IsMetadata(name) ==> w.parse(Content(w, name)).Some?)
    && forall r :: r in References(w, name) ==> '/' !in r.name && ClaimHolds(w, r)
  }

  ghost predicate AllSound(w: World, taken: set<string>, root: string) {
    forall name :: Reachable(w, root, name) ==> Sound(w, taken, name)
  }

  lemma {:induction false} RootIsReachable(w: World, root: string)
    ensures Reachable(w, root, root)
  {
    assert IsPath(w, [root]);
  }

  lemma {:induction false} PathGrows(w: World, path: seq<string>, target: string)
    requires IsPath(w, path) && RefersTo(w, path[|path| - 1], target)
    ensures IsPath(w, path + [target])
  {
    var longer := path + [target];
    forall i | 0 < i < |longer|
      ensures RefersTo(w, longer[i - 1], longer[i])
    {
      if i < |path| {
        assert longer[i - 1] == path[i - 1] && longer[i] == path[i];
      } else {
        assert longer[i - 1] == path[i - 1] && longer[i] == target;
      }
    }
  }

  lemma {:induction false} ReachableStep(w: World, root: string, name: string, target: string)
    requires Reachable(w, root, name) && RefersTo(w, name, target)
    ensures Reachable(w, root, target)
  {
    var path :| IsPath(w, path) && path[0] == root && path[|path| - 1] == name;
    PathGrows(w, path, target);
    var longer := path + [target];
    assert longer[0] == root && longer[|longer| - 1] == target;
  }

  lemma {:induction false} PathStaysInside(w: World, files: set<string>, path: seq<string>)
    requires IsPath(w, path) && path[0] in files
    requires forall name, target :: name in files && RefersTo(w, name, target) ==> target in files
    ensures path[|path| - 1] in files
    decreases |path|
  {
    if |path| > 1 {
      PathStaysInside(w, files, path[..|path| - 1]);
    }
  }

  // ----- what is known about the files -----

  type Known = map<string, Stats>

  /** Nothing that was known is forgotten or changed. */
  ghost predicate Extends(k: Known, k': Known) {
    forall name, stat :: name in k && stat in k[name] ==>
      name in k' && stat in k'[name] && k'[name][stat] == k[name][stat]
  }

  /** This value is what the fetched bytes have. */
  ghost predicate IsTrue(w: World, name: string, stat: string, value: Value) {
    name in w.web && stat in StatsOf(w, Content(w, name)) && StatsOf(w, Content(w, name))[stat] == value
  }

  /** What there is to do: `taken` are the files that were in the working directory at the start, `reach`
      is what the root leads to, and `sound` says whether nothing is wrong with any of that. */
  datatype Goal = Goal(taken: set<string>, root: string, reach: iset<string>, sound: bool)

  ghost function GoalOf(w: World, taken: set<string>, root: string): Goal {
    Goal(taken, root, (iset name | Reachable(w, root, name)), AllSound(w, taken, root))
  }

  /** What the goal says about one file. */
  ghost predicate Follows(w: World, g: Goal, name: string) {
    && (forall r :: r in References(w, name) ==> r.name in g.reach && (g.sound ==> IsTrueClaim(w, r)))
    && (g.sound ==> Sound(w, g.taken, name))
  }

  lemma {:induction false} GoalIsSound(w: World, g: Goal, name: string)
    requires g == GoalOf(w, g.taken, g.root) && name in g.reach && g.sound
    ensures Sound(w, g.taken, name)
  {
    assert Reachable(w, g.root, name);
  }

  lemma {:induction false} GoalReaches(w: World, g: Goal, name: string, r: Reference)
    requires g == GoalOf(w, g.taken, g.root) && name in g.reach && r in References(w, name)
    ensures r.name in g.reach
  {
    assert RefersTo(w, name, r.name);
    ReachableStep(w, g.root, name, r.name);
  }

  lemma {:induction false} GoalFollows(w: World, g: Goal, name: string)
    requires g == GoalOf(w, g.taken, g.root) && name in g.reach
    ensures Follows(w, g, name)
  {
    if g.sound {
      GoalIsSound(w, g, name);
    }
    forall r | r in References(w, name)
      ensures r.name in g.reach && (g.sound ==> IsTrueClaim(w, r))
    {
      GoalReaches(w, g, name, r);
      if g.sound {
        SoundClaim(w, g.taken, name, r);
      }
    }
  }

  lemma {:induction false} SoundClaim(w: World, taken: set<string>, name: string, r: Reference)
    requires Sound(w, taken, name) && r in References(w, name)
    ensures IsTrueClaim(w, r)
  {
    hide References, IsMetadata;
  }

  ghost predicate IsTrueClaim(w: World, r: Reference) {
    '/' !in r.name && IsTrue(w, r.name, "size", Num(r.size)) && IsTrue(w, r.name, r.hashName, Text(r.digest))
  }

  /** If all files are sound, only true values were recorded. */
  ghost predicate OnlyTruth(w: World, g: Goal, known: Known) {
    g.sound ==>
      forall name, stat :: name in known && stat in known[name] ==> IsTrue(w, name, stat, known[name][stat])
  }

  ghost predicate Recorded(known: Known, name: string, stat: string, value: Value) {
    name in known && stat in known[name] && known[name][stat] == value
  }

  lemma ExtendsTransitive(a: Known, b: Known, c: Known)
    requires Extends(a, b) && Extends(b, c)
    ensures Extends(a, c)
  {
  }

  ghost predicate AllRecorded(known: Known, filename: string, names: seq<string>, stats: Stats) {
    forall name :: name in names && name in stats ==> Recorded(known, filename, name, stats[name])
  }

  lemma StillRecorded(known: Known, known': Known, filename: string, names: seq<string>, stats: Stats)
    requires AllRecorded(known, filename, names, stats) && Extends(known, known')
    ensures AllRecorded(known', filename, names, stats)
  {
  }

  lemma NewFileKnown(w: World, g: Goal, known: Known, name: string)
    requires OnlyTruth(w, g, known)
    ensures Extends(known, known)
    ensures name !in known ==> Extends(known, known[name := map[]]) && OnlyTruth(w, g, known[name := map[]])
  {
  }

  lemma StatsAreTrue(w: World, name: string, stats: Stats)
    requires name in w.web && stats == StatsOf(w, Content(w, name))
    ensures forall stat :: stat in stats <==> stat in ["size"] + HASHES
    ensures forall stat :: stat in stats ==> IsTrue(w, name, stat, stats[stat])
  {
  }

  lemma {:induction false} AllStatsRecorded(w: World, known: Known, name: string, stats: Stats)
    requires name in w.web && stats == StatsOf(w, Content(w, name)) &&
      AllRecorded(known, name, ["size"] + HASHES, stats)
    ensures StatsRecorded(w, known, name)
  {
    StatsAreTrue(w, name, stats);
  }

  /** What adding the stats called `names` has done so far. */
  ghost predicate StatsInv(w: World, g: Goal, start: Known, known: Known, filename: string, names: seq<string>,
                           stats: Stats)
  {
    && Extends(start, known) && known.Keys == start.Keys && OnlyTruth(w, g, known)
    && AllRecorded(known, filename, names, stats)
  }

  lemma {:induction false} StatsStep(w: World, g: Goal, start: Known, known: Known, known': Known, filename: string,
                                     names: seq<string>, i: nat, stats: Stats)
    requires i < |names| && StatsInv(w, g, start, known, filename, names[..i], stats)
    requires Extends(known, known') && known'.Keys == known.Keys && OnlyTruth(w, g, known')
    requires names[i] in stats && Recorded(known', filename, names[i], stats[names[i]])
    ensures StatsInv(w, g, start, known', filename, names[..i + 1], stats)
  {
    ExtendsTransitive(start, known, known');
    StillRecorded(known, known', filename, names[..i], stats);
    assert names[..i + 1] == names[..i] + [names[i]];
  }

  ghost predicate StatsRecorded(w: World, known: Known, name: string) {
    name in w.web && forall stat, value :: IsTrue(w, name, stat, value) ==> Recorded(known, name, stat, value)
  }

  ghost predicate ClaimRecorded(known: Known, r: Reference) {
    '/' !in r.name && Recorded(known, r.name, "size", Num(r.size)) &&
      Recorded(known, r.name, r.hashName, Text(r.digest))
  }

  ghost predicate ClaimsRecorded(w: World, known: Known, name: string) {
    forall r :: r in References(w, name) ==> ClaimRecorded(known, r)
  }

  ghost predicate FirstRecorded(known: Known, refs: seq<Reference>, n: nat)
    requires n <= |refs|
  {
    forall k :: 0 <= k < n ==> ClaimRecorded(known, refs[k])
  }

  lemma OneMoreRecorded(known: Known, known': Known, refs: seq<Reference>, n: nat)
    requires n < |refs| && FirstRecorded(known, refs, n) && Extends(known, known') && ClaimRecorded(known', refs[n])
    ensures FirstRecorded(known', refs, n + 1)
  {
  }

  lemma {:induction false} RecordedStays(w: World, known: Known, known': Known)
    requires Extends(known, known')
    ensures forall name :: StatsRecorded(w, known, name) ==> StatsRecorded(w, known', name)
    ensures forall r :: ClaimRecorded(known, r) ==> ClaimRecorded(known', r)
    ensures forall name :: ClaimsRecorded(w, known, name) ==> ClaimsRecorded(w, known', name)
  {
    assert forall name, stat, value :: Recorded(known, name, stat, value) ==> Recorded(known', name, stat, value);
  }

  /** A claim that was recorded for a file whose stats were recorded is true. */
  lemma {:induction false} RecordedClaimHolds(w: World, known: Known, r: Reference)
    requires r.hashName in HASHES && ClaimRecorded(known, r) && StatsRecorded(w, known, r.name)
    ensures ClaimHolds(w, r)
  {
    var content := Content(w, r.name);
    assert IsTrue(w, r.name, "size", Num(|content|));
    assert IsTrue(w, r.name, r.hashName, Text(w.digest(r.hashName, content)));
  }

  /** This file is there, and has that size and digest. */
  ghost predicate Matches(w: World, files: map<string, Bytes>, hashName: string, record: Record) {
    && '/' !in record.name && record.name in files
    && |files[record.name]| == record.size && w.digest(hashName, files[record.name]) == record.digest
  }

  ghost predicate SectionMatches(w: World, files: map<string, Bytes>, parsed: map<string, seq<Record>>, field: string,
                                 hashName: string)
  {
    field in parsed ==> forall record :: record in parsed[field] ==> Matches(w, files, hashName, record)
  }

  /** If the file is a .dsc or a .changes file, all that its sections say is true of the files. */
  ghost predicate Checked(w: World, files: map<string, Bytes>, name: string)
    requires name in files
  {
    (|name| > 4 && name[|name| - 4..] == ".dsc") || (|name| > 8 && name[|name| - 8..] == ".changes") ==>
      && w.parse(files[name]).Some?
      && var parsed := w.parse(files[name]).value;
         && SectionMatches(w, files, parsed, "checksums-sha256", "sha256")
         && SectionMatches(w, files, parsed, "checksums-sha1", "sha1")
         && SectionMatches(w, files, parsed, "files", "md5")
  }

  lemma {:induction false} SectionIsChecked(w: World, g: Goal, p: Progress, name: string, field: string,
                                            hashName: string)
    requires FilesInv(w, g, p) && name in p.downloaded && Sound(w, g.taken, name) && IsMetadata(name)
    requires forall r :: r in References(w, name) ==> r.name in p.downloaded
    requires (field, hashName) in {("checksums-sha256", "sha256"), ("checksums-sha1", "sha1"), ("files", "md5")}
    ensures SectionMatches(w, p.workdir, w.parse(Content(w, name)).value, field, hashName)
  {
    var parsed := w.parse(Content(w, name)).value;
    if field in parsed {
      forall record | record in parsed[field]
        ensures Matches(w, p.workdir, hashName, record)
      {
        var r := Reference(record.name, record.size, hashName, record.digest);
        assert Lists(parsed, field, hashName, r);
        assert r in References(w, name);
      }
    }
  }

  lemma {:induction false} SoundIsChecked(w: World, g: Goal, p: Progress, name: string)
    requires FilesInv(w, g, p) && name in p.downloaded && Sound(w, g.taken, name)
    requires forall r :: r in References(w, name) ==> r.name in p.downloaded
    ensures Checked(w, p.workdir, name)
  {
    if IsMetadata(name) {
      SectionIsChecked(w, g, p, name, "checksums-sha256", "sha256");
      SectionIsChecked(w, g, p, name, "checksums-sha1", "sha1");
      SectionIsChecked(w, g, p, name, "files", "md5");
    }
  }

  lemma {:induction false} AllAreChecked(w: World, g: Goal, p: Progress)
    requires g == GoalOf(w, g.taken, g.root) && g.sound && FilesInv(w, g, p)
    requires forall name :: name in p.downloaded <==> name in g.reach
    ensures forall name :: name in p.downloaded ==> name in p.workdir && Checked(w, p.workdir, name)
  {
    forall name | name in p.downloaded
      ensures Checked(w, p.workdir, name)
    {
      GoalIsSound(w, g, name);
      forall r | r in References(w, name)
        ensures r.name in p.downloaded
      {
        GoalReaches(w, g, name, r);
      }
      SoundIsChecked(w, g, p, name);
    }
  }

  // ----- what the downloader keeps -----

  /** `work` is the file that is being downloaded, if any, and then the queue. */
  datatype Progress = Progress(known: Known, downloaded: set<string>, work: seq<string>, workdir: map<string, Bytes>)

  /** The queue has no duplicates and nothing downloaded in it, everything is reachable, and what is known
      is what was downloaded or queued. */
  ghost predicate QueueInv(g: Goal, p: Progress) {
    && (forall i, j :: 0 <= i < j < |p.work| ==> p.work[i] != p.work[j])
    && (forall name :: name in p.work ==> name !in p.downloaded && name in g.reach)
    && (forall name :: name in p.downloaded ==> name in g.reach)
    && (if p.downloaded == {} then p.work == [g.root] && p.known == map[]
        else g.root in p.downloaded && forall name :: name in p.known <==> name in p.downloaded || name in p.work)
  }

  ghost predicate FilesInv(w: World, g: Goal, p: Progress) {
    && (forall name :: name in p.workdir <==> name in g.taken || name in p.downloaded)
    && (forall name :: name in p.downloaded ==>
          name in w.web && name !in g.taken && p.workdir[name] == Content(w, name))
  }

  /** All references of a downloaded file have been recorded. */
  ghost predicate Processed(w: World, known: Known, name: string) {
    ClaimsRecorded(w, known, name) && (name in w.web && IsMetadata(name) ==> w.parse(Content(w, name)).Some?)
  }

  ghost predicate RecordInv(w: World, p: Progress, pending: set<string>) {
    && (forall name :: name in p.downloaded ==> StatsRecorded(w, p.known, name))
    && (forall name :: name in p.downloaded && name !in pending ==> Processed(w, p.known, name))
  }

  /** `pending` is the file whose references are still being looked at. */
  ghost predicate Valid(w: World, g: Goal, p: Progress, pending: set<string>) {
    QueueInv(g, p) && FilesInv(w, g, p) && RecordInv(w, p, pending) && OnlyTruth(w, g, p.known)
  }

  lemma {:induction false} MoreKnownKeepsRecords(w: World, p: Progress, p': Progress, pending: set<string>)
    requires RecordInv(w, p, pending) && Extends(p.known, p'.known) && p'.downloaded == p.downloaded
    ensures RecordInv(w, p', pending)
  {
    RecordedStays(w, p.known, p'.known);
  }

  lemma {:induction false} EnqueueKeepsQueue(g: Goal, p: Progress, p': Progress, name: string)
    requires QueueInv(g, p) && p.downloaded != {} && name in g.reach && name !in p.known
    requires p'.known == p.known[name := map[]] && p'.work == p.work + [name] && p'.downloaded == p.downloaded
    ensures QueueInv(g, p')
  {
    assert forall n :: n in p'.work <==> n in p.work || n == name;
  }

  lemma {:induction false} EnqueueKeeps(w: World, g: Goal, p: Progress, name: string, pending: set<string>)
    requires Valid(w, g, p, pending) && p.downloaded != {} && name in g.reach && name !in p.known
    ensures Valid(w, g, p.(known := p.known[name := map[]], work := p.work + [name]), pending)
  {
    var p' := p.(known := p.known[name := map[]], work := p.work + [name]);
    EnqueueKeepsQueue(g, p, p', name);
    MoreKnownKeepsRecords(w, p, p', pending);
  }

  lemma {:induction false} RecordKeeps(w: World, g: Goal, p: Progress, known: Known, pending: set<string>)
    requires Valid(w, g, p, pending) && p.downloaded != {}
    requires Extends(p.known, known) && known.Keys == p.known.Keys && OnlyTruth(w, g, known)
    ensures Valid(w, g, p.(known := known), pending)
  {
    MoreKnownKeepsRecords(w, p, p.(known := known), pending);
    assert forall name :: name in known <==> name in p.known;
  }

  lemma {:induction false} DownloadKeepsQueue(g: Goal, p: Progress, p': Progress, name: string)
    requires QueueInv(g, p) && p.work != [] && p.work[0] == name
    requires p'.known.Keys == p.known.Keys + {name} && p'.downloaded == p.downloaded + {name} && p'.work == p.work[1..]
    ensures QueueInv(g, p')
  {
    assert p.work == [name] + p'.work;
    assert forall n :: n in p'.known <==> n in p.known || n == name;
    assert forall n :: n in p'.work ==> n != name by {
      assert forall i :: 0 <= i < |p'.work| ==> p'.work[i] == p.work[i + 1];
    }
  }

  lemma {:induction false} DownloadKeepsRecords(w: World, p: Progress, p': Progress, name: string)
    requires RecordInv(w, p, {}) && p'.downloaded == p.downloaded + {name}
    requires Extends(p.known, p'.known) && StatsRecorded(w, p'.known, name)
    ensures RecordInv(w, p', {name})
  {
    RecordedStays(w, p.known, p'.known);
  }

  /** The file at the front of the queue has been fetched, written and recorded. */
  lemma {:induction false} DownloadKeeps(w: World, g: Goal, p: Progress, known: Known)
    requires Valid(w, g, p, {}) && p.work != [] && p.work[0] in w.web && p.work[0] !in p.workdir
    requires Extends(p.known, known) && known.Keys == p.known.Keys + {p.work[0]}
    requires StatsRecorded(w, known, p.work[0]) && OnlyTruth(w, g, known)
    ensures Valid(w, g, Progress(known, p.downloaded + {p.work[0]}, p.work[1..],
                                           p.workdir[p.work[0] := Content(w, p.work[0])]), {p.work[0]})
  {
    hide StatsRecorded, Extends, OnlyTruth;
    var name := p.work[0];
    var p' := Progress(known, p.downloaded + {name}, p.work[1..], p.workdir[name := Content(w, name)]);
    DownloadKeepsQueue(g, p, p', name);
    DownloadKeepsRecords(w, p, p', name);
  }

  lemma ProcessedKeeps(w: World, g: Goal, p: Progress, filename: string)
    requires Valid(w, g, p, {filename}) && Processed(w, p.known, filename)
    ensures Valid(w, g, p, {})
  {
  }

  /** With an empty queue: what was downloaded is what is reachable, nothing was wrong with it, and every
      claim about a downloaded file is true. */
  lemma {:induction false} EmptyQueueMeansDone(w: World, g: Goal, p: Progress)
    requires g == GoalOf(w, g.taken, g.root) && Valid(w, g, p, {}) && p.work == []
    ensures forall name :: name in p.downloaded <==> name in g.reach
    ensures g.sound
  {
    forall name, target | name in p.downloaded && RefersTo(w, name, target)
      ensures target in p.downloaded
    {
      var r :| r in References(w, name) && r.name == target;
      assert Processed(w, p.known, name) && ClaimRecorded(p.known, r);
    }
    forall name | Reachable(w, g.root, name)
      ensures name in p.downloaded
    {
      var path :| IsPath(w, path) && path[0] == g.root && path[|path| - 1] == name;
      PathStaysInside(w, p.downloaded, path);
    }
    forall name | name in p.downloaded
      ensures Sound(w, g.taken, name)
    {
      DownloadedIsSound(w, g, p, name);
    }
  }

  lemma {:induction false} DownloadedIsSound(w: World, g: Goal, p: Progress, name: string)
    requires Valid(w, g, p, {}) && p.work == [] && name in p.downloaded
    ensures Sound(w, g.taken, name)
  {
    assert Processed(w, p.known, name);
    forall r | r in References(w, name)
      ensures '/' !in r.name && ClaimHolds(w, r)
    {
      assert ClaimRecorded(p.known, r);
      RecordedClaimHolds(w, p.known, r);
    }
  }

  // ----- the downloader -----

  class DGet {
    const world: World
    ghost const goal: Goal
    var knownFiles: Known
    var downloaded: set<string>
    var queue: seq<string>
    var workdir: map<string, Bytes>

    constructor (world: World, root: string, workdir: map<string, Bytes>)
      ensures this.world == world && goal == GoalOf(world, workdir.Keys, root)
      ensures this.workdir == workdir && Holds(queue, {})
    {
      this.world, goal := world, GoalOf(world, workdir.Keys, root);
      knownFiles, downloaded, queue := map[], {}, [root];
      this.workdir := workdir;
      new;
      RootIsReachable(world, root);
    }

    ghost function Now(work: seq<string>): Progress
      reads this
    {
      Progress(knownFiles, downloaded, work, workdir)
    }

    ghost predicate IsGoal() {
      goal == GoalOf(world, goal.taken, goal.root)
    }

    ghost predicate Holds(work: seq<string>, pending: set<string>)
      reads this
    {
      Valid(world, goal, Now(work), pending)
    }

    /** Writes the streamed chunks and hashes them on the way. */
    method WriteAndHash(chunks: seq<Bytes>, destination: string, hashes: seq<string>)
      returns (stats: Result<Stats, Error>)
      modifies this`workdir
      ensures stats.Ok? <==> destination !in old(workdir)
      ensures stats.Ok? ==>
        && workdir == old(workdir)[destination := Flatten(chunks)]
        && stats.value == HashStats(world, hashes, Flatten(chunks)) + map["size" := Num(|Flatten(chunks)|)]
      ensures stats.Err? ==> workdir == old(workdir) && stats.error == FileExists
    {
      if destination in workdir {
        return Err(FileExists);
      }
      var file: Bytes := [];
      var hashers: map<string, Bytes> := map h | h in hashes :: [];
      for i := 0 to |chunks|
        invariant workdir == old(workdir)
        invariant file == Flatten(chunks[..i])
        invariant hashers == map h | h in hashes :: Flatten(chunks[..i])
      {
        assert chunks[..i + 1][..i] == chunks[..i];
        file := file + chunks[i];
        hashers := map h | h in hashers :: hashers[h] + chunks[i];
      }
      assert chunks[..|chunks|] == chunks;
      workdir := workdir[destination := file];
      stats := Ok((map h | h in hashers :: Text(world.digest(h, hashers[h]))) + map["size" := Num(|file|)]);
    }

    /** Records a value, or complains if another one is known already. */
    method AddStat(filename: string, stat: string, value: Value) returns (ok: bool)
      requires filename in knownFiles && OnlyTruth(world, goal, knownFiles)
      requires goal.sound ==> IsTrue(world, filename, stat, value)
      modifies this`knownFiles
      ensures ok <==> (stat in old(knownFiles)[filename] ==> old(knownFiles)[filename][stat] == value)
      ensures knownFiles ==
        if ok then old(knownFiles)[filename := old(knownFiles)[filename][stat := value]] else old(knownFiles)
      ensures ok ==> Recorded(knownFiles, filename, stat, value)
      ensures !ok ==> !goal.sound
      ensures Extends(old(knownFiles), knownFiles) && knownFiles.Keys == old(knownFiles).Keys
      ensures OnlyTruth(world, goal, knownFiles)
    {
      var stats := knownFiles[filename];
      if stat in stats {
        if stats[stat] != value {
          return false;
        }
        assert stats[stat := value] == stats;
        assert knownFiles[filename := stats] == knownFiles;
      } else {
        knownFiles := knownFiles[filename := stats[stat := value]];
      }
      return true;
    }

    method AddStats(filename: string, names: seq<string>, stats: Stats) returns (ok: bool)
      requires filename in knownFiles && OnlyTruth(world, goal, knownFiles)
      requires forall i :: 0 <= i < |names| ==> names[i] in stats && IsTrue(world, filename, names[i], stats[names[i]])
      modifies this`knownFiles
      ensures ok ==> AllRecorded(knownFiles, filename, names, stats)
      ensures !ok ==> !goal.sound
      ensures Extends(old(knownFiles), knownFiles) && knownFiles.Keys == old(knownFiles).Keys
      ensures OnlyTruth(world, goal, knownFiles)
    {
      ghost var start := knownFiles;
      for i := 0 to |names|
        invariant StatsInv(world, goal, start, knownFiles, filename, names[..i], stats)
      {
        ghost var before := knownFiles;
        ok := AddStat(filename, names[i], stats[names[i]]);
        if !ok {
          ExtendsTransitive(start, before, knownFiles);
          return;
        }
        StatsStep(world, goal, start, before, knownFiles, filename, names, i, stats);
      }
      assert names[..|names|] == names;
      return true;
    }

    method RecordDownload(filename: string, stats: Stats) returns (ok: bool)
      requires OnlyTruth(world, goal, knownFiles)
      requires filename in world.web && stats == StatsOf(world, Content(world, filename))
      modifies this`knownFiles, this`downloaded
      ensures downloaded == old(downloaded) + {filename}
      ensures ok ==> StatsRecorded(world, knownFiles, filename)
      ensures !ok ==> !goal.sound
      ensures Extends(old(knownFiles), knownFiles) && knownFiles.Keys == old(knownFiles).Keys + {filename}
      ensures OnlyTruth(world, goal, knownFiles)
    {
      downloaded := downloaded + {filename};
      ghost var start := knownFiles;
      NewFileKnown(world, goal, knownFiles, filename);
      if filename !in knownFiles {
        knownFiles := knownFiles[filename := map[]];
      }
      ghost var before := knownFiles;
      StatsAreTrue(world, filename, stats);
      ok := AddStats(filename, ["size"] + HASHES, stats);
      ExtendsTransitive(start, before, knownFiles);
      if ok {
        AllStatsRecorded(world, knownFiles, filename, stats);
      }
    }

    method Enqueue(name: string, ghost filename: string)
      requires Holds(queue, {filename}) && downloaded != {} && name in goal.reach && name !in knownFiles
      modifies this`knownFiles, this`queue
      ensures Holds(queue, {filename}) && knownFiles == old(knownFiles)[name := map[]]
    {
      EnqueueKeeps(world, goal, Now(queue), name, {filename});
      knownFiles := knownFiles[name := map[]];
      queue := queue + [name];
    }

    method AddClaim(r: Reference, ghost filename: string) returns (ok: bool)
      requires Holds(queue, {filename}) && downloaded != {} && '/' !in r.name && r.name in knownFiles
      requires goal.sound ==> IsTrueClaim(world, r)
      modifies this`knownFiles
      ensures ok ==> Holds(queue, {filename}) && ClaimRecorded(knownFiles, r) && Extends(old(knownFiles), knownFiles)
      ensures !ok ==> !goal.sound
    {
      hide QueueInv, FilesInv, RecordInv, IsTrue, OnlyTruth;
      ghost var p := Now(queue);
      ok := AddStat(r.name, "size", Num(r.size));
      if !ok {
        return;
      }
      ok := AddStat(r.name, r.hashName, Text(r.digest));
      if ok {
        RecordKeeps(world, goal, p, knownFiles, {filename});
      }
    }

    method AddReference(r: Reference, ghost filename: string) returns (failure: Option<Error>)
      requires Holds(queue, {filename}) && downloaded != {} && r.name in goal.reach
      requires goal.sound ==> IsTrueClaim(world, r)
      modifies this`knownFiles, this`queue
      ensures failure.None? ==>
        Holds(queue, {filename}) && ClaimRecorded(knownFiles, r) && Extends(old(knownFiles), knownFiles)
      ensures failure.Some? ==> !goal.sound && (failure == Some(InvalidName) || failure == Some(Mismatch))
      ensures failure == Some(InvalidName) <==> '/' in r.name
    {
      if '/' in r.name {
        return Some(InvalidName);
      }
      if r.name !in knownFiles {
        Enqueue(r.name, filename);
      }
      var ok := AddClaim(r, filename);
      failure := if ok then None else Some(Mismatch);
    }

    method AddReferences(refs: seq<Reference>, ghost filename: string) returns (failure: Option<Error>)
      requires Holds(queue, {filename}) && downloaded != {}
      requires forall r :: r in refs ==> r.name in goal.reach && (goal.sound ==> IsTrueClaim(world, r))
      modifies this`knownFiles, this`queue
      ensures failure.None? ==> Holds(queue, {filename}) && forall r :: r in refs ==> ClaimRecorded(knownFiles, r)
      ensures failure.Some? ==> !goal.sound && (failure == Some(InvalidName) || failure == Some(Mismatch))
    {
      for i := 0 to |refs|
        invariant Holds(queue, {filename}) && downloaded == old(downloaded)
        invariant FirstRecorded(knownFiles, refs, i)
      {
        ghost var before := knownFiles;
        assert refs[i] in refs;
        failure := AddReference(refs[i], filename);
        if failure.Some? {
          return;
        }
        OneMoreRecorded(before, knownFiles, refs, i);
      }
      return None;
    }

    method AddReferencedFiles(filename: string) returns (failure: Option<Error>)
      requires Holds(queue, {filename}) && filename in downloaded && IsMetadata(filename) &&
        Follows(world, goal, filename)
      modifies this`knownFiles, this`queue
      ensures failure.None? ==> Holds(queue, {})
      ensures failure.Some? ==> !goal.sound && failure != Some(NotFound) && failure != Some(FileExists)
      ensures failure == Some(Malformed) <==> world.parse(old(workdir)[filename]).None?
    {
      var parsed := world.parse(workdir[filename]);
      if parsed.None? {
        return Some(Malformed);
      }
      assert IterReferencedFiles(parsed.value) == References(world, filename);
      failure := AddReferences(IterReferencedFiles(parsed.value), filename);
      if failure.None? {
        ProcessedKeeps(world, goal, Now(queue), filename);
      }
    }

    method DownloadFile(filename: string) returns (failure: Option<Error>)
      requires Holds(if filename in downloaded then queue else [filename] + queue, {}) && Follows(world, goal, filename)
      modifies this
      ensures failure.None? ==> Holds(queue, {}) && downloaded == old(downloaded) + {filename}
      ensures failure.None? && filename !in old(downloaded) ==> filename in world.web
      ensures failure.Some? ==> !goal.sound
      ensures failure == Some(NotFound) <==> filename !in old(downloaded) && filename !in world.web
      ensures failure == Some(FileExists) <==>
        filename !in old(downloaded) && filename in world.web && filename in old(workdir)
    {
      hide QueueInv, RecordInv, OnlyTruth, StatsRecorded, Extends;
      if filename in downloaded {
        return None;
      }
      ghost var p := Now([filename] + queue);
      assert p.work[0] == filename && p.work[1..] == queue;
      if filename !in world.web {
        return Some(NotFound);
      }
      var stats := WriteAndHash(world.web[filename], filename, HASHES);
      if stats.Err? {
        return Some(stats.error);
      }
      var ok := RecordDownload(filename, stats.value);
      if !ok {
        return Some(Mismatch);
      }
      DownloadKeeps(world, goal, p, knownFiles);
      failure := FollowReferences(filename);
    }

    /** Only metadata is looked into. */
    method FollowReferences(filename: string) returns (failure: Option<Error>)
      requires Holds(queue, {filename}) && filename in downloaded && filename in world.web &&
        Follows(world, goal, filename)
      modifies this`queue, this`knownFiles
      ensures failure.None? ==> Holds(queue, {})
      ensures failure.Some? ==> !goal.sound && failure != Some(NotFound) && failure != Some(FileExists)
    {
      if IsMetadata(filename) {
        failure := AddReferencedFiles(filename);
      } else {
        ProcessedKeeps(world, goal, Now(queue), filename);
        failure := None;
      }
    }

    /** Downloading succeeds exactly if nothing is wrong with any file that the root leads to, and then
        it fetched exactly those files. */
    method Download() returns (failure: Option<Error>)
      requires IsGoal() && Holds(queue, {})
      modifies this
      ensures failure.None? <==> AllSound(world, goal.taken, goal.root)
      ensures failure.None? ==> forall name :: name in downloaded <==> Reachable(world, goal.root, name)
      ensures failure.None? ==> FilesInv(world, goal, Now([]))
      ensures failure.None? ==> forall name :: name in downloaded ==> name in workdir && Checked(world, workdir, name)
    {
      while queue != []
        invariant Holds(queue, {})
        decreases world.web.Keys - downloaded
      {
        var filename := queue[0];
        assert [filename] + queue[1..] == queue;
        assert filename !in downloaded;  // so that DownloadFile does not return early
        GoalFollows(world, goal, filename);
        queue := queue[1..];
        failure := DownloadFile(filename);
        if failure.Some? {
          return;
        }
      }
      EmptyQueueMeansDone(world, goal, Now(queue));
      AllAreChecked(world, goal, Now(queue));
      return None;
    }
  }
}
