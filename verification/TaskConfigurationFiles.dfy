/** Task configuration entries in YAML files: where they are put, how they are written, and what is read back. */
module TaskConfigurationFiles {
  import opened Outcomes
  import opened Strings
  import opened Paths
  import opened TaskConfiguration

  /** A configuration item: what it applies to, and a number that stands for everything else in it. */
  datatype Item = Item(entry: Entry, rest: nat)

  datatype ItemInFile = ItemInFile(item: Item, path: Path, position: nat)

  /** Data in a file that reads as `item`. The style is 0 when it is exactly what is written for the item. */
  datatype Raw = Raw(item: Item, style: nat)

  /** The data in a YAML file is one item or a list of items. */
  datatype File = Single(raw: Raw) | Many(raws: seq<Raw>)

  /** The YAML files below the root of the repository, called as they are when the directories are walked through. */
  type Disk = map<Path, File>
  type Entries = map<Entry, ItemInFile>
  type Remote = map<Entry, Item>

  function Raws(f: File): seq<Raw> {
    if f.Single? then [f.raw] else f.raws
  }

  /** What identifies an item. */
  function KeyOf(item: Item): Entry {
    if item.entry.template.None? then item.entry else Entry(None, None, None, None, item.entry.template)
  }

  function LowerName(t: TaskType): string {
    match t
    case Worker => "worker"
    case Server => "server"
    case Internal => "internal"
    case Workflow => "workflow"
    case Signing => "signing"
    case Wait => "wait"
  }

  function OrAny(value: Option<string>): string {
    if Present(value) then value.value else "any"
  }

  function DirectoryName(e: Entry): string
    requires TaskConfiguration.Valid(e) && !Present(e.template)
  {
    LowerName(e.taskType.value) + "_" + e.taskName.value
  }

  /** The last part of the path of a new item. */
  function FileName(e: Entry): string {
    if Present(e.template) then e.template.value + ".yaml" else OrAny(e.subject) + "_" + OrAny(e.context) + ".yaml"
  }

  /** Where a new item is put. */
  function DefaultPath(e: Entry): Path
    requires TaskConfiguration.Valid(e)
  {
    if Present(e.template) then Under(Path("", ["new", "templates"]), FileName(e))
    else Under(Under(Path("", ["new"]), DirectoryName(e)), FileName(e))
  }

  // ----- default paths -----

  lemma LowerNameIs(t: TaskType)
    ensures LowerName(t)[1..] == TaskTypeName(t)[1..]
    ensures LowerName(t)[0] as int == TaskTypeName(t)[0] as int + 32
  {
  }

  lemma {:induction false} UnderOne(p: Path, word: string)
    requires '/' !in word && word != "" && word != "."
    ensures Under(p, word) == Path(p.root, p.parts + [word])
  {
    OnePiece(word);
    assert word[0] != '/' && RootOf(word) == "";
    assert [word][1..] == [] && Named([]) == [];
    assert Named([word]) == [word];
  }

  /** Where a new item is put, if its parts are single names. */
  lemma {:induction false} DefaultPathIs(e: Entry)
    requires TaskConfiguration.Valid(e) && '/' !in FileName(e) && (!Present(e.template) ==> '/' !in e.taskName.value)
    ensures DefaultPath(e) ==
      if Present(e.template) then Path("", ["new", "templates", e.template.value + ".yaml"])
      else Path("", ["new", LowerName(e.taskType.value) + "_" + e.taskName.value,
                     (if Present(e.subject) then e.subject.value else "any") + "_"
                     + (if Present(e.context) then e.context.value else "any") + ".yaml"])
  {
    assert |FileName(e)| >= 5;
    assert ["new", "templates"] + [FileName(e)] == ["new", "templates", FileName(e)];
    UnderOne(Path("", ["new", "templates"]), FileName(e));
    if !Present(e.template) {
      assert '/' !in LowerName(e.taskType.value);
      var dir := DirectoryName(e);
      assert |dir| >= 2;
      UnderOne(Path("", ["new"]), dir);
      UnderOne(Path("", ["new", dir]), FileName(e));
      assert ["new"] + [dir] == ["new", dir] && ["new", dir] + [FileName(e)] == ["new", dir, FileName(e)];
    }
  }

  /** Text that can be put under a path without leaving it. */
  predicate Harmless(s: string) {
    !StartsWith(s, "/") && ".." !in Split(s, "/")
  }

  lemma UnderIsPlain(p: Path, s: string)
    requires p.root == "" && ".." !in p.parts && p.parts != []
    ensures Plain(Under(p, s)) <==> Harmless(s)
  {
  }

  /** The path of a new item stays below the root, under its own name, exactly when its parts neither start with a
      slash nor go upwards; then it is read back from the file that was written. */
  lemma {:induction false} NewFilesAreRead(top: seq<string>, e: Entry)
    requires TaskConfiguration.Valid(e) && ".." !in top
    ensures Leads(top, DefaultPath(e), DefaultPath(e)) <==>
      Harmless(FileName(e)) && (!Present(e.template) ==> Harmless(DirectoryName(e)))
  {
    WalkedIsItself(top, DefaultPath(e));
    if Present(e.template) {
      UnderIsPlain(Path("", ["new", "templates"]), FileName(e));
    } else {
      DirectoryIsRelative(e);
      var p := Under(Path("", ["new"]), DirectoryName(e));
      UnderIsPlain(Path("", ["new"]), DirectoryName(e));
      if Plain(p) {
        UnderIsPlain(p, FileName(e));
      }
    }
  }

  lemma {:induction false} DirectoryIsRelative(e: Entry)
    requires TaskConfiguration.Valid(e) && !Present(e.template)
    ensures RootOf(DirectoryName(e)) == ""
  {
    assert LowerName(e.taskType.value)[0] != '/';
    assert DirectoryName(e)[0] == LowerName(e.taskType.value)[0];
  }

  /** Up to the first slash there is none. */
  lemma {:induction false} BeforeSlash(s: string)
    ensures '/' !in s[..IndexOf(s, "/")]
  {
    assert forall k :: 0 <= k < |s| ==> s[k..][..1] == [s[k]];
  }

  lemma {:induction false} FirstPiece(word: string, rest: string)
    requires '/' !in word
    ensures Split(word + "/" + rest, "/") == [word] + Split(rest, "/")
  {
    IndexOfChar(word, '/', rest);
    SplitFirst(word, rest, "/");
  }

  lemma {:induction false} OnePiece(word: string)
    requires '/' !in word
    ensures Split(word, "/") == [word]
  {
    IndexOfChar(word, '/', "");
  }

  function WithLast(words: seq<string>, t: string): seq<string>
    requires words != []
  {
    words[..|words| - 1] + [words[|words| - 1] + t]
  }

  lemma WithLastBehind(word: string, words: seq<string>, t: string)
    requires words != []
    ensures WithLast([word] + words, t) == [word] + WithLast(words, t)
  {
  }

  /** Text without a slash goes to the last piece. */
  lemma {:induction false} SplitAppend(s: string, t: string)
    requires '/' !in t
    ensures Split(s + t, "/") == WithLast(Split(s, "/"), t)
    decreases |s|
  {
    var i := IndexOf(s, "/");
    BeforeSlash(s);
    if i == |s| {
      assert s[..i] == s;
      OnePiece(s + t);
      OnePiece(s);
    } else {
      var word, rest := s[..i], s[i + 1..];
      assert s[i..][..1] == "/";
      assert s == word + "/" + rest;
      assert s + t == word + "/" + (rest + t);
      SplitAppend(rest, t);
      FirstPiece(word, rest + t);
      FirstPiece(word, rest);
      WithLastBehind(word, Split(rest, "/"), t);
    }
  }

  lemma {:induction false} NamedLast(words: seq<string>)
    requires words != [] && words[|words| - 1] != "" && words[|words| - 1] != "."
    ensures Named(words) != [] && Named(words)[|Named(words)| - 1] == words[|words| - 1]
  {
    if |words| > 1 {
      NamedLast(words[1..]);
    }
  }

  predicate IsYaml(p: Path) {
    var name := NameOf(p);
    |name| >= 5 && name[|name| - 5..] == ".yaml"
  }

  lemma {:induction false} YamlName(s: string, t: string)
    requires t == ".yaml"
    ensures
      var parts := Named(Split(s + t, "/"));
      parts != [] && |parts[|parts| - 1]| >= 5 && parts[|parts| - 1][|parts[|parts| - 1]| - 5..] == t
  {
    SplitAppend(s, t);
    var words := Split(s + t, "/");
    var name := words[|words| - 1];
    assert |name| >= 5 && name[|name| - 5..] == t;
    NamedLast(words);
  }

  lemma {:induction false} UnderIsYaml(p: Path, s: string, t: string)
    requires t == ".yaml"
    ensures IsYaml(Under(p, s + t))
  {
    hide Split, RootOf, Named;
    YamlName(s, t);
  }

  /** Wherever a new item is put, its file is one of those that are read in a directory. */
  lemma {:induction false} DefaultPathIsYaml(e: Entry)
    requires TaskConfiguration.Valid(e)
    ensures IsYaml(DefaultPath(e))
  {
    var s := if Present(e.template) then e.template.value else OrAny(e.subject) + "_" + OrAny(e.context);
    assert FileName(e) == s + ".yaml";
    hide FileName, DirectoryName, LowerName, OrAny, Split, RootOf, IsYaml;
    if Present(e.template) {
      UnderIsYaml(Path("", ["new", "templates"]), s, ".yaml");
    } else {
      UnderIsYaml(Under(Path("", ["new"]), DirectoryName(e)), s, ".yaml");
    }
  }

  lemma {:induction false} OneSlash(a: string, b: string)
    requires '/' !in a && '/' !in b
    ensures Split(a + "/" + b, "/") == [a, b]
  {
    FirstPiece(a, b);
    OnePiece(b);
  }

  lemma {:induction false} TwoSlashes(a: string, b: string)
    requires '/' !in a && '/' !in b
    ensures Split(a + "/" + ("/" + b), "/") == [a, "", b]
  {
    OneSlash("", b);
    assert "" + "/" + b == "/" + b;
    FirstPiece(a, "/" + b);
  }

  lemma {:induction false} AbsoluteName(name: string)
    requires '/' !in name && name !in {"", ".", ".."}
    ensures RootOf("/" + name) == "/" && Parse("/" + name).parts == [name]
  {
    OneSlash("", name);
    assert "" + "/" + name == "/" + name;
    var words := ["", name];
    assert words[1..] == [name] && [name][1..] == [];
    assert Named([name]) == [name];
    assert Named(words) == Named(words[1..]);
    assert ("/" + name)[1] != '/';
  }

  /** A subject that starts with a slash leads out of the repository. */
  lemma {:induction false} AbsoluteSubjectIsLost(top: seq<string>, t: TaskType, n: string, x: string)
    requires top != [] && n != "" && ':' !in n && ':' !in x && '/' !in x
    ensures
      var e := Entry(Some(t), Some(n), Some("/" + x), None, None);
      TaskConfiguration.Valid(e) && !Below(top, DefaultPath(e))
  {
    var e := Entry(Some(t), Some(n), Some("/" + x), None, None);
    var name := x + "_any.yaml";
    assert FileName(e) == "/" + name;
    assert |name| >= 9;
    AbsoluteName(name);
    assert DefaultPath(e) == Path("/", [name]);
    ResolveForward([], [name]);
    assert Place(top, DefaultPath(e)) == [name];
  }

  /** No subject and the subject "any" give the same path. */
  lemma DefaultPathsCollide(t: TaskType, n: string, c: Option<string>)
    requires n != "" && ':' !in n
    ensures
      var a, b := Entry(Some(t), Some(n), None, c, None), Entry(Some(t), Some(n), Some("any"), c, None);
      && TaskConfiguration.Valid(a) && TaskConfiguration.Valid(b)
      && KeyOf(Item(a, 0)) != KeyOf(Item(b, 0)) && DefaultPath(a) == DefaultPath(b)
  {
  }

  lemma {:induction false} EmptyNameDropped(x: string, y: string)
    ensures Named([x, "", y]) == Named([x, y])
  {
    assert [x, "", y][1..] == ["", y] && ["", y][1..] == [y] && [x, y][1..] == [y];
  }

  /** So do contexts that differ in the number of slashes. */
  lemma {:induction false} SlashesCollide(t: TaskType, n: string, x: string, y: string)
    requires n != "" && ':' !in n && '/' !in x && '/' !in y
    ensures
      var a, b := Entry(Some(t), Some(n), None, Some(x + "/" + y), None),
        Entry(Some(t), Some(n), None, Some(x + "//" + y), None);
      && TaskConfiguration.Valid(a) && TaskConfiguration.Valid(b)
      && KeyOf(Item(a, 0)) != KeyOf(Item(b, 0)) && DefaultPath(a) == DefaultPath(b)
  {
    var a, b := Entry(Some(t), Some(n), None, Some(x + "/" + y), None),
      Entry(Some(t), Some(n), None, Some(x + "//" + y), None);
    assert |a.context.value| != |b.context.value|;
    var first, last := "any_" + x, y + ".yaml";
    assert FileName(a) == first + "/" + last;
    assert FileName(b) == first + "/" + ("/" + last);
    OneSlash(first, last);
    TwoSlashes(first, last);
    EmptyNameDropped(first, last);
    assert FileName(a)[0] == 'a' && FileName(b)[0] == 'a';
  }

  ghost predicate Keyed(entries: Entries) {
    forall k :: k in entries ==> KeyOf(entries[k].item) == k
  }

  ghost predicate RemoteOk(remote: Remote) {
    forall k :: k in remote ==> KeyOf(remote[k]) == k && TaskConfiguration.Valid(remote[k].entry)
  }

  // ----- grouping by file -----

  type Groups = map<Path, seq<ItemInFile>>

  /** Puts an item behind those at the same or an earlier position, as a stable sort does. */
  function InsertByPosition(items: seq<ItemInFile>, x: ItemInFile): seq<ItemInFile> {
    if items == [] then [x]
    else
      var n := |items| - 1;
      if items[n].position <= x.position then items + [x] else InsertByPosition(items[..n], x) + [items[n]]
  }

  ghost predicate SortedByPosition(items: seq<ItemInFile>) {
    forall i, j :: 0 <= i < j < |items| ==> items[i].position <= items[j].position
  }

  ghost predicate DistinctItems(items: seq<ItemInFile>) {
    forall i, j :: 0 <= i < j < |items| ==> KeyOf(items[i].item) != KeyOf(items[j].item)
  }

  lemma {:induction false} InsertMembers(items: seq<ItemInFile>, x: ItemInFile)
    ensures forall y :: y in InsertByPosition(items, x) <==> y in items || y == x
  {
    if items != [] {
      var n := |items| - 1;
      assert items == items[..n] + [items[n]];
      InsertMembers(items[..n], x);
    }
  }

  lemma {:induction false} InsertSorted(items: seq<ItemInFile>, x: ItemInFile)
    requires SortedByPosition(items)
    ensures SortedByPosition(InsertByPosition(items, x))
  {
    if items != [] {
      var n := |items| - 1;
      InsertSorted(items[..n], x);
      InsertMembers(items[..n], x);
      var front := InsertByPosition(items[..n], x);
      assert forall i :: 0 <= i < |front| ==> front[i] in front;
    }
  }

  lemma {:induction false} InsertDistinct(items: seq<ItemInFile>, x: ItemInFile)
    requires DistinctItems(items) && forall y :: y in items ==> KeyOf(y.item) != KeyOf(x.item)
    ensures DistinctItems(InsertByPosition(items, x))
  {
    if items != [] {
      var n := |items| - 1;
      InsertDistinct(items[..n], x);
      InsertMembers(items[..n], x);
      var front := InsertByPosition(items[..n], x);
      assert forall i :: 0 <= i < |front| ==> front[i] in front;
    }
  }

  ghost predicate GroupOk(entries: Entries, done: set<Entry>, p: Path, items: seq<ItemInFile>) {
    && items != [] && SortedByPosition(items) && DistinctItems(items)
    && forall x :: x in items ==>
         x.path == p && KeyOf(x.item) in done && KeyOf(x.item) in entries && entries[KeyOf(x.item)] == x
  }

  ghost predicate Grouped(entries: Entries, done: set<Entry>, groups: Groups) {
    && (forall p :: p in groups ==> GroupOk(entries, done, p, groups[p]))
    && (forall k :: k in done && k in entries ==> entries[k].path in groups && entries[k] in groups[entries[k].path])
  }

  function AddToGroup(groups: Groups, x: ItemInFile): Groups {
    groups[x.path := InsertByPosition(if x.path in groups then groups[x.path] else [], x)]
  }

  lemma {:induction false} GroupGrows(entries: Entries, done: set<Entry>, groups: Groups, k: Entry)
    requires Keyed(entries) && Grouped(entries, done, groups) && k in entries && k !in done
    ensures Grouped(entries, done + {k}, AddToGroup(groups, entries[k]))
  {
    var x := entries[k];
    var items := if x.path in groups then groups[x.path] else [];
    InsertMembers(items, x);
    InsertSorted(items, x);
    InsertDistinct(items, x);
    var groups' := AddToGroup(groups, x);
    forall p | p in groups'
      ensures GroupOk(entries, done + {k}, p, groups'[p])
    {
      if p != x.path {
        assert GroupOk(entries, done, p, groups[p]);
      }
    }
  }

  method GroupByPath(entries: Entries) returns (groups: Groups)
    requires Keyed(entries)
    ensures Grouped(entries, entries.Keys, groups)
  {
    groups := map[];
    var todo := entries.Keys;
    while todo != {}
      invariant todo <= entries.Keys && Grouped(entries, entries.Keys - todo, groups)
      decreases todo
    {
      var k :| k in todo;
      GroupGrows(entries, entries.Keys - todo, groups, k);
      groups := AddToGroup(groups, entries[k]);
      assert entries.Keys - (todo - {k}) == entries.Keys - todo + {k};
      todo := todo - {k};
    }
    assert entries.Keys - {} == entries.Keys;
  }

  // ----- what is written -----

  function RawsOf(items: seq<ItemInFile>): (raws: seq<Raw>)
    ensures |raws| == |items| && forall i :: 0 <= i < |items| ==> raws[i] == Raw(items[i].item, 0)
  {
    seq(|items|, i requires 0 <= i < |items| => Raw(items[i].item, 0))
  }

  function FileOf(items: seq<ItemInFile>): File {
    if |items| == 1 then Single(Raw(items[0].item, 0)) else Many(RawsOf(items))
  }

  function Written(groups: Groups): Disk {
    map p | p in groups :: FileOf(groups[p])
  }

  lemma RawsOfFile(items: seq<ItemInFile>)
    ensures Raws(FileOf(items)) == RawsOf(items)
  {
  }

  // ----- what is read -----

  ghost predicate At(disk: Disk, x: ItemInFile) {
    x.path in disk && x.position < |Raws(disk[x.path])| && Raws(disk[x.path])[x.position].item == x.item
  }

  ghost predicate ComesFrom(disk: Disk, paths: set<Path>, entries: Entries) {
    Keyed(entries) && forall k :: k in entries ==> entries[k].path in paths && At(disk, entries[k])
  }

  ghost predicate HasKeys(entries: Entries, raws: seq<Raw>) {
    forall r :: r in raws ==> KeyOf(r.item) in entries
  }

  /** The entries were read from the files at `paths`; of two items with the same key one remains. */
  ghost predicate Loaded(disk: Disk, paths: set<Path>, entries: Entries) {
    ComesFrom(disk, paths, entries) && forall p :: p in paths && p in disk ==> HasKeys(entries, Raws(disk[p]))
  }

  /** Exactly the entries are on disk, each at its position, in the form in which they are written. */
  ghost predicate Tidy(disk: Disk, entries: Entries) {
    && Keyed(entries)
    && (forall k :: k in entries ==> At(disk, entries[k]))
    && (forall p, i :: p in disk && 0 <= i < |Raws(disk[p])| ==> HasEntry(entries, Raws(disk[p])[i].item, p, i))
    && (forall p :: p in disk ==> Canonical(disk[p]))
  }

  ghost predicate HasEntry(entries: Entries, item: Item, p: Path, i: nat) {
    KeyOf(item) in entries && entries[KeyOf(item)] == ItemInFile(item, p, i)
  }

  ghost predicate Canonical(f: File) {
    (f.Many? ==> |f.raws| >= 2) && forall r :: r in Raws(f) ==> r.style == 0
  }

  /** The same items in the same files, perhaps at other positions. */
  ghost predicate SamePlaces(a: Entries, b: Entries) {
    a.Keys == b.Keys && forall k :: k in a ==> a[k].item == b[k].item && a[k].path == b[k].path
  }

  lemma {:induction false} WrittenAt(entries: Entries, groups: Groups, p: Path, i: nat) returns (x: ItemInFile)
    requires Grouped(entries, entries.Keys, groups) && p in groups && i < |Raws(FileOf(groups[p]))|
    ensures i < |groups[p]| && x == groups[p][i] && x.item == Raws(FileOf(groups[p]))[i].item
    ensures x.path == p && KeyOf(x.item) in entries && entries[KeyOf(x.item)] == x
  {
    RawsOfFile(groups[p]);
    assert GroupOk(entries, entries.Keys, p, groups[p]);
    x := groups[p][i];
    assert x in groups[p];
  }

  /** What writing leaves behind: a file below the root holds one of the groups that lead there. */
  ghost predicate Stored(top: seq<string>, disk: Disk, groups: Groups, done: set<Path>) {
    && (forall q :: q in disk ==>
         exists p :: p in done && Leads(top, p, q) && p in groups && disk[q] == FileOf(groups[p]))
    && (forall p :: p in done && Below(top, p) ==> Walked(top, p) in disk)
  }

  predicate Leads(top: seq<string>, p: Path, q: Path) {
    Below(top, p) && Walked(top, p) == q
  }

  /** The file to which the path leads is the one of this group. */
  ghost predicate Holds(top: seq<string>, disk: Disk, p: Path, items: seq<ItemInFile>) {
    Below(top, p) && Walked(top, p) in disk && disk[Walked(top, p)] == FileOf(items)
  }

  lemma {:induction false} StoredAt(top: seq<string>, entries: Entries, groups: Groups, disk: Disk, q: Path)
    returns (p: Path)
    requires Stored(top, disk, groups, groups.Keys) && q in disk
    ensures p in groups && Leads(top, p, q) && disk[q] == FileOf(groups[p])
  {
    p :| p in groups && Leads(top, p, q) && disk[q] == FileOf(groups[p]);
  }

  /** The entries that were written, and what was read back. */
  ghost predicate ReadBack(top: seq<string>, entries: Entries, groups: Groups, disk: Disk, read: Entries) {
    && Keyed(entries) && Grouped(entries, entries.Keys, groups)
    && Stored(top, disk, groups, groups.Keys) && Loaded(disk, disk.Keys, read)
  }

  /** What is read back was written, and is where its path leads. */
  lemma {:induction false} ReadWasWritten(top: seq<string>, entries: Entries, groups: Groups, disk: Disk, read: Entries,
                                          k: Entry)
    requires ReadBack(top, entries, groups, disk, read) && k in read
    ensures k in entries && read[k].item == entries[k].item && Leads(top, entries[k].path, read[k].path)
    ensures disk[read[k].path] == FileOf(groups[entries[k].path])
  {
    assert At(disk, read[k]);
    var p := StoredAt(top, entries, groups, disk, read[k].path);
    var x := WrittenAt(entries, groups, p, read[k].position);
  }

  /** An entry is read back exactly when its path leads below the root and its file was not overwritten. */
  lemma {:induction false} ReadExactly(top: seq<string>, entries: Entries, groups: Groups, disk: Disk, read: Entries,
                                       k: Entry)
    requires ReadBack(top, entries, groups, disk, read) && k in entries
    ensures entries[k].path in groups
    ensures k in read <==> Holds(top, disk, entries[k].path, groups[entries[k].path])
  {
    var p := entries[k].path;
    if k in read {
      ReadWasWritten(top, entries, groups, disk, read, k);
      assert At(disk, read[k]);
    }
    if Holds(top, disk, p, groups[p]) {
      var i :| 0 <= i < |groups[p]| && groups[p][i] == entries[k];
      RawsOfFile(groups[p]);
      assert HasKeys(read, Raws(disk[Walked(top, p)]));
      assert Raws(disk[Walked(top, p)])[i] in Raws(disk[Walked(top, p)]);
    }
  }

  predicate SameFile(top: seq<string>, p: Path, q: Path) {
    Below(top, p) && Below(top, q) && Walked(top, p) == Walked(top, q)
  }

  /** Different paths of entries lead to different files. */
  ghost predicate Apart(top: seq<string>, entries: Entries) {
    forall k, l :: k in entries && l in entries && SameFile(top, entries[k].path, entries[l].path) ==>
      entries[k].path == entries[l].path
  }

  ghost predicate AllBelow(top: seq<string>, entries: Entries) {
    forall k :: k in entries ==> Below(top, entries[k].path)
  }

  ghost predicate AllPlain(entries: Entries) {
    forall k :: k in entries ==> Plain(entries[k].path)
  }

  ghost predicate SameItems(a: Entries, b: Entries) {
    a.Keys == b.Keys && forall k :: k in a ==> a[k].item == b[k].item
  }

  lemma {:induction false} ReadWhenApart(top: seq<string>, entries: Entries, groups: Groups, disk: Disk, read: Entries,
                                         k: Entry)
    requires ReadBack(top, entries, groups, disk, read) && Apart(top, entries) && k in entries
    ensures k in read <==> Below(top, entries[k].path)
  {
    ReadExactly(top, entries, groups, disk, read, k);
    var p := entries[k].path;
    if Below(top, p) {
      var p' := StoredAt(top, entries, groups, disk, Walked(top, p));
      assert GroupOk(entries, entries.Keys, p', groups[p']);
      var x := groups[p'][0];
      assert x in groups[p'];
      assert entries[KeyOf(x.item)].path == p';
    }
  }

  lemma {:induction false} ReadMeansApart(top: seq<string>, entries: Entries, groups: Groups, disk: Disk, read: Entries,
                                          k: Entry, l: Entry)
    requires ReadBack(top, entries, groups, disk, read) && k in read && l in read && k in entries && l in entries
    requires SameFile(top, entries[k].path, entries[l].path)
    ensures entries[k].path == entries[l].path
  {
    ReadWasWritten(top, entries, groups, disk, read, k);
    ReadWasWritten(top, entries, groups, disk, read, l);
    var p, p' := entries[k].path, entries[l].path;
    assert GroupOk(entries, entries.Keys, p, groups[p]) && GroupOk(entries, entries.Keys, p', groups[p']);
    FirstItems(groups[p], groups[p']);
    assert groups[p][0] in groups[p] && groups[p'][0] in groups[p'];
  }

  /** Equal files start with the same item. */
  lemma {:induction false} FirstItems(a: seq<ItemInFile>, b: seq<ItemInFile>)
    requires a != [] && b != [] && FileOf(a) == FileOf(b)
    ensures a[0].item == b[0].item
  {
    RawsOfFile(a);
    RawsOfFile(b);
    assert RawsOf(a)[0] == RawsOf(b)[0];
  }

  lemma {:induction false} ReadIsPart(top: seq<string>, entries: Entries, groups: Groups, disk: Disk, read: Entries)
    requires ReadBack(top, entries, groups, disk, read)
    ensures forall k :: k in read ==> k in entries && read[k].item == entries[k].item
  {
    forall k | k in read
      ensures k in entries && read[k].item == entries[k].item
    {
      ReadWasWritten(top, entries, groups, disk, read, k);
    }
  }

  lemma {:induction false} AllReadMeansApart(top: seq<string>, entries: Entries, groups: Groups, disk: Disk,
                                             read: Entries)
    requires ReadBack(top, entries, groups, disk, read) && entries.Keys <= read.Keys
    ensures AllBelow(top, entries) && Apart(top, entries)
  {
    forall k | k in entries
      ensures Below(top, entries[k].path)
    {
      ReadWasWritten(top, entries, groups, disk, read, k);
    }
    forall k, l | k in entries && l in entries && SameFile(top, entries[k].path, entries[l].path)
      ensures entries[k].path == entries[l].path
    {
      ReadMeansApart(top, entries, groups, disk, read, k, l);
    }
  }

  lemma {:induction false} SameWhenAllRead(entries: Entries, read: Entries)
    requires forall k :: k in read ==> k in entries && read[k].item == entries[k].item
    ensures SameItems(entries, read) <==> entries.Keys <= read.Keys
  {
    assert read.Keys <= entries.Keys;
  }

  lemma {:induction false} ApartMeansAllRead(top: seq<string>, entries: Entries, groups: Groups, disk: Disk,
                                             read: Entries)
    requires ReadBack(top, entries, groups, disk, read) && AllBelow(top, entries) && Apart(top, entries)
    ensures entries.Keys <= read.Keys
  {
    forall k | k in entries
      ensures k in read
    {
      ReadWhenApart(top, entries, groups, disk, read, k);
    }
  }

  /** All items are read back exactly when all paths lead below the root, and apart. */
  lemma {:induction false} AllReadBack(top: seq<string>, entries: Entries, groups: Groups, disk: Disk, read: Entries)
    requires ReadBack(top, entries, groups, disk, read)
    ensures SameItems(entries, read) <==> AllBelow(top, entries) && Apart(top, entries)
  {
    ReadIsPart(top, entries, groups, disk, read);
    SameWhenAllRead(entries, read);
    if AllBelow(top, entries) && Apart(top, entries) {
      ApartMeansAllRead(top, entries, groups, disk, read);
    } else if entries.Keys <= read.Keys {
      AllReadMeansApart(top, entries, groups, disk, read);
    }
  }

  /** Plain paths keep their names, so that everything is read back from where it was. */
  lemma {:induction false} PlainReadBack(top: seq<string>, entries: Entries, groups: Groups, disk: Disk, read: Entries)
    requires ReadBack(top, entries, groups, disk, read) && ".." !in top && AllPlain(entries)
    ensures SamePlaces(entries, read) && disk == Written(groups)
  {
    forall k | k in entries
      ensures Leads(top, entries[k].path, entries[k].path)
    {
      WalkedIsItself(top, entries[k].path);
    }
    AllReadBack(top, entries, groups, disk, read);
    forall k | k in read
      ensures read[k].path == entries[k].path
    {
      ReadWasWritten(top, entries, groups, disk, read, k);
    }
    PlainStored(top, entries, groups, disk);
  }

  lemma {:induction false} PlainStored(top: seq<string>, entries: Entries, groups: Groups, disk: Disk)
    requires Grouped(entries, entries.Keys, groups) && Stored(top, disk, groups, groups.Keys)
    requires ".." !in top && AllPlain(entries)
    ensures disk == Written(groups)
  {
    forall p | p in groups
      ensures Leads(top, p, p)
    {
      assert GroupOk(entries, entries.Keys, p, groups[p]);
      assert groups[p][0] in groups[p];
      assert Plain(entries[KeyOf(groups[p][0].item)].path);
      WalkedIsItself(top, p);
    }
    forall q | q in disk
      ensures q in groups && disk[q] == FileOf(groups[q])
    {
      var p := StoredAt(top, entries, groups, disk, q);
    }
  }

  lemma {:induction false} ReadAtItsPlace(top: seq<string>, entries: Entries, groups: Groups, disk: Disk, read: Entries,
                                          q: Path, i: nat)
    requires ReadBack(top, entries, groups, disk, read) && q in disk && i < |Raws(disk[q])|
    ensures HasEntry(read, Raws(disk[q])[i].item, q, i)
  {
    var p := StoredAt(top, entries, groups, disk, q);
    var x := WrittenAt(entries, groups, p, i);
    assert HasKeys(read, Raws(disk[q]));
    assert Raws(disk[q])[i] in Raws(disk[q]);
    var y := read[KeyOf(x.item)];
    ReadWasWritten(top, entries, groups, disk, read, KeyOf(x.item));
    assert At(disk, y);
    var z := WrittenAt(entries, groups, p, y.position);
    assert GroupOk(entries, entries.Keys, p, groups[p]);
  }

  /** Whatever was written and wherever it went: what was read back and the files below the root agree. */
  lemma {:induction false} ReadBackIsTidy(top: seq<string>, entries: Entries, groups: Groups, disk: Disk, read: Entries)
    requires ReadBack(top, entries, groups, disk, read)
    ensures Tidy(disk, read)
  {
    forall q, i | q in disk && 0 <= i < |Raws(disk[q])|
      ensures HasEntry(read, Raws(disk[q])[i].item, q, i)
    {
      ReadAtItsPlace(top, entries, groups, disk, read, q, i);
    }
    forall q | q in disk
      ensures Canonical(disk[q])
    {
      var p := StoredAt(top, entries, groups, disk, q);
      assert GroupOk(entries, entries.Keys, p, groups[p]);
      RawsOfFile(groups[p]);
    }
  }

  // ----- writing tidy entries again changes nothing -----

  ghost predicate StrictPositions(items: seq<ItemInFile>) {
    forall i, j :: 0 <= i < j < |items| ==> items[i].position < items[j].position
  }

  lemma {:induction false} PositionAtLeast(items: seq<ItemInFile>, i: nat)
    requires StrictPositions(items) && i < |items|
    ensures items[i].position >= i
  {
    if i > 0 {
      PositionAtLeast(items, i - 1);
    }
  }

  lemma PositionsMonotone(items: seq<ItemInFile>, i: nat, j: nat)
    requires StrictPositions(items) && i < |items| && j < |items|
    ensures i <= j ==> items[i].position <= items[j].position
  {
  }

  ghost predicate HasPosition(items: seq<ItemInFile>, k: nat) {
    exists x :: x in items && x.position == k
  }

  /** Strictly increasing positions that fill 0 to n are the indices. */
  lemma {:induction false} PositionsAreIndices(items: seq<ItemInFile>, n: nat, i: nat)
    requires StrictPositions(items) && i < n
    requires forall x :: x in items ==> x.position < n
    requires forall k :: 0 <= k < n ==> HasPosition(items, k)
    ensures i < |items| && items[i].position == i
  {
    if i > 0 {
      PositionsAreIndices(items, n, i - 1);
    }
    assert HasPosition(items, i);
    var x :| x in items && x.position == i;
    var m :| 0 <= m < |items| && items[m] == x;
    if i > 0 {
      PositionsMonotone(items, m, i - 1);
    }
    PositionAtLeast(items, i);
    PositionsMonotone(items, i, m);
  }

  lemma {:induction false} TidyGroupStrict(disk: Disk, entries: Entries, groups: Groups, p: Path)
    requires Tidy(disk, entries) && Grouped(entries, entries.Keys, groups) && p in groups
    ensures StrictPositions(groups[p])
  {
    var items := groups[p];
    assert GroupOk(entries, entries.Keys, p, items);
    forall i, j | 0 <= i < j < |items|
      ensures items[i].position < items[j].position
    {
      assert items[i] in items && items[j] in items;
      assert At(disk, entries[KeyOf(items[i].item)]) && At(disk, entries[KeyOf(items[j].item)]);
    }
  }

  lemma {:induction false} TidyGroupAt(disk: Disk, entries: Entries, groups: Groups, p: Path)
    requires Tidy(disk, entries) && Grouped(entries, entries.Keys, groups) && p in groups
    ensures p in disk && forall x :: x in groups[p] ==> x.path == p && At(disk, x)
  {
    assert GroupOk(entries, entries.Keys, p, groups[p]);
    assert groups[p][0] in groups[p];
    forall x | x in groups[p]
      ensures At(disk, x)
    {
      assert At(disk, entries[KeyOf(x.item)]);
    }
  }

  lemma {:induction false} TidyGroupFills(disk: Disk, entries: Entries, groups: Groups, p: Path, k: nat)
    requires Tidy(disk, entries) && Grouped(entries, entries.Keys, groups) && p in disk && k < |Raws(disk[p])|
    ensures p in groups && HasPosition(groups[p], k)
  {
    var item := Raws(disk[p])[k].item;
    assert HasEntry(entries, item, p, k);
    assert entries[KeyOf(item)] in groups[p];
  }

  lemma {:induction false} TidyGroupIndices(items: seq<ItemInFile>, n: nat)
    requires StrictPositions(items)
    requires forall x :: x in items ==> x.position < n
    requires forall k :: 0 <= k < n ==> HasPosition(items, k)
    ensures |items| == n && forall i :: 0 <= i < n ==> items[i].position == i
  {
    forall i | 0 <= i < n
      ensures i < |items| && items[i].position == i
    {
      PositionsAreIndices(items, n, i);
    }
    if n > 0 {
      PositionsAreIndices(items, n, n - 1);
    }
    if |items| > n {
      PositionAtLeast(items, n);
    }
  }

  lemma {:induction false} TidyGroupFull(disk: Disk, entries: Entries, groups: Groups, p: Path)
    requires Tidy(disk, entries) && Grouped(entries, entries.Keys, groups) && p in disk
    ensures p in groups && |groups[p]| == |Raws(disk[p])|
    ensures forall i :: 0 <= i < |groups[p]| ==> groups[p][i].item == Raws(disk[p])[i].item
  {
    var n := |Raws(disk[p])|;
    assert Canonical(disk[p]);
    forall k | 0 <= k < n
      ensures p in groups && HasPosition(groups[p], k)
    {
      TidyGroupFills(disk, entries, groups, p, k);
    }
    TidyGroupFills(disk, entries, groups, p, 0);
    TidyGroupStrict(disk, entries, groups, p);
    TidyGroupAt(disk, entries, groups, p);
    TidyGroupIndices(groups[p], n);
    forall i | 0 <= i < n
      ensures groups[p][i].item == Raws(disk[p])[i].item
    {
      assert groups[p][i] in groups[p];
    }
  }

  lemma {:induction false} CanonicalIsFileOf(f: File, items: seq<ItemInFile>)
    requires Canonical(f) && |items| == |Raws(f)| && forall i :: 0 <= i < |items| ==> items[i].item == Raws(f)[i].item
    ensures FileOf(items) == f
  {
    if f.Many? {
      forall i | 0 <= i < |items|
        ensures RawsOf(items)[i] == f.raws[i]
      {
        assert f.raws[i] in Raws(f);
      }
      assert RawsOf(items) == f.raws;
    }
  }

  lemma {:induction false} TidyIsWritten(disk: Disk, entries: Entries, groups: Groups)
    requires Tidy(disk, entries) && Grouped(entries, entries.Keys, groups)
    ensures Written(groups) == disk
  {
    forall p | p in groups
      ensures p in disk
    {
      TidyGroupAt(disk, entries, groups, p);
    }
    forall p | p in disk
      ensures p in groups && FileOf(groups[p]) == disk[p]
    {
      TidyGroupFull(disk, entries, groups, p);
      CanonicalIsFileOf(disk[p], groups[p]);
    }
  }
}
