/** The check that a build directory agrees with its .changes and .dsc files. */
module BuildValidation {
  import opened Outcomes
  import opened Paths
  import opened Strings

  datatype Algorithm = Sha1 | Sha256 | Md5

  /** A line of a section of hashes. The name is put under the directory. */
  datatype FileEntry = FileEntry(name: string, hash: string, size: nat)

  /** A parsed .changes or .dsc file. */
  datatype Deb822 = Deb822(hasSource: bool, hasVersion: bool, sections: map<Algorithm, seq<FileEntry>>)

  type Bytes = seq<int>

  /** The directory: the paths of what is in it, the paths that lead to files, and which of them are links. */
  datatype Tree = Tree(base: Path, entries: set<Path>, files: map<Path, Bytes>, links: set<Path>)

  datatype Problem =
    | Missing(section: Algorithm, name: string)
    | WrongHash(algorithm: Algorithm, name: string)
    | NotReferenced(names: set<Path>)

  datatype Failure = SeveralFiles(suffix: string) | NoSection(algorithm: Algorithm)

  predicate EndsWith(p: Path, suffix: string) {
    var s := NameOf(p);
    |suffix| <= |s| && s[|s| - |suffix|..] == suffix
  }

  /** The file that a line means. */
  function FileAt(tree: Tree, e: FileEntry): Path {
    Under(tree.base, e.name)
  }

  /** A dot or further slashes in the name make no difference. */
  lemma {:induction false} DotMakesNoDifference(base: Path, name: string)
    requires '/' !in name && name != ""
    ensures Under(base, "./" + name) == Under(base, name)
  {
    var words := [".", name];
    SplitOfJoin(words, '/');
    SplitOfJoin([name], '/');
    assert Join(words, "/") == "." + "/" + Join(words[1..], "/") && words[1..] == [name];
    assert Named(words) == Named(words[1..]);
    assert ("./" + name)[0] == '.' && name[0] != '/';
    assert "./" + name == "." + "/" + name;
  }

  // ----- what the check decides -----

  function SuffixFiles(tree: Tree, suffix: string): set<Path> {
    set f | f in tree.entries && f in tree.files && f !in tree.links && EndsWith(f, suffix)
  }

  /** Files with these suffixes, also behind links, need not be referenced. */
  predicate Exempt(tree: Tree, f: Path) {
    f in tree.files && (EndsWith(f, ".dsc") || EndsWith(f, ".changes") || EndsWith(f, ".build"))
  }

  predicate Holds(tree: Tree, hash: (Algorithm, Bytes) -> string, a: Algorithm, e: FileEntry) {
    FileAt(tree, e) in tree.files && hash(a, tree.files[FileAt(tree, e)]) == e.hash
  }

  /** What is wrong with one line. */
  function LineProblems(tree: Tree, hash: (Algorithm, Bytes) -> string, a: Algorithm, e: FileEntry): (p: seq<Problem>)
    ensures p == [] <==> Holds(tree, hash, a, e)
  {
    var file := FileAt(tree, e);
    if file !in tree.files then [Missing(a, NameOf(file))]
    else if e.hash != hash(a, tree.files[file]) then [WrongHash(a, NameOf(file))]
    else []
  }

  function SectionProblems(tree: Tree, hash: (Algorithm, Bytes) -> string, a: Algorithm,
                           s: seq<FileEntry>): (p: seq<Problem>)
    ensures p == [] <==> forall e :: e in s ==> Holds(tree, hash, a, e)
  {
    if s == [] then []
    else
      var n := |s| - 1;
      assert s == s[..n] + [s[n]];
      SectionProblems(tree, hash, a, s[..n]) + LineProblems(tree, hash, a, s[n])
  }

  predicate HasSections(d: Deb822) {
    Sha1 in d.sections && Sha256 in d.sections && Md5 in d.sections
  }

  function DebProblems(tree: Tree, hash: (Algorithm, Bytes) -> string, d: Deb822): (p: seq<Problem>)
    requires HasSections(d)
    ensures p == [] <==> Truthful(tree, hash, d)
  {
    SectionProblems(tree, hash, Sha1, d.sections[Sha1]) + SectionProblems(tree, hash, Sha256, d.sections[Sha256])
    + SectionProblems(tree, hash, Md5, d.sections[Md5])
  }

  /** Every line of the three sections names a file with the stated hash. */
  ghost predicate Truthful(tree: Tree, hash: (Algorithm, Bytes) -> string, d: Deb822)
    requires HasSections(d)
  {
    && (forall e :: e in d.sections[Sha1] ==> Holds(tree, hash, Sha1, e))
    && (forall e :: e in d.sections[Sha256] ==> Holds(tree, hash, Sha256, e))
    && (forall e :: e in d.sections[Md5] ==> Holds(tree, hash, Md5, e))
  }

  /** The files that the lines of a section name. */
  function NamedIn(tree: Tree, s: seq<FileEntry>): set<Path> {
    set e | e in s && FileAt(tree, e) in tree.files :: FileAt(tree, e)
  }

  function NamedBy(tree: Tree, d: Deb822): set<Path>
    requires HasSections(d)
  {
    NamedIn(tree, d.sections[Sha1]) + NamedIn(tree, d.sections[Sha256]) + NamedIn(tree, d.sections[Md5])
  }

  /** The .changes file, or the .dsc file, that counts, if there is just one; a .dsc file only with a source and a
      version. */
  ghost function ControlOf(tree: Tree, parse: Bytes -> Deb822, suffix: string): Option<Deb822> {
    if |SuffixFiles(tree, suffix)| != 1 then None
    else
      var f :| f in SuffixFiles(tree, suffix);
      var parsed := parse(tree.files[f]);
      if suffix != ".dsc" || (parsed.hasSource && parsed.hasVersion) then Some(parsed) else None
  }

  lemma OnlyControl(tree: Tree, parse: Bytes -> Deb822, suffix: string, f: Path)
    requires SuffixFiles(tree, suffix) == {f} && f in tree.files
    ensures
      var parsed := parse(tree.files[f]);
      ControlOf(tree, parse, suffix) ==
        if suffix != ".dsc" || (parsed.hasSource && parsed.hasVersion) then Some(parsed) else None
  {
  }

  predicate Usable(d: Option<Deb822>) {
    d.Some? ==> HasSections(d.value)
  }

  function ControlProblems(tree: Tree, hash: (Algorithm, Bytes) -> string, d: Option<Deb822>): seq<Problem>
    requires Usable(d)
  {
    if d.Some? then DebProblems(tree, hash, d.value) else []
  }

  function ControlNames(tree: Tree, d: Option<Deb822>): set<Path>
    requires Usable(d)
  {
    if d.Some? then NamedBy(tree, d.value) else {}
  }

  /** The entries that have to be referenced. */
  function ToReference(tree: Tree): set<Path> {
    set f | f in tree.entries && !Exempt(tree, f)
  }

  /** What has to be referenced and neither control file names. */
  function Leftover(tree: Tree, changes: Option<Deb822>, dsc: Option<Deb822>): seq<Problem>
    requires Usable(changes) && Usable(dsc)
  {
    var rest := ToReference(tree) - ControlNames(tree, changes) - ControlNames(tree, dsc);
    if rest == {} then [] else [NotReferenced(rest)]
  }

  function AllProblems(tree: Tree, hash: (Algorithm, Bytes) -> string, changes: Option<Deb822>,
                       dsc: Option<Deb822>): seq<Problem>
    requires Usable(changes) && Usable(dsc)
  {
    ControlProblems(tree, hash, changes) + ControlProblems(tree, hash, dsc) + Leftover(tree, changes, dsc)
  }

  /** A line means a file with this name that does not exist. */
  ghost predicate NamesMissing(tree: Tree, s: seq<FileEntry>, name: string) {
    exists e :: e in s && FileAt(tree, e) !in tree.files && NameOf(FileAt(tree, e)) == name
  }

  /** A line means a file with this name that has another hash. */
  ghost predicate NamesWrong(tree: Tree, hash: (Algorithm, Bytes) -> string, a: Algorithm, s: seq<FileEntry>,
                             name: string)
  {
    exists e :: e in s && FileAt(tree, e) in tree.files && hash(a, tree.files[FileAt(tree, e)]) != e.hash
                && NameOf(FileAt(tree, e)) == name
  }

  lemma {:induction false} SectionListsExactly(tree: Tree, hash: (Algorithm, Bytes) -> string, a: Algorithm,
                                               s: seq<FileEntry>)
    ensures var problems := SectionProblems(tree, hash, a, s);
      && (forall b, name :: Missing(b, name) in problems <==> b == a && NamesMissing(tree, s, name))
      && (forall b, name :: WrongHash(b, name) in problems <==> b == a && NamesWrong(tree, hash, a, s, name))
      && (forall names :: NotReferenced(names) !in problems)
  {
    if s != [] {
      var front, last := s[..|s| - 1], s[|s| - 1];
      assert s == front + [last];
      SectionListsExactly(tree, hash, a, front);
      var file := FileAt(tree, last);
      var missing, wrong := file !in tree.files, file in tree.files && hash(a, tree.files[file]) != last.hash;
      assert forall name :: NamesMissing(tree, s, name) <==>
        (NamesMissing(tree, front, name) || (missing && NameOf(file) == name));
      assert forall name :: NamesWrong(tree, hash, a, s, name) <==>
        (NamesWrong(tree, hash, a, front, name) || (wrong && NameOf(file) == name));
    }
  }

  ghost predicate LacksFile(tree: Tree, d: Option<Deb822>, a: Algorithm, name: string) {
    d.Some? && a in d.value.sections && NamesMissing(tree, d.value.sections[a], name)
  }

  ghost predicate MisstatesHash(tree: Tree, hash: (Algorithm, Bytes) -> string, d: Option<Deb822>, a: Algorithm,
                                name: string)
  {
    d.Some? && a in d.value.sections && NamesWrong(tree, hash, a, d.value.sections[a], name)
  }

  lemma {:induction false} ControlListsExactly(tree: Tree, hash: (Algorithm, Bytes) -> string, d: Option<Deb822>)
    requires Usable(d)
    ensures var problems := ControlProblems(tree, hash, d);
      && (forall a, name :: Missing(a, name) in problems <==> LacksFile(tree, d, a, name))
      && (forall a, name :: WrongHash(a, name) in problems <==> MisstatesHash(tree, hash, d, a, name))
      && (forall names :: NotReferenced(names) !in problems)
  {
    if d.Some? {
      SectionListsExactly(tree, hash, Sha1, d.value.sections[Sha1]);
      SectionListsExactly(tree, hash, Sha256, d.value.sections[Sha256]);
      SectionListsExactly(tree, hash, Md5, d.value.sections[Md5]);
      hide SectionProblems, NamesMissing, NamesWrong;
    }
  }

  /** These are the files that have to be referenced and are named by neither control file. */
  ghost predicate AreUnnamed(tree: Tree, changes: Option<Deb822>, dsc: Option<Deb822>, names: set<Path>)
    requires Usable(changes) && Usable(dsc)
  {
    forall f :: f in names <==>
      (f in tree.entries && !Exempt(tree, f) && f !in ControlNames(tree, changes) && f !in ControlNames(tree, dsc))
  }

  lemma LeftoverIsOther(tree: Tree, changes: Option<Deb822>, dsc: Option<Deb822>)
    requires Usable(changes) && Usable(dsc)
    ensures forall p :: p in Leftover(tree, changes, dsc) ==> p.NotReferenced?
  {
  }

  lemma {:induction false} LinesListedExactly(tree: Tree, hash: (Algorithm, Bytes) -> string, changes: Option<Deb822>,
                                              dsc: Option<Deb822>)
    requires Usable(changes) && Usable(dsc)
    ensures var problems := AllProblems(tree, hash, changes, dsc);
      && (forall a, name :: Missing(a, name) in problems <==>
            LacksFile(tree, changes, a, name) || LacksFile(tree, dsc, a, name))
      && (forall a, name :: WrongHash(a, name) in problems <==>
            MisstatesHash(tree, hash, changes, a, name) || MisstatesHash(tree, hash, dsc, a, name))
  {
    ControlListsExactly(tree, hash, changes);
    ControlListsExactly(tree, hash, dsc);
    LeftoverIsOther(tree, changes, dsc);
    hide ControlProblems, Leftover, LacksFile, MisstatesHash;
  }

  lemma {:induction false} LeftoverListedExactly(tree: Tree, hash: (Algorithm, Bytes) -> string,
                                                 changes: Option<Deb822>, dsc: Option<Deb822>)
    requires Usable(changes) && Usable(dsc)
    ensures forall names :: NotReferenced(names) in AllProblems(tree, hash, changes, dsc) <==>
      names != {} && AreUnnamed(tree, changes, dsc, names)
  {
    ControlListsExactly(tree, hash, changes);
    ControlListsExactly(tree, hash, dsc);
    OnlyOneIsUnnamed(tree, changes, dsc);
    hide ControlProblems, ControlNames, LacksFile, MisstatesHash, AreUnnamed, ToReference;
  }

  /** A file is listed as missing exactly for each section that names it, and a hash as wrong exactly for each section
      that states another one; the files that nobody names are listed together, if there are any. */
  lemma {:induction false} ListedExactly(tree: Tree, hash: (Algorithm, Bytes) -> string, changes: Option<Deb822>,
                                         dsc: Option<Deb822>)
    requires Usable(changes) && Usable(dsc)
    ensures var problems := AllProblems(tree, hash, changes, dsc);
      && (forall a, name :: Missing(a, name) in problems <==>
            LacksFile(tree, changes, a, name) || LacksFile(tree, dsc, a, name))
      && (forall a, name :: WrongHash(a, name) in problems <==>
            MisstatesHash(tree, hash, changes, a, name) || MisstatesHash(tree, hash, dsc, a, name))
      && (forall names :: NotReferenced(names) in problems <==> names != {} && AreUnnamed(tree, changes, dsc, names))
  {
    LinesListedExactly(tree, hash, changes, dsc);
    LeftoverListedExactly(tree, hash, changes, dsc);
    hide AllProblems, LacksFile, MisstatesHash, AreUnnamed;
  }

  lemma {:induction false} OnlyOneIsUnnamed(tree: Tree, changes: Option<Deb822>, dsc: Option<Deb822>)
    requires Usable(changes) && Usable(dsc)
    ensures forall names :: AreUnnamed(tree, changes, dsc, names) <==>
      names == ToReference(tree) - ControlNames(tree, changes) - ControlNames(tree, dsc)
  {
    hide ControlNames, Exempt;
    var rest := ToReference(tree) - ControlNames(tree, changes) - ControlNames(tree, dsc);
    assert AreUnnamed(tree, changes, dsc, rest);
    forall names | AreUnnamed(tree, changes, dsc, names)
      ensures names == rest
    {
      assert forall f :: f in names <==> f in rest;
    }
  }

  lemma {:induction false} NothingLeftOver(tree: Tree, changes: Option<Deb822>, dsc: Option<Deb822>)
    requires Usable(changes) && Usable(dsc)
    ensures Leftover(tree, changes, dsc) == [] <==>
      forall f :: f in tree.entries && !Exempt(tree, f) ==>
        f in ControlNames(tree, changes) || f in ControlNames(tree, dsc)
  {
    var rest := ToReference(tree) - ControlNames(tree, changes) - ControlNames(tree, dsc);
    assert rest == {} <==> forall f :: f in ToReference(tree) ==> f !in rest;
    assert forall f :: f in ToReference(tree) <==> f in tree.entries && !Exempt(tree, f);
  }

  /** Reading the control file with this suffix raises: there are several, or it lacks one of the sections. */
  ghost predicate Fails(tree: Tree, parse: Bytes -> Deb822, suffix: string) {
    |SuffixFiles(tree, suffix)| > 1 || !Usable(ControlOf(tree, parse, suffix))
  }

  lemma {:induction false} SectionStep(tree: Tree, hash: (Algorithm, Bytes) -> string, a: Algorithm, s: seq<FileEntry>,
                                       i: nat, errors: seq<Problem>)
    requires i < |s|
    ensures errors + SectionProblems(tree, hash, a, s[..i]) + LineProblems(tree, hash, a, s[i]) ==
      errors + SectionProblems(tree, hash, a, s[..i + 1])
    ensures SectionProblems(tree, hash, a, s[..i + 1]) ==
      SectionProblems(tree, hash, a, s[..i]) + LineProblems(tree, hash, a, s[i])
    ensures NamedIn(tree, s[..i + 1]) ==
      NamedIn(tree, s[..i]) + if FileAt(tree, s[i]) in tree.files then {FileAt(tree, s[i])} else {}
  {
    assert s[..i + 1] == s[..i] + [s[i]];
    assert s[..i + 1][..i] == s[..i];
  }

  lemma {:induction false} ThreeSections(tree: Tree, hash: (Algorithm, Bytes) -> string, d: Deb822,
                                         errors: seq<Problem>, files: set<Path>)
    requires HasSections(d)
    ensures errors + SectionProblems(tree, hash, Sha1, d.sections[Sha1]) +
      SectionProblems(tree, hash, Sha256, d.sections[Sha256])
      + SectionProblems(tree, hash, Md5, d.sections[Md5]) == errors + DebProblems(tree, hash, d)
    ensures files - NamedIn(tree, d.sections[Sha1]) - NamedIn(tree, d.sections[Sha256]) -
      NamedIn(tree, d.sections[Md5]) == files - NamedBy(tree, d)
  {
    hide SectionProblems, NamedIn;
  }

  /** Everything the control files say is true, and every other entry of the directory is named by one of them, but for
      files that end in .dsc, .changes or .build. */
  ghost predicate Consistent(tree: Tree, hash: (Algorithm, Bytes) -> string, changes: Option<Deb822>,
                             dsc: Option<Deb822>)
    requires Usable(changes) && Usable(dsc)
  {
    && (changes.Some? ==> Truthful(tree, hash, changes.value))
    && (dsc.Some? ==> Truthful(tree, hash, dsc.value))
    && forall f :: f in tree.entries ==>
         || IsNamed(tree, changes, f) || IsNamed(tree, dsc, f)
         || (f in tree.files && (EndsWith(f, ".dsc") || EndsWith(f, ".changes") || EndsWith(f, ".build")))
  }

  lemma {:induction false} NoErrorsMeansConsistent(tree: Tree, hash: (Algorithm, Bytes) -> string,
                                                   changes: Option<Deb822>, dsc: Option<Deb822>)
    requires Usable(changes) && Usable(dsc)
    ensures AllProblems(tree, hash, changes, dsc) == [] <==> Consistent(tree, hash, changes, dsc)
  {
    NothingLeftOver(tree, changes, dsc);
    if (changes.Some? ==> Truthful(tree, hash, changes.value)) && (dsc.Some? ==> Truthful(tree, hash, dsc.value)) {
      TruthfulNames(tree, hash, changes);
      TruthfulNames(tree, hash, dsc);
    }
  }

  /** A line of one of the sections names the file. */
  ghost predicate IsNamed(tree: Tree, d: Option<Deb822>, f: Path) {
    d.Some? && exists a, e :: a in d.value.sections && e in d.value.sections[a] && FileAt(tree, e) == f
  }

  lemma {:induction false} TruthfulNames(tree: Tree, hash: (Algorithm, Bytes) -> string, d: Option<Deb822>)
    requires Usable(d) && (d.Some? ==> Truthful(tree, hash, d.value))
    ensures forall f :: f in ControlNames(tree, d) <==> IsNamed(tree, d, f)
  {
    if d.Some? {
      forall f | IsNamed(tree, d, f)
        ensures f in ControlNames(tree, d)
      {
        var a, e :| a in d.value.sections && e in d.value.sections[a] && FileAt(tree, e) == f;
        match a
        case Sha1 => assert Holds(tree, hash, Sha1, e);
        case Sha256 => assert Holds(tree, hash, Sha256, e);
        case Md5 => assert Holds(tree, hash, Md5, e);
      }
    }
  }

  class SbuildValidator {
    const tree: Tree
    const parse: Bytes -> Deb822
    const hash: (Algorithm, Bytes) -> string
    var errors: seq<Problem>
    var filesInDirectory: set<Path>

    constructor (tree: Tree, parse: Bytes -> Deb822, hash: (Algorithm, Bytes) -> string)
      ensures this.tree == tree && this.parse == parse && this.hash == hash
    {
      this.tree, this.parse, this.hash, this.errors, this.filesInDirectory := tree, parse, hash, [], {};
    }

    /** The one file with the suffix, if any. */
    method FindFileSuffix(suffix: string) returns (r: Result<Option<Path>, Failure>)
      ensures r.Err? <==> |SuffixFiles(tree, suffix)| > 1
      ensures r.Err? ==> r.error == SeveralFiles(suffix)
      ensures r.Ok? ==>
        if r.value.Some? then SuffixFiles(tree, suffix) == {r.value.value} else SuffixFiles(tree, suffix) == {}
    {
      var files := SuffixFiles(tree, suffix);
      if |files| == 1 {
        var f :| f in files;
        assert |files - {f}| == 0;
        r := Ok(Some(f));
      } else if |files| == 0 {
        r := Ok(None);
      } else {
        r := Err(SeveralFiles(suffix));
      }
    }

    method ReadControl(suffix: string) returns (r: Result<Option<Deb822>, Failure>)
      ensures r.Err? <==> |SuffixFiles(tree, suffix)| > 1
      ensures r.Err? ==> r.error == SeveralFiles(suffix)
      ensures r.Ok? ==> r.value == ControlOf(tree, parse, suffix)
    {
      var file := FindFileSuffix(suffix);
      if file.Err? {
        return Err(file.error);
      }
      if file.value.None? {
        return Ok(None);
      }
      assert file.value.value in SuffixFiles(tree, suffix);
      OnlyControl(tree, parse, suffix, file.value.value);
      var d := parse(tree.files[file.value.value]);
      r := Ok(if suffix != ".dsc" || (d.hasSource && d.hasVersion) then Some(d) else None);
    }

    method ValidateLine(a: Algorithm, e: FileEntry)
      modifies this`errors, this`filesInDirectory
      ensures errors == old(errors) + LineProblems(tree, hash, a, e)
      ensures filesInDirectory ==
        old(filesInDirectory) - if FileAt(tree, e) in tree.files then {FileAt(tree, e)} else {}
    {
      var file := Under(tree.base, e.name);
      if file !in tree.files {
        errors := errors + [Missing(a, NameOf(file))];
        return;
      }
      if e.hash != hash(a, tree.files[file]) {
        errors := errors + [WrongHash(a, NameOf(file))];
      }
      if file in filesInDirectory {
        filesInDirectory := filesInDirectory - {file};
      }
    }

    /** Checks the lines of one section. */
    method ValidateSection(a: Algorithm, s: seq<FileEntry>)
      modifies this`errors, this`filesInDirectory
      ensures errors == old(errors) + SectionProblems(tree, hash, a, s)
      ensures filesInDirectory == old(filesInDirectory) - NamedIn(tree, s)
    {
      for i := 0 to |s|
        invariant errors == old(errors) + SectionProblems(tree, hash, a, s[..i])
        invariant filesInDirectory == old(filesInDirectory) - NamedIn(tree, s[..i])
      {
        SectionStep(tree, hash, a, s, i, old(errors));
        ValidateLine(a, s[i]);
      }
      assert s[..|s|] == s;
    }

    /** Checks the three sections in turn. */
    method ValidateDeb822File(d: Deb822) returns (r: Result<(), Failure>)
      modifies this`errors, this`filesInDirectory
      ensures r.Ok? <==> HasSections(d)
      ensures r.Err? ==> r.error == NoSection(
        if Sha1 !in d.sections then Sha1 else if Sha256 !in d.sections then Sha256 else Md5)
      ensures r.Ok? ==> errors == old(errors) + DebProblems(tree, hash, d)
      ensures r.Ok? ==> filesInDirectory == old(filesInDirectory) - NamedBy(tree, d)
    {
      ghost var before, files := errors, filesInDirectory;
      if Sha1 !in d.sections {
        return Err(NoSection(Sha1));
      }
      ValidateSection(Sha1, d.sections[Sha1]);
      if Sha256 !in d.sections {
        return Err(NoSection(Sha256));
      }
      ValidateSection(Sha256, d.sections[Sha256]);
      if Md5 !in d.sections {
        return Err(NoSection(Md5));
      }
      ValidateSection(Md5, d.sections[Md5]);
      ThreeSections(tree, hash, d, before, files);
      r := Ok(());
    }

    method ValidateControl(suffix: string) returns (r: Result<Option<Deb822>, Failure>)
      modifies this`errors, this`filesInDirectory
      ensures r.Ok? ==> r.value == ControlOf(tree, parse, suffix) && Usable(r.value)
      ensures r.Ok? ==> errors == old(errors) + ControlProblems(tree, hash, r.value)
      ensures r.Ok? ==> filesInDirectory == old(filesInDirectory) - ControlNames(tree, r.value)
      ensures r.Err? <==> Fails(tree, parse, suffix)
    {
      r := ReadControl(suffix);
      if r.Err? || r.value.None? {
        return;
      }
      var checked := ValidateDeb822File(r.value.value);
      if checked.Err? {
        return Err(checked.error);
      }
    }

    method RemoveExempt()
      requires filesInDirectory == tree.entries
      modifies this`filesInDirectory
      ensures filesInDirectory == ToReference(tree)
    {
      filesInDirectory := filesInDirectory - (set f | f in tree.entries && Exempt(tree, f));
    }

    method AddLeftover(changes: Option<Deb822>, dsc: Option<Deb822>)
      requires Usable(changes) && Usable(dsc)
      requires filesInDirectory == ToReference(tree) - ControlNames(tree, changes) - ControlNames(tree, dsc)
      modifies this`errors
      ensures errors == old(errors) + Leftover(tree, changes, dsc)
    {
      if |filesInDirectory| > 0 {
        errors := errors + [NotReferenced(filesInDirectory)];
      }
    }

    /** Both control files, and then what they leave over. */
    method CheckControls(changesSuffix: string, dscSuffix: string)
      returns (r: Result<(Option<Deb822>, Option<Deb822>), Failure>)
      requires errors == [] && filesInDirectory == ToReference(tree)
      modifies this
      ensures r.Err? <==> Fails(tree, parse, changesSuffix) || Fails(tree, parse, dscSuffix)
      ensures r.Ok? ==>
        r.value.0 == ControlOf(tree, parse, changesSuffix) && r.value.1 == ControlOf(tree, parse, dscSuffix)
      ensures r.Ok? ==> Usable(r.value.0) && Usable(r.value.1)
      ensures r.Ok? ==> errors == AllProblems(tree, hash, r.value.0, r.value.1)
    {
      var changes := ValidateControl(changesSuffix);
      if changes.Err? {
        return Err(changes.error);
      }
      assert errors == ControlProblems(tree, hash, changes.value) by {
        assert [] + ControlProblems(tree, hash, changes.value) == ControlProblems(tree, hash, changes.value);
      }
      var dsc := ValidateControl(dscSuffix);
      if dsc.Err? {
        return Err(dsc.error);
      }
      AddLeftover(changes.value, dsc.value);
      r := Ok((changes.value, dsc.value));
    }

    /** The errors are those of the .changes file, then those of the .dsc file, then one about the files that
        neither of them names. */
    method CheckDirectoryForConsistencyErrors() returns (r: Result<seq<Problem>, Failure>)
      modifies this
      ensures r.Err? <==> Fails(tree, parse, ".changes") || Fails(tree, parse, ".dsc")
      ensures r.Ok? ==>
        var changes, dsc := ControlOf(tree, parse, ".changes"), ControlOf(tree, parse, ".dsc");
        && Usable(changes) && Usable(dsc) && r.value == AllProblems(tree, hash, changes, dsc)
        && (r.value == [] <==> Consistent(tree, hash, changes, dsc))
    {
      errors := [];
      filesInDirectory := tree.entries;
      RemoveExempt();
      var checked := CheckControls(".changes", ".dsc");
      if checked.Err? {
        return Err(checked.error);
      }
      NoErrorsMeansConsistent(tree, hash, checked.value.0, checked.value.1);
      r := Ok(errors);
    }
  }
}
