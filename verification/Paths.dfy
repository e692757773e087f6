/** Paths as Python's pathlib keeps them, and where they lead. */
module Paths {
  import opened Strings

  /** The root is empty for a relative path; two slashes in front are kept apart from one. */
  datatype Path = Path(root: string, parts: seq<string>)

  /** Empty pieces and single dots are dropped; two dots are kept. */
  function Named(words: seq<string>): (parts: seq<string>)
    ensures forall w :: w in parts <==> w in words && w != "" && w != "."
  {
    if words == [] then []
    else if words[0] == "" || words[0] == "." then Named(words[1..])
    else [words[0]] + Named(words[1..])
  }

  function RootOf(s: string): string {
    if !StartsWith(s, "/") then ""
    else if StartsWith(s, "//") && !StartsWith(s, "///") then "//"
    else "/"
  }

  function Parse(s: string): Path {
    Path(RootOf(s), Named(Split(s, "/")))
  }

  /** The slash operator: an absolute part starts over. */
  function Under(p: Path, s: string): Path {
    if RootOf(s) != "" then Parse(s) else Path(p.root, p.parts + Parse(s).parts)
  }

  /** Relative, and never upwards. */
  predicate Plain(p: Path) {
    p.root == "" && p.parts != [] && ".." !in p.parts
  }

  /** The last component. */
  function NameOf(p: Path): string {
    if p.parts == [] then "" else p.parts[|p.parts| - 1]
  }

  // ----- where a path leads -----

  /** Following the parts from a directory. */
  function Resolve(from: seq<string>, parts: seq<string>): seq<string>
    decreases parts
  {
    if parts == [] then from
    else if parts[0] != ".." then Resolve(from + [parts[0]], parts[1..])
    else Resolve(if from == [] then [] else from[..|from| - 1], parts[1..])
  }

  /** The place that a path means when it is put under the directory `top`. */
  function Place(top: seq<string>, p: Path): seq<string> {
    Resolve(if p.root == "" then top else [], p.parts)
  }

  predicate IsBelow(top: seq<string>, place: seq<string>) {
    |top| < |place| && place[..|top|] == top
  }

  /** The path leads to something below the directory. */
  predicate Below(top: seq<string>, p: Path) {
    IsBelow(top, Place(top, p))
  }

  /** How something below the directory is called when the directory is walked through. */
  function Walked(top: seq<string>, p: Path): Path
    requires Below(top, p)
  {
    Path("", Place(top, p)[|top|..])
  }

  lemma {:induction false} ResolveForward(from: seq<string>, parts: seq<string>)
    requires ".." !in parts
    ensures Resolve(from, parts) == from + parts
    decreases parts
  {
    if parts != [] {
      ResolveForward(from + [parts[0]], parts[1..]);
      assert from + parts == from + [parts[0]] + parts[1..];
    }
  }

  lemma {:induction false} ResolvedHasNoDots(from: seq<string>, parts: seq<string>)
    requires ".." !in from
    ensures ".." !in Resolve(from, parts)
    decreases parts
  {
    if parts != [] {
      if parts[0] != ".." {
        ResolvedHasNoDots(from + [parts[0]], parts[1..]);
      } else {
        ResolvedHasNoDots(if from == [] then [] else from[..|from| - 1], parts[1..]);
      }
    }
  }

  /** A path is called by its own name exactly when it is plain. */
  lemma {:induction false} WalkedIsItself(top: seq<string>, p: Path)
    requires ".." !in top
    ensures Plain(p) <==> Below(top, p) && Walked(top, p) == p
  {
    if Plain(p) {
      ResolveForward(top, p.parts);
    }
    if Below(top, p) {
      WalkedIsPlain(top, p);
    }
  }

  lemma {:induction false} WalkedIsPlain(top: seq<string>, p: Path)
    requires ".." !in top && Below(top, p)
    ensures Plain(Walked(top, p))
  {
    ResolvedHasNoDots(if p.root == "" then top else [], p.parts);
  }
}
