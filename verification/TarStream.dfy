/** An artifact as a compressed archive that is written and read in turns: a file is only added to the archive
    when everything written so far has been returned. */
module TarStream {
  import opened Outcomes
  import opened Strings

  type Byte = b: int | 0 <= b < 256
  type Path = string

  const MAX_CHUNK_SIZE := 52428800

  /** What the iterator gives: a chunk, which may be empty, or the end. */
  datatype Chunk = Data(bytes: seq<Byte>) | Stop

  // ----- the list of files -----

  ghost predicate Descending(paths: seq<Path>) {
    forall i, j :: 0 <= i < j < |paths| ==> Leq(paths[j], paths[i]) && paths[i] != paths[j]
  }

  ghost predicate Ascending(paths: seq<Path>) {
    forall i, j :: 0 <= i < j < |paths| ==> Leq(paths[i], paths[j]) && paths[i] != paths[j]
  }

  function Reverse(s: seq<Path>): (r: seq<Path>)
    ensures |r| == |s| && forall i :: 0 <= i < |s| ==> r[i] == s[|s| - 1 - i]
  {
    if s == [] then [] else [s[|s| - 1]] + Reverse(s[..|s| - 1])
  }

  lemma ReverseAscends(s: seq<Path>)
    requires Descending(s)
    ensures Ascending(Reverse(s))
  {
  }

  lemma PrependDescends(p: Path, s: seq<Path>)
    requires Descending(s) && forall q :: q in s ==> Leq(q, p) && q != p
    ensures Descending([p] + s)
  {
  }

  /** The least of some paths. */
  method Least(s: set<Path>) returns (least: Path)
    requires s != {}
    ensures least in s && forall p :: p in s ==> Leq(least, p)
  {
    least :| least in s;
    LeqTotal(least, least);
    var todo := s - {least};
    while todo != {}
      invariant least in s && todo <= s && forall p :: p in s - todo ==> Leq(least, p)
      decreases todo
    {
      var q :| q in todo;
      LeqTotal(least, q);
      LeqTotal(q, q);
      if !Leq(least, q) {
        forall p | p in s - todo
          ensures Leq(q, p)
        {
          LeqTransitive(q, least, p);
        }
        least := q;
      }
      todo := todo - {q};
    }
  }

  class TarArtifact {
    /** Files still to add; the last one is next. */
    var files: seq<Path>
    /** What was written to the archive file, and which files were added to it. */
    var archive: seq<Byte>
    var added: seq<Path>
    var tarClosed: bool
    /** Up to where the archive file was read. */
    var pos: nat
    /** Whether reading a file for the archive failed. */
    var failed: bool

    ghost predicate Valid()
      reads this
    {
      pos <= |archive| && (tarClosed ==> files == [])
    }

    /** The complete files of the artifact below the subdirectory, from the last path to the first. */
    constructor (artifact: map<Path, bool>, subdirectory: Option<Path>)
      ensures Valid() && archive == [] && added == [] && pos == 0 && !tarClosed && !failed
      ensures Descending(files)
      ensures forall p :: p in files <==>
        p in artifact && artifact[p] && (subdirectory.Some? ==> StartsWith(p, subdirectory.value))
    {
      this.archive, this.added, this.tarClosed, this.pos, this.failed := [], [], false, 0, false;
      this.files := [];
      new;
      var prefix := if subdirectory.Some? then subdirectory.value else "";
      var todo := set p | p in artifact && artifact[p] && StartsWith(p, prefix);
      ghost var all := todo;
      while todo != {}
        invariant Descending(files) && todo <= all && forall p :: p in files <==> p in all - todo
        invariant forall p, q :: p in files && q in todo ==> Leq(p, q)
        invariant archive == [] && added == [] && pos == 0 && !tarClosed && !failed
        decreases todo
      {
        var p := Least(todo);
        PrependDescends(p, files);
        files := [p] + files;
        todo := todo - {p};
      }
    }

    /** Adds a file to the archive. How much of it reaches the archive file at once depends on buffering. */
    method AddFile(path: Path) returns (ok: bool)
      modifies this`archive, this`added
      ensures old(archive) <= archive && added == if ok then old(added) + [path] else old(added)
    {
      var written: seq<Byte> := *;
      archive := archive + written;
      ok := *;
      if ok {
        added := added + [path];
      }
    }

    /** Ends the archive; what was still buffered is written. */
    method CloseTar()
      modifies this`archive
      ensures old(archive) <= archive
    {
      var written: seq<Byte> := *;
      archive := archive + written;
    }

    /** Either returns what can be read; or adds the next file; or ends the archive; or, when there is nothing left
        to do, stops. The archive only grows when everything in it was returned. */
    method Next() returns (r: Chunk)
      requires Valid() && !failed
      modifies this
      ensures Valid() && old(archive) <= archive
      ensures r.Data? ==>
        |r.bytes| <= 52428800 && pos == old(pos) + |r.bytes| && archive[old(pos)..pos] == r.bytes
      ensures r.Data? ==> !failed && added + Reverse(files) == old(added + Reverse(files))
      ensures r.Data? ==>
        Progress(old(|files|), old(tarClosed), old(|archive| - pos), |files|, tarClosed, |archive| - pos)
      ensures old(pos < |archive|) ==>
        && r.Data? && (pos == |archive| || |r.bytes| == 52428800) && r.bytes != []
        && archive == old(archive) && files == old(files) && added == old(added)
      ensures r.Stop? ==> pos == old(pos)
      ensures r.Stop? && !failed ==>
        tarClosed && pos == |archive| && archive == old(archive) && files == old(files) == [] && added == old(added)
      ensures r.Stop? && failed ==> added < old(added + Reverse(files))
    {
      var size := if |archive| - pos < MAX_CHUNK_SIZE then |archive| - pos else MAX_CHUNK_SIZE;
      var data := archive[pos..pos + size];
      pos := pos + size;
      if data != [] {
        return Data(data);
      }
      if |files| > 0 {
        var n := |files| - 1;
        var path := files[n];
        files := files[..n];
        assert added + Reverse(files) == added + Reverse(old(files))[1..];
        var ok := AddFile(path);
        if !ok {
          failed := true;
          return Stop;
        }
      } else if tarClosed {
        return Stop;
      } else if |files| == 0 {
        CloseTar();
        tarClosed := true;
      } else {
        assert false;
      }
      r := Data([]);
    }

    /** Iterates to the end. Without failure the chunks are together the whole archive, which is closed and has each
        file once, in ascending order. */
    method Drain() returns (received: seq<Byte>)
      requires Valid() && !failed && pos == 0 && added == [] && Descending(files)
      modifies this
      ensures Valid() && received == archive[..pos]
      ensures !failed ==> received == archive && tarClosed && added == Reverse(old(files)) && Ascending(added)
      ensures failed ==> added < Reverse(old(files))
    {
      ReverseAscends(files);
      received := [];
      ghost var all := Reverse(files);
      var chunk := Next();
      while chunk.Data?
        invariant Valid()
        invariant chunk.Data? ==> !failed && added + Reverse(files) == all
        invariant chunk.Data? ==> pos == |received| + |chunk.bytes| && archive[..pos] == received + chunk.bytes
        invariant chunk.Stop? ==> pos == |received| && archive[..pos] == received
        invariant chunk.Stop? && !failed ==> tarClosed && pos == |archive| && added == all
        invariant chunk.Stop? && failed ==> added < all
        decreases chunk.Data?, |files|, !tarClosed, |archive| - pos
      {
        received := received + chunk.bytes;
        ghost var before := archive;
        chunk := Next();
        assert archive[..|before|] == before;
      }
    }
  }

  /** Fewer files are left, or the archive is now closed, or less is left to read. */
  predicate Progress(files: nat, closed: bool, unread: int, files': nat, closed': bool, unread': int) {
    files' < files || (files' == files && ((!closed && closed') || (closed == closed' && unread' < unread)))
  }
}
