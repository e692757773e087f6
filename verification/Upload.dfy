/** How a file is uploaded in chunks to a server that keeps what it already has. */
module Upload {
  import opened Outcomes

  type Byte = b: int | 0 <= b < 256

  const MAX_CHUNK_SIZE_BYTES := 52428800
  const MAX_FILE_UPLOAD_RETRIES := 3
  const MAX_CHUNK_UPLOAD_RETRIES := 3

  /** Answers of the server. `Partial` and `Continue` carry the end that is named in the Range header. */
  datatype Response = Done | Partial(end: nat) | Created | Continue(end: nat) | Conflict | Other

  /** A request as the server sees it: the announced range, and how many bytes came. */
  datatype Request = Request(start: int, end: int, length: nat)

  datatype Error = ConnectionError | UnexpectedStatus | UploadFailed

  // ----- tiling -----

  function ChunkEnd(start: int, size: nat): int {
    if size - 1 <= start + MAX_CHUNK_SIZE_BYTES - 1 then size - 1 else start + MAX_CHUNK_SIZE_BYTES - 1
  }

  /** The requests for the bytes from `start` on. */
  function Tiles(start: nat, size: nat): seq<Request>
    decreases size - start
  {
    if start >= size then []
    else
      var end := ChunkEnd(start, size);
      [Request(start, end, end - start + 1)] + Tiles(end + 1, size)
  }

  /** How many chunks are needed for this many bytes. */
  function Chunks(missing: nat): nat {
    (missing + MAX_CHUNK_SIZE_BYTES - 1) / MAX_CHUNK_SIZE_BYTES
  }

  /** The ranges cover what is missing without gap or overlap, none is too long, and there are no more than are
      needed. */
  lemma {:induction false} TilesFit(start: nat, size: nat)
    requires start < size
    ensures
      var tiles := Tiles(start, size);
      && tiles != [] && tiles[0].start == start && tiles[|tiles| - 1].end == size - 1
      && (forall i :: 0 < i < |tiles| ==> tiles[i].start == tiles[i - 1].end + 1)
      && (forall t :: t in tiles ==>
           start <= t.start <= t.end < size && t.length == t.end - t.start + 1 <= 52428800)
      && (forall i :: 0 <= i < |tiles| - 1 ==> tiles[i].length == 52428800)
      && |tiles| == Chunks(size - start)
    decreases size - start
  {
    var end := ChunkEnd(start, size);
    var rest := Tiles(end + 1, size);
    assert Tiles(start, size) == [Request(start, end, end - start + 1)] + rest;
    if end + 1 < size {
      TilesFit(end + 1, size);
      OneMoreChunk(size - start);
    } else {
      OneChunk(size - start);
    }
  }

  lemma OneChunk(missing: nat)
    requires 0 < missing <= MAX_CHUNK_SIZE_BYTES
    ensures Chunks(missing) == 1
  {
  }

  lemma OneMoreChunk(missing: nat)
    requires missing > MAX_CHUNK_SIZE_BYTES
    ensures Chunks(missing) == Chunks(missing - MAX_CHUNK_SIZE_BYTES) + 1
  {
  }

  // ----- the server -----

  /** The chunk was taken, so that `all` was there; then either more is to come, or the file was checked. */
  predicate TakenIn(expected: seq<Byte>, all: seq<Byte>, r: Response, stored: seq<Byte>, complete: bool) {
    && (|all| < |expected| ==> r == Continue(|all|) && stored == all && !complete)
    && (|all| == |expected| ==>
         stored == [] && complete == (all == expected) && r == if complete then Created else Conflict)
  }

  /** Keeps what was sent of a file of which it knows the contents by their hash. */
  class Server {
    const expected: seq<Byte>
    var stored: seq<Byte>
    var complete: bool
    var log: seq<Request>

    constructor (expected: seq<Byte>, stored: seq<Byte>, complete: bool)
      requires |stored| <= |expected| && (complete ==> stored == [])
      ensures Valid() && this.expected == expected && this.stored == stored && this.complete == complete && log == []
    {
      this.expected, this.stored, this.complete, this.log := expected, stored, complete, [];
    }

    predicate Valid()
      reads this
    {
      |stored| <= |expected| && (complete ==> stored == [])
    }

    /** What a request for the status of the file is answered. */
    function Status(): Response
      reads this
    {
      if stored != [] && |stored| == |expected| then Done else Partial(|stored|)
    }

    /** Takes a chunk. The file is checked when all of it is there; if it is wrong everything is dropped. */
    method Put(start: nat, end: int, data: seq<Byte>) returns (r: Response)
      requires Valid()
      modifies this`stored, this`complete, this`log
      ensures Valid() && log == old(log) + [Request(start, end, |data|)]
      ensures old(complete) ==> r == Created && complete
      ensures !old(complete) && start == old(|stored|) && end == start + |data| - 1 < |expected| ==>
        TakenIn(expected, old(stored) + data, r, stored, complete)
      ensures r.Continue? ==> |data| == end - start + 1 && r.end == |stored| && start + |data| <= |stored| < |expected|
    {
      log := log + [Request(start, end, |data|)];
      if complete {
        return Created;
      }
      if |stored| < start || |data| != end - start + 1 || start + |data| > |expected| {
        return Other;
      }
      stored := stored[..start] + data + if start + |data| <= |stored| then stored[start + |data|..] else [];
      if |stored| != |expected| {
        return Continue(|stored|);
      }
      complete := stored == expected;
      stored := [];
      r := if complete then Created else Conflict;
    }
  }

  // ----- the client -----

  class FileUploader {
    const server: Server
    /** No connection ever fails. */
    const reliable: bool

    constructor (server: Server, reliable: bool)
      ensures this.server == server && this.reliable == reliable
    {
      this.server, this.reliable := server, reliable;
    }

    /** Sends a chunk, up to three times as long as the connection fails. A failed try uses up some of the data. */
    method UploadChunk(start: nat, end: int, data: seq<Byte>) returns (r: Result<Response, Error>, attempts: nat)
      requires server.Valid()
      modifies server`stored, server`complete, server`log
      ensures server.Valid() && 1 <= attempts <= 3
      ensures r.Err? ==> r.error == ConnectionError && attempts == 3 && !reliable
      ensures r.Ok? ==> |server.log| == old(|server.log|) + 1
      ensures reliable && old(server.complete) ==> r == Ok(Created) && server.complete
      ensures reliable ==> server.log == old(server.log) + [Request(start, end, |data|)]
      ensures (reliable && !old(server.complete) && start == old(|server.stored|) &&
               end == start + |data| - 1 < |server.expected|) ==>
        r.Ok? && TakenIn(server.expected, old(server.stored) + data, r.value, server.stored, server.complete)
      ensures r.Ok? && r.value.Continue? && |data| == end - start + 1 ==>
        r.value.end == |server.stored| && end < r.value.end < |server.expected|
    {
      var rest := data;
      attempts := 0;
      while true
        invariant attempts < MAX_CHUNK_UPLOAD_RETRIES && server.Valid()
        invariant reliable ==> attempts == 0 && rest == data
        invariant server.stored == old(server.stored) && server.complete == old(server.complete) &&
          server.log == old(server.log)
        decreases MAX_CHUNK_UPLOAD_RETRIES - attempts
      {
        var failed: bool := *;
        if reliable || !failed {
          var response := server.Put(start, end, rest);
          return Ok(response), attempts + 1;
        }
        var used: int := *;
        rest := if 0 <= used <= |rest| then rest[used..] else [];
        attempts := attempts + 1;
        if attempts == MAX_CHUNK_UPLOAD_RETRIES {
          return Err(ConnectionError), attempts;
        }
      }
    }

    /** What the server has once the missing bytes of the file were added. */
    ghost function Filled(data: seq<Byte>): seq<Byte>
      requires server.Valid() && |data| == |server.expected|
      reads server
    {
      server.stored + data[|server.stored|..]
    }

    /** Asks what is missing and sends just that. */
    method UploadFile(data: seq<Byte>) returns (r: Result<bool, Error>)
      requires server.Valid() && |data| == |server.expected| > 0
      modifies server`stored, server`complete, server`log
      ensures server.Valid()
      ensures reliable ==> r.Ok?
      ensures old(server.Status().Done?) ==> r == Ok(true) && server.log == old(server.log)
      ensures reliable && old(server.complete) ==>
        r == Ok(true) && server.complete && server.log == old(server.log) + Tiles(0, |data|)[..1]
      ensures (reliable && !old(server.complete) && !old(server.Status().Done?)) ==>
        && server.log == old(server.log) + Tiles(old(|server.stored|), |data|)
        && server.stored == [] && server.complete == (old(Filled(data)) == server.expected) && r == Ok(server.complete)
    {
      var status := server.Status();
      if status.Done? {
        return Ok(true);
      }
      ghost var requests, total, filled := server.log, Tiles(|server.stored|, |data|), Filled(data);
      var start := status.end;
      while true
        invariant server.Valid() && start < |data|
        invariant server.complete ==> start == 0
        invariant reliable && server.complete ==> old(server.complete) && server.log == old(server.log)
        invariant reliable && !server.complete ==>
          !old(server.complete) && start == |server.stored|
          && server.log + Tiles(start, |data|) == requests + total && Filled(data) == filled
        decreases |data| - start
      {
        var end := ChunkEnd(start, |data|);
        var response, attempts := UploadChunk(start, end, data[start..end + 1]);
        if response.Err? {
          return Err(response.error);
        }
        if response.value.Created? {
          return Ok(true);
        } else if response.value.Continue? {
          if reliable {
            assert data[start..] == data[start..end + 1] + data[end + 1..];
          }
          start := response.value.end;
        } else if response.value.Conflict? {
          return Ok(false);
        } else {
          return Err(UnexpectedStatus);
        }
      }
    }

    /** Uploads the file, again from the start after a conflict. When no connection fails it succeeds exactly when
        the file is the expected one, or what the server had is made up to the expected file, or the server had
        everything before. The second attempt is the last that can succeed. */
    method Upload(data: seq<Byte>) returns (r: Result<(), Error>, attempts: nat)
      requires server.Valid() && |data| == |server.expected| > 0
      modifies server`stored, server`complete, server`log
      ensures 1 <= attempts <= 3
      ensures reliable ==> (r.Ok? <==>
        old(server.complete) || old(server.Status().Done?) || old(Filled(data)) == server.expected ||
          data == server.expected)
      ensures reliable ==>
        if r.Ok? then attempts <= 2 else r.error == UploadFailed && attempts == 3
      ensures reliable && r.Ok? && !old(server.Status().Done?) ==> server.complete
    {
      var uploadAttempt, success := 1, false;
      while uploadAttempt <= MAX_FILE_UPLOAD_RETRIES
        invariant 1 <= uploadAttempt <= MAX_FILE_UPLOAD_RETRIES + 1 && server.Valid() && !success
        invariant uploadAttempt == 1 ==> server.complete == old(server.complete) && server.stored == old(server.stored)
        invariant reliable && uploadAttempt > 1 ==>
          server.stored == [] && !server.complete
          && !old(server.complete) && !old(server.Status().Done?) && old(Filled(data)) != server.expected
        invariant reliable && uploadAttempt > 2 ==> data != server.expected
        decreases MAX_FILE_UPLOAD_RETRIES - uploadAttempt
      {
        assert server.stored == [] ==> Filled(data) == data;
        var uploaded := UploadFile(data);
        if uploaded.Err? {
          return Err(uploaded.error), uploadAttempt;
        }
        success := uploaded.value;
        if success {
          return Ok(()), uploadAttempt;
        }
        uploadAttempt := uploadAttempt + 1;
      }
      r, attempts := Err(UploadFailed), MAX_FILE_UPLOAD_RETRIES;
    }
  }
}
