/** A file cut into numbered chunks by the client, published chunk by chunk, and assembled again by the server. */
module ChunkFiles {
  import opened Options
  import opened Arithmetic
  import opened Sequences

  type Bytes = seq<int>

  // ---- the client's cut ----

  /** An empty file still has one, empty, chunk. */
  function TotalChunks(size: nat, chunkSize: nat): (n: nat)
    requires chunkSize > 0
    ensures n >= 1 && (size > 0 ==> n == CeilingQuotient(size, chunkSize))
  {
    if size == 0 then 1 else
      StartsInside(size, chunkSize, 0);
      CeilingQuotient(size, chunkSize)
  }

  /** One upload request with its headers. */
  datatype Request = Request(chunkNumber: nat, totalChunks: nat, isLast: bool, content: Bytes)

  /** The header rules of the upload endpoint; numbers start at one. */
  predicate HeadersAccepted(r: Request) {
    1 <= r.chunkNumber <= r.totalChunks && (r.isLast <==> r.chunkNumber == r.totalChunks)
  }

  function Contents(requests: seq<Request>): (r: seq<Bytes>)
    ensures |r| == |requests| && forall i :: 0 <= i < |r| ==> r[i] == requests[i].content
  {
    seq(|requests|, i requires 0 <= i < |requests| => requests[i].content)
  }

  /** The requests that carry a file: numbered in order, all with their common number, and together its bytes. */
  predicate CutOf(file: Bytes, chunkSize: nat, requests: seq<Request>)
    requires chunkSize > 0
  {
    && |requests| == TotalChunks(|file|, chunkSize) && Flatten(Contents(requests)) == file
    && forall i :: 0 <= i < |requests| ==>
         && HeadersAccepted(requests[i]) && requests[i].chunkNumber == i + 1 && requests[i].totalChunks == |requests|
         && |requests[i].content| <= chunkSize && (file != [] ==> requests[i].content != [])
  }

  /** Reads the file chunk by chunk and sends one request for each. */
  method SplitFile(file: Bytes, chunkSize: nat) returns (requests: seq<Request>)
    requires chunkSize > 0
    ensures CutOf(file, chunkSize, requests)
  {
    var total := TotalChunks(|file|, chunkSize);
    StartsInside(|file|, chunkSize, total);
    requests := [];
    var position := 0;
    for chunkNumber := 1 to total + 1
      invariant |requests| == chunkNumber - 1
      invariant position == (if (chunkNumber - 1) * chunkSize <= |file| then (chunkNumber - 1) * chunkSize else |file|)
      invariant Flatten(Contents(requests)) == file[..position]
      invariant forall i :: 0 <= i < |requests| ==>
        && requests[i].chunkNumber == i + 1 && requests[i].totalChunks == total && requests[i].isLast == (i + 1 == total)
        && |requests[i].content| <= chunkSize && (file != [] ==> requests[i].content != [])
    {
      StartsInside(|file|, chunkSize, chunkNumber - 1);
      NextMultiple(chunkNumber - 1, chunkSize);
      var next := if position + chunkSize <= |file| then position + chunkSize else |file|;
      var request := Request(chunkNumber, total, chunkNumber == total, file[position..next]);
      assert Contents(requests + [request]) == Contents(requests) + [request.content];
      assert Contents(requests + [request])[..|requests|] == Contents(requests);
      assert file[..position] + request.content == file[..next];
      requests := requests + [request];
      position := next;
    }
    assert file[..|file|] == file;
  }

  // ---- the chunk files ----

  /** What other writers and the clean-up may do to one chunk file between two steps of this writer. */
  datatype Interference = Nothing | Appears(content: Bytes) | Vanishes

  datatype WriteError = OutsideTheSession | DifferentContent

  class ChunkStore {
    var files: map<nat, Bytes>

    constructor ()
      ensures files == map[]
    {
      files := map[];
    }

    method Meanwhile(ordinal: nat, other: Interference)
      modifies this
      ensures files == Disturbed(old(files), ordinal, other)
    {
      match other {
        case Appears(content) => if ordinal !in files { files := files[ordinal := content]; }
        case Vanishes => files := files - {ordinal};
        case Nothing =>
      }
    }

    /**
     Publishes a chunk by creating its file if it is absent. A present file is never changed: the write succeeds when it
     already holds the same bytes, and fails when it holds others.
     */
    method WriteChunk(ordinal: nat, totalChunks: nat, data: Bytes, others: seq<Interference>) returns (result: Option<WriteError>)
      modifies this
      ensures result == Some(OutsideTheSession) <==> !(1 <= ordinal <= totalChunks)
      ensures result == None ==> ordinal in files && files[ordinal] == data
      ensures result == Some(DifferentContent) ==> ordinal in files && files[ordinal] != data
      ensures forall k :: k != ordinal ==> (k in files <==> k in old(files)) && (k in files ==> files[k] == old(files)[k])
      ensures ordinal in old(files) && (forall i :: 0 <= i < |others| ==> others[i] != Vanishes) ==>
        ordinal in files && files[ordinal] == old(files)[ordinal]
    {
      if !(1 <= ordinal <= totalChunks) {
        return Some(OutsideTheSession);
      }
      var i := 0;
      while true
        invariant i <= |others|
        invariant forall k :: k != ordinal ==> (k in files <==> k in old(files)) && (k in files ==> files[k] == old(files)[k])
        invariant ordinal in old(files) && (forall j :: 0 <= j < |others| ==> others[j] != Vanishes) ==>
          ordinal in files && files[ordinal] == old(files)[ordinal]
        decreases |others| - i
      {
        if ordinal !in files {
          files := files[ordinal := data];
          return None;
        }
        if i < |others| {
          Meanwhile(ordinal, others[i]);
          i := i + 1;
          if ordinal !in files {
            continue;
          }
        }
        if files[ordinal] == data {
          return None;
        }
        return Some(DifferentContent);
      }
    }

    /** The copy loop over all chunk files in order; nothing is assembled while one is missing. */
    method AssembleSource(totalChunks: nat) returns (source: Option<Bytes>)
      ensures source.Some? <==> Complete(files, totalChunks)
      ensures source.Some? ==> source.value == Assembled(files, totalChunks)
    {
      if exists k: nat :: 1 <= k <= totalChunks && k !in files {
        return None;
      }
      var output := [];
      for k := 1 to totalChunks + 1
        invariant output == Assembled(files, k - 1)
      {
        output := output + files[k];
      }
      return Some(output);
    }
  }

  function Disturbed(files: map<nat, Bytes>, ordinal: nat, other: Interference): map<nat, Bytes> {
    match other
    case Nothing => files
    case Appears(content) => if ordinal in files then files else files[ordinal := content]
    case Vanishes => files - {ordinal}
  }

  predicate Complete(files: map<nat, Bytes>, totalChunks: nat) {
    forall k: nat :: 1 <= k <= totalChunks ==> k in files
  }

  function Assembled(files: map<nat, Bytes>, n: nat): Bytes
    requires Complete(files, n)
  {
    if n == 0 then [] else Assembled(files, n - 1) + files[n]
  }

  /** The `n`-th chunk file holds the `n`-th chunk. */
  predicate HoldsChunks(files: map<nat, Bytes>, chunks: seq<Bytes>) {
    var n := |chunks|;
    n == 0 || (n in files && files[n] == chunks[n - 1] && HoldsChunks(files, chunks[..n - 1]))
  }

  /** Assembling the published chunks of a cut file gives back the file. */
  lemma {:induction false} AssemblyUndoesTheCut(files: map<nat, Bytes>, chunks: seq<Bytes>)
    requires HoldsChunks(files, chunks)
    ensures Complete(files, |chunks|) && Assembled(files, |chunks|) == Flatten(chunks)
  {
    if chunks != [] {
      AssemblyUndoesTheCut(files, chunks[..|chunks| - 1]);
    }
  }
}
