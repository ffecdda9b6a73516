/** Block upload: a data callback is asked for blocks until it signals the end, each block is PUT,
    and then the block list is committed. */
module BlobUpload {
  import opened Options
  import opened BlockIds
  import HostNames

  datatype BlobResult = BlobOk | BlobError | BlobHttpError | BlobInvalidArg | BlobAborted

  // One answer of the data callback. A null or empty source signals the end.
  datatype Answer = Abort | Data(isNull: bool, source: seq<Octet>) {
    predicate IsEnd() {
      Data? && (isNull || source == [])
    }

    predicate IsBlock() {
      Data? && !isNull && source != []
    }
  }

  // What becomes of one request: an allocation fails before it is sent, the exchange fails,
  // or the server answers with a status.
  datatype Outcome = NoBuffer | NoName(listed: bool) | NoExchange | Status(code: nat) {
    predicate Accepted() {
      Status? && code < 300
    }
  }

  // The k-th answer of the callback and the outcome of PUTting block k are arbitrary.
  // `initialStatus` is what the status variable held before any request wrote to it.
  datatype Upload = Upload(
    name: nat -> string,
    answers: nat -> Answer,
    outcomes: nat -> Outcome,
    initialStatus: nat,
    blockSize: nat,
    maxBlockCount: nat)
  {
    // Block k is supplied, admissible, and accepted by the server.
    predicate Good(k: nat) {
      && answers(k).IsBlock()
      && |answers(k).source| <= blockSize
      && k < maxBlockCount
      && k <= MAX_BLOCK_ID
      && outcomes(k).Accepted()
    }

    // The loop ends at call n: everything before was good, this one is not.
    ghost predicate EndsAt(n: nat) {
      !Good(n) && forall k :: 0 <= k < n ==> Good(k)
    }

    // How the answer at which the loop ends is reported.
    function EndResult(n: nat): BlobResult {
      match answers(n)
      case Abort => BlobAborted
      case Data(isNull, source) =>
        if isNull || source == [] then BlobOk
        else if |source| > blockSize || n >= maxBlockCount then BlobInvalidArg
        else if outcomes(n).NoBuffer? || n > MAX_BLOCK_ID || outcomes(n).NoName? then BlobError
        else if outcomes(n).NoExchange? then BlobHttpError
        else BlobOk
    }

    // The status variable when the loop has ended at call n.
    function EndStatus(n: nat): nat {
      if Requested(n) && outcomes(n).Status? then outcomes(n).code
      else if n > 0 && outcomes(n - 1).Status? then outcomes(n - 1).code
      else initialStatus
    }

    // Whether block k gets as far as its PUT.
    predicate Requested(k: nat) {
      && answers(k).IsBlock()
      && |answers(k).source| <= blockSize
      && k < maxBlockCount
      && k <= MAX_BLOCK_ID
      && (outcomes(k).NoExchange? || outcomes(k).Status?)
    }

    function Names(count: nat): seq<string> {
      BlockIds.Names(name, 0, count)
    }

    // The PUT of block k: its name in the query string and its body.
    function PutOf(k: nat): Put
      requires answers(k).Data?
    {
      Put(name(k), answers(k).source)
    }
  }

  datatype Put = Put(name: string, body: seq<Octet>)

  lemma LoopEndIsUnique(u: Upload, m: nat, n: nat)
    requires u.EndsAt(m) && u.EndsAt(n)
    ensures m == n
  {
    assert m < n ==> u.Good(m);
    assert n < m ==> u.Good(n);
  }

  // Blob_UploadBlock: name the block, add it to the list, PUT it.
  method UploadBlock(u: Upload, content: seq<Octet>, blockID: nat, blockIDList: string, httpStatus: nat)
    returns (result: BlobResult, list: string, status: nat, puts: seq<Put>)
    requires !u.outcomes(blockID).NoBuffer?
    ensures result == (if blockID > MAX_BLOCK_ID || u.outcomes(blockID).NoName? then BlobError
                       else if u.outcomes(blockID).NoExchange? then BlobHttpError
                       else BlobOk)
    ensures result == BlobOk ==>
      && list == blockIDList + Entry(u.name(blockID))
      && status == u.outcomes(blockID).code
    ensures result != BlobOk ==> status == httpStatus
    ensures puts == (if result == BlobError then [] else [Put(u.name(blockID), content)])
  {
    list, status, puts := blockIDList, httpStatus, [];
    if blockID > MAX_BLOCK_ID {
      return BlobError, list, status, puts;
    }
    match u.outcomes(blockID) {
      case NoName(listed) =>
        if listed { list := list + Entry(u.name(blockID)); }
        result := BlobError;
      case NoExchange =>
        list := list + Entry(u.name(blockID));
        puts := [Put(u.name(blockID), content)];
        result := BlobHttpError;
      case Status(code) =>
        list := list + Entry(u.name(blockID));
        puts := [Put(u.name(blockID), content)];
        status := code;
        result := BlobOk;
    }
  }

  ghost predicate PutsMatch(u: Upload, puts: seq<Put>) {
    forall k :: 0 <= k < |puts| ==> u.answers(k).Data? && puts[k] == u.PutOf(k)
  }

  // The loop is about to ask for block n.
  ghost predicate Running(u: Upload, begin: string, n: nat, status: nat, list: string, puts: seq<Put>) {
    && (forall k :: 0 <= k < n ==> u.Good(k))
    && n <= u.maxBlockCount
    && PutsMatch(u, puts) && |puts| == n
    && status == (if n > 0 && u.outcomes(n - 1).Status? then u.outcomes(n - 1).code else u.initialStatus)
    && list == Accumulated(begin, u.Names(n))
  }

  // The loop has ended with its n-th answer (counting from 0).
  ghost predicate Ended(u: Upload, begin: string, n: nat, result: BlobResult, status: nat, list: string, puts: seq<Put>) {
    && u.EndsAt(n)
    && result == u.EndResult(n)
    && status == u.EndStatus(n)
    && PutsMatch(u, puts) && |puts| == n + (if u.Requested(n) then 1 else 0)
    && (!u.answers(n).IsBlock() ==> list == Accumulated(begin, u.Names(n)))
  }

  lemma GoodBlockGoesOn(u: Upload, begin: string, n: nat, status: nat, list: string, puts: seq<Put>)
    requires Running(u, begin, n, status, list, puts)
    requires u.Good(n)
    ensures Running(u, begin, n + 1, u.outcomes(n).code, list + Entry(u.name(n)), puts + [u.PutOf(n)])
  {
    AccumulatedGrows(begin, u.name, n);
  }

  lemma NothingListed(u: Upload, begin: string)
    ensures Accumulated(begin, u.Names(0)) == begin
  {
  }

  // The upload loop. It ends for every callback, within one call of the block limit; `calls`
  // counts the callback invocations.
  method InvokeUserCallbackAndSendBlobs(u: Upload, begin: string)
    returns (result: BlobResult, httpStatus: nat, blockIDList: string, puts: seq<Put>, calls: nat)
    ensures calls >= 1 && Ended(u, begin, calls - 1, result, httpStatus, blockIDList, puts)
  {
    hide Accumulated, BlockIds.Names, BlockIds.Entry;
    NothingListed(u, begin);
    var blockID: nat, isError, uploadOneMoreBlock := 0, false, true;
    result, httpStatus, blockIDList, puts, calls := BlobOk, u.initialStatus, begin, [], 0;
    while uploadOneMoreBlock && !isError
      invariant uploadOneMoreBlock && !isError ==>
        calls == blockID && Running(u, begin, blockID, httpStatus, blockIDList, puts)
      invariant !uploadOneMoreBlock || isError ==>
        calls >= 1 && Ended(u, begin, calls - 1, result, httpStatus, blockIDList, puts)
      decreases if uploadOneMoreBlock && !isError then 1 + u.maxBlockCount - blockID else 0
    {
      var answer := u.answers(blockID);
      calls := calls + 1;
      if answer.Abort? {
        uploadOneMoreBlock := false;
        result := BlobAborted;
      } else if answer.isNull || |answer.source| == 0 {
        uploadOneMoreBlock := false;
        result := BlobOk;
      } else {
        if |answer.source| > u.blockSize {
          result := BlobInvalidArg;
          isError := true;
        } else if blockID >= u.maxBlockCount {
          result := BlobInvalidArg;
          isError := true;
        } else {
          if u.outcomes(blockID).NoBuffer? {
            result := BlobError;
            isError := true;
          } else {
            if u.Good(blockID) {
              GoodBlockGoesOn(u, begin, blockID, httpStatus, blockIDList, puts);
            }
            var newPuts;
            result, blockIDList, httpStatus, newPuts :=
              UploadBlock(u, answer.source, blockID, blockIDList, httpStatus);
            puts := puts + newPuts;
          }
          if result != BlobOk {
            isError := true;
          } else if httpStatus >= 300 {
            isError := true;
          }
        }
        blockID := blockID + 1;
      }
    }
  }

  // ----- Commit -----

  // What the surroundings of the loop do: whether the HTTP client could be set up, and what
  // becomes of the block list.
  datatype Surroundings = Surroundings(httpReady: bool, listReady: bool, commit: Outcome)

  // SendBlockIdList: complete the document and PUT it.
  method SendBlockIdList(blockIDList: string, commit: Outcome, status: nat)
    returns (result: BlobResult, httpStatus: nat, committed: Option<string>)
    ensures committed == if commit.NoExchange? || commit.Status? then Some(blockIDList + LIST_END) else None
    ensures result == if commit.Status? then BlobOk else if commit.NoExchange? then BlobHttpError else BlobError
    ensures httpStatus == if commit.Status? then commit.code else status
  {
    httpStatus, committed := status, None;
    var document := blockIDList + LIST_END;
    match commit {
      case NoBuffer =>
        result := BlobError;
      case NoName(_) =>
        result := BlobError;
      case NoExchange =>
        committed := Some(document);
        result := BlobHttpError;
      case Status(code) =>
        committed := Some(document);
        httpStatus := code;
        result := BlobOk;
    }
  }

  // The loop ended because the callback signalled the end, after n blocks all accepted. With no
  // block at all the status tested is the one nobody wrote.
  ghost predicate Complete(u: Upload, n: nat) {
    u.EndsAt(n) && u.answers(n).IsEnd() && (n > 0 || u.initialStatus < 300)
  }

  // Whether the upload loop is reached.
  predicate Attempted(sasUri: string, around: Surroundings) {
    HostNames.ParseSasUri(sasUri).Some? && around.httpReady && around.listReady
  }

  // Answer n is a block that is too large or one too many.
  predicate Inadmissible(u: Upload, n: nat) {
    u.answers(n).IsBlock() && (|u.answers(n).source| > u.blockSize || n >= u.maxBlockCount)
  }

  // Answer n is a block that is admissible but gets no buffer, no name or no place in the list.
  predicate NotReady(u: Upload, n: nat) {
    && u.answers(n).IsBlock() && !Inadmissible(u, n)
    && (u.outcomes(n).NoBuffer? || u.outcomes(n).NoName? || n > MAX_BLOCK_ID)
  }

  // `n` is the number of the callback's answer with which the loop ended.
  method UploadMultipleBlocksFromSasUri(u: Upload, sasUri: string, around: Surroundings)
    returns (result: BlobResult, httpStatus: nat, puts: seq<Put>, committed: Option<string>, n: nat)
    ensures !Attempted(sasUri, around) ==>
      puts == [] && committed == None && result != BlobOk && result != BlobAborted
    ensures Attempted(sasUri, around) ==>
      u.EndsAt(n) && PutsMatch(u, puts) && |puts| == n + (if u.Requested(n) then 1 else 0)
    // The list is PUT exactly when every block the callback supplied was accepted and it then
    // signalled the end; it names exactly those blocks.
    ensures committed.Some? <==>
      Attempted(sasUri, around) && Complete(u, n) && (around.commit.NoExchange? || around.commit.Status?)
    ensures committed.Some? ==> committed.value == Accumulated(LIST_BEGIN, u.Names(n)) + LIST_END
    ensures result == BlobOk && httpStatus < 300 <==>
      Attempted(sasUri, around) && Complete(u, n) && around.commit.Accepted()
    ensures result == BlobAborted <==> Attempted(sasUri, around) && u.answers(n).Abort?
    // The other errors: a URI without a host or a block that is not admissible; a client that is not
    // there or a block or list that could not be made ready; an exchange that failed.
    ensures result == BlobInvalidArg <==>
      HostNames.ParseSasUri(sasUri).None? || (Attempted(sasUri, around) && Inadmissible(u, n))
    ensures result == BlobError <==>
      || (HostNames.ParseSasUri(sasUri).Some? && !around.httpReady)
      || (Attempted(sasUri, around) && NotReady(u, n))
      || (Attempted(sasUri, around) && Complete(u, n) && (around.commit.NoBuffer? || around.commit.NoName?))
    ensures result == BlobHttpError <==>
      || (HostNames.ParseSasUri(sasUri).Some? && around.httpReady && !around.listReady)
      || (Attempted(sasUri, around) && u.Requested(n) && u.outcomes(n).NoExchange?)
      || (Attempted(sasUri, around) && Complete(u, n) && around.commit.NoExchange?)
  {
    httpStatus, puts, committed, n := u.initialStatus, [], None, 0;
    var parsed := HostNames.ParseSasUri(sasUri);
    if parsed.None? {
      result := BlobInvalidArg;
    } else if !around.httpReady {
      result := BlobError;
    } else if !around.listReady {
      result := BlobHttpError;
    } else {
      var list, calls;
      result, httpStatus, list, puts, calls := InvokeUserCallbackAndSendBlobs(u, LIST_BEGIN);
      n := calls - 1;
      CompleteWhen(u, n);
      if result == BlobOk && httpStatus < 300 {
        result, httpStatus, committed := SendBlockIdList(list, around.commit, httpStatus);
      }
    }
  }

  // The test made before committing singles out the complete uploads.
  lemma CompleteWhen(u: Upload, n: nat)
    requires u.EndsAt(n)
    ensures Complete(u, n) <==> u.EndResult(n) == BlobOk && u.EndStatus(n) < 300
  {
    if n > 0 {
      assert u.Good(n - 1);
    }
  }

  // Whatever the callback and the server do, a committed list reads back as the ids 0 .. n - 1,
  // and for n > 0 those are exactly the blocks that were PUT and accepted.
  lemma CommittedListReadsBack(u: Upload, n: nat)
    requires u.name == Token && Complete(u, n)
    ensures n <= MAX_BLOCK_ID + 1
    ensures ReadList(LIST_BEGIN, Accumulated(LIST_BEGIN, u.Names(n)) + LIST_END) == Some(Ids(0, n))
    ensures forall k :: 0 <= k < n ==> u.outcomes(k).Accepted()
    ensures !u.Requested(n)
  {
    if n > 0 {
      assert u.Good(n - 1);
    }
    forall k | 0 <= k < n ensures u.outcomes(k).Accepted() {
      assert u.Good(k);
    }
    ListReadsBack(LIST_BEGIN, n);
  }

  // ----- Uploading a buffer in chunks -----

  // The k-th answer of the chunking callback for a buffer of this size.
  function ChunkAnswer(source: seq<Octet>, blockSize: nat, k: nat): Answer {
    if k * blockSize >= |source| then Data(true, [])
    else
      var start := k * blockSize;
      Data(false, source[start..if start + blockSize <= |source| then start + blockSize else |source|])
  }

  class BlobUploadContext {
    const blobSource: seq<Octet>
    const blockSize: nat
    var remainingSizeToUpload: nat
    ghost var calls: nat

    ghost predicate Valid()
      reads this
    {
      && blockSize >= 1
      && remainingSizeToUpload <= |blobSource|
      && (remainingSizeToUpload == 0
          || remainingSizeToUpload + calls * blockSize == |blobSource|)
      && (remainingSizeToUpload == 0 ==> |blobSource| <= calls * blockSize)
    }

    constructor (source: seq<Octet>, blockSize: nat)
      requires blockSize >= 1
      ensures Valid() && blobSource == source && this.blockSize == blockSize && calls == 0
    {
      blobSource := source;
      this.blockSize := blockSize;
      remainingSizeToUpload := |source|;
      calls := 0;
    }

    // FileUpload_GetData_Callback. Asked after a failure it answers the end and moves nothing.
    method GetData(previousSucceeded: bool) returns (answer: Answer)
      requires Valid()
      modifies `remainingSizeToUpload, `calls
      ensures Valid()
      ensures previousSucceeded ==>
        answer == ChunkAnswer(blobSource, blockSize, old(calls)) && calls == old(calls) + 1
      ensures !previousSucceeded ==>
        answer.IsEnd() && calls == old(calls) && remainingSizeToUpload == old(remainingSizeToUpload)
    {
      NextMultiple(calls, blockSize);
      if !previousSucceeded {
        answer := Data(true, []);
      } else if remainingSizeToUpload == 0 {
        answer := Data(true, []);
        calls := calls + 1;
      } else {
        var thisBlockSize := if remainingSizeToUpload > blockSize then blockSize else remainingSizeToUpload;
        var offset := |blobSource| - remainingSizeToUpload;
        answer := Data(false, blobSource[offset..offset + thisBlockSize]);
        remainingSizeToUpload := remainingSizeToUpload - thisBlockSize;
        calls := calls + 1;
      }
    }
  }

  lemma NextMultiple(k: nat, size: nat)
    ensures (k + 1) * size == k * size + size
  {
  }

  function Concat(parts: seq<seq<Octet>>): seq<Octet> {
    if parts == [] then [] else Concat(parts[..|parts| - 1]) + parts[|parts| - 1]
  }

  function Bodies(puts: seq<Put>): (bodies: seq<seq<Octet>>)
    ensures |bodies| == |puts| && forall k :: 0 <= k < |puts| ==> bodies[k] == puts[k].body
  {
    seq(|puts|, k requires 0 <= k < |puts| => puts[k].body)
  }

  // ceil(size / blockSize)
  function BlockCount(size: nat, blockSize: nat): nat
    requires blockSize >= 1
  {
    (size + blockSize - 1) / blockSize
  }

  lemma BlockCountBounds(size: nat, blockSize: nat)
    requires blockSize >= 1
    ensures BlockCount(size, blockSize) * blockSize >= size
    ensures size > 0 ==> BlockCount(size, blockSize) >= 1 && (BlockCount(size, blockSize) - 1) * blockSize < size
  {
    var n := BlockCount(size, blockSize);
    assert size + blockSize - 1 == blockSize * n + (size + blockSize - 1) % blockSize;
    assert (n - 1) * blockSize == n * blockSize - blockSize;
  }

  // The upload is fed by the chunking callback of this buffer.
  ghost predicate Feeds(u: Upload, source: seq<Octet>) {
    u.blockSize >= 1 && forall k: nat :: u.answers(k) == ChunkAnswer(source, u.blockSize, k)
  }

  function Limit(u: Upload): nat {
    if u.maxBlockCount <= MAX_BLOCK_ID + 1 then u.maxBlockCount else MAX_BLOCK_ID + 1
  }

  lemma ProductOrder(a: nat, b: nat, size: nat)
    requires a <= b
    ensures a * size <= b * size
  {
  }

  // Chunk k is a non-empty block of at most the block size exactly for k below the block count.
  lemma ChunkShape(u: Upload, source: seq<Octet>, k: nat)
    requires Feeds(u, source)
    ensures u.answers(k).IsBlock() <==> k < BlockCount(|source|, u.blockSize)
    ensures u.answers(k).IsEnd() <==> k >= BlockCount(|source|, u.blockSize)
    ensures u.answers(k).Data? && |u.answers(k).source| <= u.blockSize
  {
    var count := BlockCount(|source|, u.blockSize);
    assert u.answers(k) == ChunkAnswer(source, u.blockSize, k);
    BlockCountBounds(|source|, u.blockSize);
    if k < count {
      ProductOrder(k, count - 1, u.blockSize);
    } else {
      ProductOrder(count, k, u.blockSize);
    }
  }

  ghost predicate AllAccepted(u: Upload, count: nat) {
    forall k :: 0 <= k < count ==> u.outcomes(k).Accepted()
  }

  lemma FittingBufferEnds(u: Upload, source: seq<Octet>)
    requires Feeds(u, source)
    requires BlockCount(|source|, u.blockSize) <= Limit(u)
    requires AllAccepted(u, BlockCount(|source|, u.blockSize))
    ensures u.EndsAt(BlockCount(|source|, u.blockSize))
    ensures u.answers(BlockCount(|source|, u.blockSize)).IsEnd()
  {
    var count := BlockCount(|source|, u.blockSize);
    forall k | 0 <= k < count ensures u.Good(k) {
      ChunkShape(u, source, k);
    }
    ChunkShape(u, source, count);
  }

  // What an empty buffer adds: no block is sent, and the status tested is the one nobody set.
  predicate StatusAllows(u: Upload, source: seq<Octet>) {
    source != [] || u.initialStatus < 300
  }

  // An upload of a buffer completes exactly when the buffer fits in the blocks allowed and every
  // block is accepted; it then ends at the block count.
  lemma ChunkedUploadCompletes(u: Upload, source: seq<Octet>, n: nat)
    requires Feeds(u, source) && u.EndsAt(n)
    ensures Complete(u, n) <==>
      && BlockCount(|source|, u.blockSize) <= Limit(u)
      && AllAccepted(u, BlockCount(|source|, u.blockSize))
      && StatusAllows(u, source)
    ensures Complete(u, n) ==> n == BlockCount(|source|, u.blockSize)
  {
    var count := BlockCount(|source|, u.blockSize);
    BlockCountBounds(|source|, u.blockSize);
    ChunkShape(u, source, n);
    if count <= Limit(u) && AllAccepted(u, count) {
      FittingBufferEnds(u, source);
      LoopEndIsUnique(u, count, n);
      NoBlocksWhenEmpty(|source|, u.blockSize);
    }
    if Complete(u, n) {
      if n > 0 {
        assert u.Good(n - 1);
        ChunkShape(u, source, n - 1);
      }
      NoBlocksWhenEmpty(|source|, u.blockSize);
      forall k | 0 <= k < count ensures u.outcomes(k).Accepted() {
        assert u.Good(k);
      }
    }
  }

  lemma NoBlocksWhenEmpty(size: nat, blockSize: nat)
    requires blockSize >= 1
    ensures BlockCount(size, blockSize) == 0 <==> size == 0
  {
    BlockCountBounds(size, blockSize);
  }

  // The same upload of an empty buffer completes or not with nothing but the unset status different.
  lemma EmptyUploadDependsOnStatus(u: Upload)
    requires Feeds(u, [])
    ensures Complete(u.(initialStatus := 200), 0) && !Complete(u.(initialStatus := 500), 0)
    ensures u.(initialStatus := 200).EndsAt(0) && u.(initialStatus := 500).EndsAt(0)
  {
    ChunkShape(u, [], 0);
    NoBlocksWhenEmpty(0, u.blockSize);
  }

  // A buffer fits in the blocks allowed exactly when it is no longer than all of them together.
  lemma FitsWhen(size: nat, blockSize: nat, limit: nat)
    requires blockSize >= 1
    ensures BlockCount(size, blockSize) <= limit <==> size <= blockSize * limit
  {
    var count := BlockCount(size, blockSize);
    BlockCountBounds(size, blockSize);
    if count <= limit {
      ProductOrder(count, limit, blockSize);
    } else {
      ProductOrder(limit, count - 1, blockSize);
    }
  }

  // How much of the buffer the first k chunks cover.
  function Covered(size: nat, blockSize: nat, k: nat): (covered: nat)
    ensures covered <= size
  {
    if k * blockSize <= size then k * blockSize else size
  }

  lemma ChunkIsNextSlice(source: seq<Octet>, blockSize: nat, k: nat)
    requires blockSize >= 1
    ensures Covered(|source|, blockSize, k) <= Covered(|source|, blockSize, k + 1)
    ensures ChunkAnswer(source, blockSize, k).Data?
    ensures ChunkAnswer(source, blockSize, k).source
         == source[Covered(|source|, blockSize, k)..Covered(|source|, blockSize, k + 1)]
  {
    NextMultiple(k, blockSize);
  }

  // The bodies PUT so far are exactly the beginning of the buffer.
  lemma {:induction false} ChunksConcatenate(u: Upload, source: seq<Octet>, puts: seq<Put>)
    requires Feeds(u, source) && PutsMatch(u, puts)
    ensures Concat(Bodies(puts)) == source[..Covered(|source|, u.blockSize, |puts|)]
  {
    if puts != [] {
      var earlier, k := puts[..|puts| - 1], |puts| - 1;
      assert PutsMatch(u, earlier);
      ChunksConcatenate(u, source, earlier);
      assert Bodies(puts)[..k] == Bodies(earlier);
      ChunkIsNextSlice(source, u.blockSize, k);
      assert puts[k] == u.PutOf(k);
      assert u.answers(k) == ChunkAnswer(source, u.blockSize, k);
    }
  }

  // A complete upload has PUT the buffer, the whole buffer and nothing but the buffer.
  lemma WholeBufferUploaded(u: Upload, source: seq<Octet>, puts: seq<Put>, n: nat)
    requires Feeds(u, source) && Complete(u, n)
    requires PutsMatch(u, puts) && |puts| == n + (if u.Requested(n) then 1 else 0)
    ensures Concat(Bodies(puts)) == source
    ensures |puts| == BlockCount(|source|, u.blockSize)
    ensures forall k :: 0 <= k < |puts| ==> 1 <= |puts[k].body| <= u.blockSize
  {
    ChunkedUploadCompletes(u, source, n);
    ChunksConcatenate(u, source, puts);
    BlockCountBounds(|source|, u.blockSize);
    forall k | 0 <= k < |puts| ensures 1 <= |puts[k].body| <= u.blockSize {
      ChunkShape(u, source, k);
      assert puts[k] == u.PutOf(k);
    }
  }

  // ----- The upload as the application sees it -----

  datatype ClientResult = ClientOk | ClientError | ClientInvalidArg

  // The hub's side: the storage URI obtained in steps 1 and 2 (None when that fails), whether a
  // response buffer is available, and whether the final notification of step 3 gets through.
  datatype Hub = Hub(sasUri: Option<string>, bufferReady: bool, notified: bool)

  predicate Reached(hub: Hub, around: Surroundings) {
    hub.sasUri.Some? && hub.bufferReady && Attempted(hub.sasUri.value, around)
  }

  // IoTHubClient_LL_UploadMultipleBlocksToBlob_Impl. `last` is what the final callback is told.
  method UploadMultipleBlocksToBlob(u: Upload, hub: Hub, around: Surroundings)
    returns (result: ClientResult, last: bool, puts: seq<Put>, committed: Option<string>, n: nat)
    ensures last == (result == ClientOk) && result != ClientInvalidArg
    ensures committed.Some? ==>
      && Complete(u, n)
      && committed.value == Accumulated(LIST_BEGIN, u.Names(n)) + LIST_END
      && PutsMatch(u, puts) && |puts| == n + (if u.Requested(n) then 1 else 0)
    ensures Reached(hub, around) ==> u.EndsAt(n)
    ensures result == ClientOk <==>
      && Reached(hub, around) && hub.notified
      && (u.answers(n).Abort? || (Complete(u, n) && around.commit.Accepted()))
    ensures result == ClientOk ==> u.answers(n).Abort? || committed.Some?
  {
    puts, committed, n := [], None, 0;
    if hub.sasUri.None? || !hub.bufferReady {
      result := ClientError;
    } else {
      var blobResult, httpResponse;
      blobResult, httpResponse, puts, committed, n := UploadMultipleBlocksFromSasUri(u, hub.sasUri.value, around);
      if blobResult == BlobAborted {
        result := if hub.notified then ClientOk else ClientError;
      } else if blobResult != BlobOk {
        result := ClientError;
      } else if !hub.notified {
        result := ClientError;
      } else {
        result := if httpResponse < 300 then ClientOk else ClientError;
      }
    }
    last := result == ClientOk;
  }

  // IoTHubClient_LL_UploadToBlob_Impl on any buffer: the application is told OK exactly when the
  // buffer fits, every block was accepted (for an empty buffer: the unset status happens to allow
  // it), the list was accepted and the hub was told; and then storage holds the buffer.
  method UploadToBlob(source: seq<Octet>, u: Upload, hub: Hub, around: Surroundings)
    returns (result: ClientResult, puts: seq<Put>, committed: Option<string>)
    requires Feeds(u, source) && u.name == Token
    ensures result == ClientOk <==>
      && Reached(hub, around) && hub.notified && around.commit.Accepted()
      && |source| <= u.blockSize * Limit(u)
      && AllAccepted(u, BlockCount(|source|, u.blockSize)) && StatusAllows(u, source)
    ensures committed.Some? ==>
      && Concat(Bodies(puts)) == source
      && |puts| == BlockCount(|source|, u.blockSize)
      && (forall k :: 0 <= k < |puts| ==> 1 <= |puts[k].body| <= u.blockSize)
      && ReadList(LIST_BEGIN, committed.value) == Some(Ids(0, |puts|))
    ensures |source| > u.blockSize * Limit(u) ==> committed.None?
    ensures result == ClientOk ==> committed.Some?
  {
    var last, n;
    result, last, puts, committed, n := UploadMultipleBlocksToBlob(u, hub, around);
    FitsWhen(|source|, u.blockSize, Limit(u));
    if u.EndsAt(n) {
      ChunkShape(u, source, n);
      ChunkedUploadCompletes(u, source, n);
    }
    if committed.Some? {
      WholeBufferUploaded(u, source, puts, n);
      CommittedListReadsBack(u, n);
    }
  }
}
