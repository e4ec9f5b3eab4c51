/** The per-run transfer orchestration: a readiness gate, then for each file of
    the search result, in order, an existence check of its source blob, a
    server-side copy, a catalog patch to "deposited" and an optional delete of
    the source. Each step is given twice: as a function on a World value (the
    specification) and as a method on the mutable Services that is proved to
    do what the function says. */
module Pipeline {
  import opened Records
  import opened Services

  /** The per-environment configuration. */
  datatype Context = Context(
    portalApiUrl: string,
    sourceWorkspaceId: string,
    destinationWorkspaceId: string,
    sourceStorageResourceId: string,
    destinationStorageResourceId: string)

  /** The run's settings, with both access tokens already obtained. */
  datatype TransferProps = TransferProps(
    env: string,
    portalAuth: Auth,
    context: Context,
    deleteSourceFiles: bool,
    sourceSasToken: string,
    destinationSasToken: string)

  /** What the outside world answers during one run: the indexer flag, the search
      result, and for the file at position i of the list the copy status, the
      patch's HTTP status code and whether the blob service accepts the delete
      (each is asked at most once per file). */
  datatype Responses = Responses(
    isIndexing: bool,
    graph: seq<Item>,
    copyStatus: nat -> string,
    patchCode: nat -> int,
    deleteAccepted: nat -> bool)

  datatype Outcome = Pass | Fail(error: Error)

  datatype FileOutcome = Skipped | Transferred | Failed(error: Error)

  /** One file's part of a run: the requests sent for it, in order, and how it ended. */
  datatype FileLog = FileLog(file: File, ops: seq<Op>, outcome: FileOutcome)

  datatype RunOutcome = Deferred | Completed | Aborted(error: Error)

  datatype Run = Run(outcome: RunOutcome, logs: seq<FileLog>, world: World)

  const IndexerInfoPath := "/indexer-info"
  const SearchPath := "/search/?type=File&audit.INTERNAL_ACTION.category=incorrect+anvil+workspace&field=@id&field=anvil_source_url&field=anvil_destination_url&field=upload_status&limit=all"

  function SourceWithSas(props: TransferProps, f: File): string
  {
    WithSas(f.sourceUrl, props.sourceSasToken)
  }

  function DestinationWithSas(props: TransferProps, f: File): string
  {
    WithSas(f.destinationUrl, props.destinationSasToken)
  }

  /** The source blob a file's requests address (see Records.BlobOfWithSas). */
  function SourceBlob(f: File): string
  {
    BlobUrl(f.sourceUrl)
  }

  /** The destination blob a file's copy writes. */
  function DestinationBlob(f: File): string
  {
    BlobUrl(f.destinationUrl)
  }

  // ---------------------------------------------------------------------------
  // Specification functions

  function CopyFileSpec(props: TransferProps, f: File, w: World, status: string): (Outcome, World)
  {
    var (reported, w') := CopyStep(w, DestinationBlob(f), SourceBlob(f), DestinationWithSas(props, f), SourceWithSas(props, f), status);
    (if reported != CopySuccess then Fail(CopyFailed(f.id, reported)) else Pass, w')
  }

  function PatchDepositedSpec(props: TransferProps, f: File, w: World, code: int): (Outcome, World)
  {
    var (statusCode, w') := PatchStep(w, props.context.portalApiUrl, f.id, props.portalAuth, Deposited, code);
    (if statusCode != HttpOk then Fail(PatchFailed(f.id, statusCode)) else Pass, w')
  }

  function MaybeDeleteSpec(props: TransferProps, f: File, w: World, accepted: bool): (Outcome, World)
  {
    if !props.deleteSourceFiles then (Pass, w)
    else
      var (deleted, w') := DeleteStep(w, SourceBlob(f), SourceWithSas(props, f), accepted);
      (if deleted then Pass else Fail(DeleteFailed(SourceWithSas(props, f))), w')
  }

  /** One iteration of the loop over the files. */
  function ProcessFile(props: TransferProps, f: File, w: World, status: string, code: int, accepted: bool): (r: (FileOutcome, World))
    ensures w.trace <= r.1.trace
  {
    var (found, w1) := ExistsStep(w, SourceBlob(f), SourceWithSas(props, f));
    if !found then (Skipped, w1)
    else
      var (copied, w2) := CopyFileSpec(props, f, w1, status);
      if copied.Fail? then (Failed(copied.error), w2)
      else
        var (patched, w3) := PatchDepositedSpec(props, f, w2, code);
        if patched.Fail? then (Failed(patched.error), w3)
        else
          var (deleted, w4) := MaybeDeleteSpec(props, f, w3, accepted);
          if deleted.Fail? then (Failed(deleted.error), w4) else (Transferred, w4)
  }

  /** The loop has stopped on a failure. */
  predicate Stopped(logs: seq<FileLog>)
  {
    |logs| > 0 && logs[|logs| - 1].outcome.Failed?
  }

  /** The loop after it has been offered the first n files (starting in world w). */
  function RunPrefix(props: TransferProps, files: seq<File>, resp: Responses, w: World, n: nat): (r: Run)
    requires n <= |files|
    decreases n
  {
    if n == 0 then Run(Completed, [], w)
    else
      var prev := RunPrefix(props, files, resp, w, n - 1);
      if Stopped(prev.logs) then prev
      else
        var (outcome, w') := ProcessFile(props, files[n - 1], prev.world, resp.copyStatus(n - 1), resp.patchCode(n - 1), resp.deleteAccepted(n - 1));
        var log := FileLog(files[n - 1], w'.trace[|prev.world.trace|..], outcome);
        Run(if outcome.Failed? then Aborted(outcome.error) else Completed, prev.logs + [log], w')
  }

  function TransferFilesSpec(props: TransferProps, resp: Responses, w: World): Run
  {
    var (graph, w1) := SearchStep(w, props.context.portalApiUrl + SearchPath, props.portalAuth, resp.graph);
    match FilesOf(graph)
    case Err(e) => Run(Aborted(e), [], w1)
    case Ok(files) => RunPrefix(props, files, resp, w1, |files|)
  }

  function TransferSpec(props: TransferProps, resp: Responses, w: World): Run
  {
    var (indexing, w1) := IndexerInfoStep(w, props.context.portalApiUrl + IndexerInfoPath, resp.isIndexing);
    if indexing then Run(Deferred, [], w1) else TransferFilesSpec(props, resp, w1)
  }

  /** Once the loop has stopped, offering it more files changes nothing. */
  lemma {:induction false} StoppedIsFinal(props: TransferProps, files: seq<File>, resp: Responses, w: World, n: nat, m: nat)
    requires n <= m <= |files|
    requires Stopped(RunPrefix(props, files, resp, w, n).logs)
    ensures RunPrefix(props, files, resp, w, m) == RunPrefix(props, files, resp, w, n)
    decreases m
  {
    if m > n {
      StoppedIsFinal(props, files, resp, w, n, m - 1);
    }
  }

  /** One more iteration of the loop, from a state where it has not stopped. */
  lemma RunPrefixStep(props: TransferProps, files: seq<File>, resp: Responses, w: World, n: nat, outcome: FileOutcome, w': World)
    requires n < |files|
    requires !Stopped(RunPrefix(props, files, resp, w, n).logs)
    requires (outcome, w') == ProcessFile(props, files[n], RunPrefix(props, files, resp, w, n).world, resp.copyStatus(n), resp.patchCode(n), resp.deleteAccepted(n))
    ensures RunPrefix(props, files, resp, w, n + 1).world == w'
    ensures RunPrefix(props, files, resp, w, n + 1).outcome == if outcome.Failed? then Aborted(outcome.error) else Completed
    ensures Stopped(RunPrefix(props, files, resp, w, n + 1).logs) <==> outcome.Failed?
  {
  }

  // ---------------------------------------------------------------------------
  // The job, on the mutable services

  method PortalIsIndexing(props: TransferProps, svc: Services, answer: bool) returns (indexing: bool)
    modifies svc
    ensures (indexing, svc.State()) == IndexerInfoStep(old(svc.State()), props.context.portalApiUrl + IndexerInfoPath, answer)
  {
    indexing := svc.GetIndexerInfo(props.context.portalApiUrl + IndexerInfoPath, answer);
  }

  method GetFilesToTransfer(props: TransferProps, svc: Services, graph: seq<Item>) returns (files: Result<seq<File>>)
    modifies svc
    ensures files == FilesOf(graph)
    ensures svc.State() == SearchStep(old(svc.State()), props.context.portalApiUrl + SearchPath, props.portalAuth, graph).1
  {
    var items := svc.Search(props.context.portalApiUrl + SearchPath, props.portalAuth, graph);
    files := FilesOf(items);
  }

  method CopyFileFromSourceToDestination(props: TransferProps, svc: Services, f: File, status: string) returns (r: Outcome)
    modifies svc
    ensures (r, svc.State()) == CopyFileSpec(props, f, old(svc.State()), status)
  {
    BlobOfWithSas(f.sourceUrl, props.sourceSasToken);
    BlobOfWithSas(f.destinationUrl, props.destinationSasToken);
    var response := svc.StartCopyFromUrl(DestinationWithSas(props, f), SourceWithSas(props, f), status);
    if response != CopySuccess {
      return Fail(CopyFailed(f.id, response));
    }
    r := Pass;
  }

  method PatchUploadStatusDeposited(props: TransferProps, svc: Services, f: File, code: int) returns (r: Outcome)
    modifies svc
    ensures (r, svc.State()) == PatchDepositedSpec(props, f, old(svc.State()), code)
  {
    var statusCode := svc.PatchRecord(props.context.portalApiUrl, f.id, props.portalAuth, Deposited, code);
    if statusCode != HttpOk {
      return Fail(PatchFailed(f.id, statusCode));
    }
    r := Pass;
  }

  method MaybeDeleteSourceFile(props: TransferProps, svc: Services, f: File, accepted: bool) returns (r: Outcome)
    modifies svc
    ensures (r, svc.State()) == MaybeDeleteSpec(props, f, old(svc.State()), accepted)
  {
    if !props.deleteSourceFiles {
      return Pass;
    }
    BlobOfWithSas(f.sourceUrl, props.sourceSasToken);
    var deleted := svc.DeleteFile(SourceWithSas(props, f), accepted);
    if !deleted {
      return Fail(DeleteFailed(SourceWithSas(props, f)));
    }
    r := Pass;
  }

  /** The loop over the files, in order, until the first failure. */
  method TransferEach(props: TransferProps, svc: Services, files: seq<File>, resp: Responses) returns (r: RunOutcome)
    modifies svc
    ensures r == RunPrefix(props, files, resp, old(svc.State()), |files|).outcome
    ensures svc.State() == RunPrefix(props, files, resp, old(svc.State()), |files|).world
  {
    ghost var w := svc.State();
    var i := 0;
    while i < |files|
      invariant i <= |files|
      invariant svc.State() == RunPrefix(props, files, resp, w, i).world
      invariant !Stopped(RunPrefix(props, files, resp, w, i).logs)
      invariant RunPrefix(props, files, resp, w, i).outcome == Completed
    {
      var f := files[i];
      BlobOfWithSas(f.sourceUrl, props.sourceSasToken);
      var found := svc.FileExists(SourceWithSas(props, f));
      if !found {
        RunPrefixStep(props, files, resp, w, i, Skipped, svc.State());
        i := i + 1;
        continue;
      }
      var copied := CopyFileFromSourceToDestination(props, svc, f, resp.copyStatus(i));
      if copied.Fail? {
        RunPrefixStep(props, files, resp, w, i, Failed(copied.error), svc.State());
        StoppedIsFinal(props, files, resp, w, i + 1, |files|);
        return Aborted(copied.error);
      }
      var patched := PatchUploadStatusDeposited(props, svc, f, resp.patchCode(i));
      if patched.Fail? {
        RunPrefixStep(props, files, resp, w, i, Failed(patched.error), svc.State());
        StoppedIsFinal(props, files, resp, w, i + 1, |files|);
        return Aborted(patched.error);
      }
      var deleted := MaybeDeleteSourceFile(props, svc, f, resp.deleteAccepted(i));
      if deleted.Fail? {
        RunPrefixStep(props, files, resp, w, i, Failed(deleted.error), svc.State());
        StoppedIsFinal(props, files, resp, w, i + 1, |files|);
        return Aborted(deleted.error);
      }
      RunPrefixStep(props, files, resp, w, i, Transferred, svc.State());
      i := i + 1;
    }
    r := Completed;
  }

  method TransferFiles(props: TransferProps, svc: Services, resp: Responses) returns (r: RunOutcome)
    modifies svc
    ensures r == TransferFilesSpec(props, resp, old(svc.State())).outcome
    ensures svc.State() == TransferFilesSpec(props, resp, old(svc.State())).world
  {
    var fetched := GetFilesToTransfer(props, svc, resp.graph);
    if fetched.Err? {
      return Aborted(fetched.error);
    }
    r := TransferEach(props, svc, fetched.value, resp);
  }

  method Transfer(props: TransferProps, svc: Services, resp: Responses) returns (r: RunOutcome)
    modifies svc
    ensures r == TransferSpec(props, resp, old(svc.State())).outcome
    ensures svc.State() == TransferSpec(props, resp, old(svc.State())).world
  {
    var indexing := PortalIsIndexing(props, svc, resp.isIndexing);
    if indexing {
      return Deferred;
    }
    r := TransferFiles(props, svc, resp);
  }
}
