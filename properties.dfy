/** What the transfer job guarantees, proved about the specification functions
    of module Pipeline (and so, through the methods' postconditions, about the
    job run on the mutable services). */
module Properties {
  import opened Records
  import opened Services
  import opened Pipeline

  // ---------------------------------------------------------------------------
  // One file

  /** The patch of a file to "deposited" was answered 200. */
  predicate PatchSucceeded(o: FileOutcome)
  {
    o.Transferred? || (o.Failed? && o.error.DeleteFailed?)
  }

  /** The copy of a file was reported as "success". */
  predicate CopySucceeded(o: FileOutcome)
  {
    PatchSucceeded(o) || (o.Failed? && o.error.PatchFailed?)
  }

  /** The five ways one file can go, each with the exact requests sent for it:
      skipped after a negative existence check; copy refused (error carries the
      file id, nothing else is sent); patch refused (no delete); transferred
      without or with a delete of the source; or delete refused after a
      successful copy and patch. Every blob request uses the record's URL joined
      to the matching token, and the patch goes to the portal URL followed by
      the file id. */
  predicate FileLogAllowed(props: TransferProps, log: FileLog, status: string, code: int, accepted: bool)
  {
    var f := log.file;
    var s, d := SourceWithSas(props, f), DestinationWithSas(props, f);
    var probe := BlobExists(s, true);
    var copy := StartCopy(d, s, status);
    var patch := Patch(props.context.portalApiUrl + f.id, props.portalAuth, Deposited, code);
    || (log.outcome == Skipped && log.ops == [BlobExists(s, false)])
    || (status != CopySuccess && log.outcome == Failed(CopyFailed(f.id, status)) && log.ops == [probe, copy])
    || (status == CopySuccess && code != HttpOk && log.outcome == Failed(PatchFailed(f.id, code))
        && log.ops == [probe, copy, patch])
    || (status == CopySuccess && code == HttpOk && !props.deleteSourceFiles && log.outcome == Transferred
        && log.ops == [probe, copy, patch])
    || (status == CopySuccess && code == HttpOk && props.deleteSourceFiles && accepted && log.outcome == Transferred
        && log.ops == [probe, copy, patch, DeleteBlob(s, true)])
    || (status == CopySuccess && code == HttpOk && props.deleteSourceFiles && !accepted
        && log.outcome == Failed(DeleteFailed(s)) && log.ops == [probe, copy, patch, DeleteBlob(s, false)])
  }

  /** Processing one file sends one of the allowed request sequences; it is
      skipped exactly when its source blob is absent; the source loses that blob
      only on a transfer with deletion on; the catalog changes only by that file
      becoming "deposited" after a patch answered 200; and the destination
      changes only by receiving the source blob after a successful copy. */
  lemma ProcessFileEffects(props: TransferProps, f: File, w: World, status: string, code: int, accepted: bool)
    ensures var r := ProcessFile(props, f, w, status, code, accepted);
      && FileLogAllowed(props, FileLog(f, r.1.trace[|w.trace|..], r.0), status, code, accepted)
      && (r.0 == Skipped <==> SourceBlob(f) !in w.source)
      && r.1.source == (if r.0 == Transferred && props.deleteSourceFiles then w.source - {SourceBlob(f)} else w.source)
      && r.1.catalog == (if PatchSucceeded(r.0) then w.catalog[f.id := Deposited] else w.catalog)
      && r.1.destination == (if CopySucceeded(r.0) then w.destination[DestinationBlob(f) := w.source[SourceBlob(f)]]
                             else w.destination)
  {
  }

  // ---------------------------------------------------------------------------
  // Summaries of a sequence of file logs

  /** The requests of the logs, one file after another. */
  function Ops(logs: seq<FileLog>): seq<Op>
  {
    if |logs| == 0 then [] else Ops(logs[..|logs| - 1]) + logs[|logs| - 1].ops
  }

  /** The source blobs the logged files deleted. */
  function DeletedBlobs(props: TransferProps, logs: seq<FileLog>): set<string>
  {
    if |logs| == 0 then {}
    else
      var last := logs[|logs| - 1];
      DeletedBlobs(props, logs[..|logs| - 1])
        + (if last.outcome == Transferred && props.deleteSourceFiles then {SourceBlob(last.file)} else {})
  }

  /** The ids of the logged files whose patch to "deposited" was answered 200. */
  function DepositedIds(logs: seq<FileLog>): set<string>
  {
    if |logs| == 0 then {}
    else
      var last := logs[|logs| - 1];
      DepositedIds(logs[..|logs| - 1]) + (if PatchSucceeded(last.outcome) then {last.file.id} else {})
  }

  /** The destination blobs the logged files were copied to. */
  function CopiedBlobs(props: TransferProps, logs: seq<FileLog>): set<string>
  {
    if |logs| == 0 then {}
    else
      var last := logs[|logs| - 1];
      CopiedBlobs(props, logs[..|logs| - 1]) + (if CopySucceeded(last.outcome) then {DestinationBlob(last.file)} else {})
  }

  function AllDeposited(ids: set<string>): map<string, string>
  {
    map id | id in ids :: Deposited
  }

  lemma SummariesSnoc(props: TransferProps, logs: seq<FileLog>, log: FileLog)
    ensures Ops(logs + [log]) == Ops(logs) + log.ops
    ensures DeletedBlobs(props, logs + [log]) == DeletedBlobs(props, logs)
      + (if log.outcome == Transferred && props.deleteSourceFiles then {SourceBlob(log.file)} else {})
    ensures DepositedIds(logs + [log]) == DepositedIds(logs) + (if PatchSucceeded(log.outcome) then {log.file.id} else {})
    ensures CopiedBlobs(props, logs + [log]) == CopiedBlobs(props, logs)
      + (if CopySucceeded(log.outcome) then {DestinationBlob(log.file)} else {})
  {
    assert (logs + [log])[..|logs|] == logs;
  }

  // ---------------------------------------------------------------------------
  // The loop

  /** One iteration of the loop that has not stopped appends one log, whose
      requests extend the trace; the loop is aborted exactly when that log failed. */
  lemma RunStepOutline(props: TransferProps, files: seq<File>, resp: Responses, w: World, n: nat)
    requires 0 < n <= |files|
    requires !Stopped(RunPrefix(props, files, resp, w, n - 1).logs)
    ensures var prev, r := RunPrefix(props, files, resp, w, n - 1), RunPrefix(props, files, resp, w, n);
      && r.logs == prev.logs + [r.logs[|prev.logs|]]
      && r.world.trace == prev.world.trace + r.logs[|prev.logs|].ops
      && r.outcome == (if Stopped(r.logs) then Aborted(r.logs[|prev.logs|].outcome.error) else Completed)
  {
  }

  /** One iteration of the loop that has not stopped appends one allowed log for
      the next file, whose requests extend the trace and whose effects are those
      of ProcessFileEffects. */
  lemma RunStep(props: TransferProps, files: seq<File>, resp: Responses, w: World, n: nat)
    requires 0 < n <= |files|
    requires !Stopped(RunPrefix(props, files, resp, w, n - 1).logs)
    ensures var prev, r := RunPrefix(props, files, resp, w, n - 1), RunPrefix(props, files, resp, w, n);
      && r.logs == prev.logs + [r.logs[|prev.logs|]]
      && r.logs[|prev.logs|].file == files[n - 1]
      && FileLogAllowed(props, r.logs[|prev.logs|], resp.copyStatus(n - 1), resp.patchCode(n - 1), resp.deleteAccepted(n - 1))
      && r.world.trace == prev.world.trace + r.logs[|prev.logs|].ops
      && r.outcome == (if Stopped(r.logs) then Aborted(r.logs[|prev.logs|].outcome.error) else Completed)
      && var o := r.logs[|prev.logs|].outcome;
      && (o == Skipped <==> SourceBlob(files[n - 1]) !in prev.world.source)
      && r.world.source == (if o == Transferred && props.deleteSourceFiles then prev.world.source - {SourceBlob(files[n - 1])}
                            else prev.world.source)
      && r.world.catalog == (if PatchSucceeded(o) then prev.world.catalog[files[n - 1].id := Deposited] else prev.world.catalog)
      && r.world.destination == (if CopySucceeded(o)
                                 then prev.world.destination[DestinationBlob(files[n - 1]) := prev.world.source[SourceBlob(files[n - 1])]]
                                 else prev.world.destination)
  {
    var prev := RunPrefix(props, files, resp, w, n - 1);
    ProcessFileEffects(props, files[n - 1], prev.world, resp.copyStatus(n - 1), resp.patchCode(n - 1), resp.deleteAccepted(n - 1));
  }

  /** The loop has been offered n files: it handled all of them, or it stopped. */
  lemma {:induction false} RunLength(props: TransferProps, files: seq<File>, resp: Responses, w: World, n: nat)
    requires n <= |files|
    ensures |RunPrefix(props, files, resp, w, n).logs| <= n
    ensures !Stopped(RunPrefix(props, files, resp, w, n).logs) ==> |RunPrefix(props, files, resp, w, n).logs| == n
    decreases n
  {
    if n > 0 {
      RunLength(props, files, resp, w, n - 1);
      if !Stopped(RunPrefix(props, files, resp, w, n - 1).logs) {
        RunStepOutline(props, files, resp, w, n);
      }
    }
  }

  /** Later iterations only append to the logs of earlier ones. */
  lemma {:induction false} RunLogsGrow(props: TransferProps, files: seq<File>, resp: Responses, w: World, m: nat, n: nat)
    requires m <= n <= |files|
    ensures RunPrefix(props, files, resp, w, m).logs <= RunPrefix(props, files, resp, w, n).logs
    decreases n
  {
    if m < n {
      RunLogsGrow(props, files, resp, w, m, n - 1);
      if !Stopped(RunPrefix(props, files, resp, w, n - 1).logs) {
        RunStepOutline(props, files, resp, w, n);
      }
    }
  }

  /** The j-th log of the loop is the one the j-th iteration appended: it is the
      j-th file's, allowed, and every earlier file was handled without failure. */
  lemma RunLogAt(props: TransferProps, files: seq<File>, resp: Responses, w: World, n: nat, j: nat)
    requires n <= |files|
    requires j < |RunPrefix(props, files, resp, w, n).logs|
    ensures j < n
    ensures !Stopped(RunPrefix(props, files, resp, w, j).logs)
    ensures |RunPrefix(props, files, resp, w, j).logs| == j
    ensures RunPrefix(props, files, resp, w, n).logs[j] == RunPrefix(props, files, resp, w, j + 1).logs[j]
    ensures RunPrefix(props, files, resp, w, n).logs[j].file == files[j]
    ensures FileLogAllowed(props, RunPrefix(props, files, resp, w, n).logs[j], resp.copyStatus(j), resp.patchCode(j), resp.deleteAccepted(j))
  {
    RunLength(props, files, resp, w, n);
    RunLength(props, files, resp, w, j);
    if Stopped(RunPrefix(props, files, resp, w, j).logs) {
      StoppedIsFinal(props, files, resp, w, j, n);
      assert false;
    }
    RunStep(props, files, resp, w, j + 1);
    RunLogsGrow(props, files, resp, w, j + 1, n);
  }

  /** The loop visits the files in list order, sends only allowed request
      sequences for each, continues past skipped and transferred files, and
      stops right after the first failing file. */
  lemma RunShape(props: TransferProps, files: seq<File>, resp: Responses, w: World, n: nat)
    requires n <= |files|
    ensures var r := RunPrefix(props, files, resp, w, n);
      && |r.logs| <= n
      && (forall j :: 0 <= j < |r.logs| ==> r.logs[j].file == files[j])
      && (forall j :: 0 <= j < |r.logs| ==>
            FileLogAllowed(props, r.logs[j], resp.copyStatus(j), resp.patchCode(j), resp.deleteAccepted(j)))
      && (forall j :: 0 <= j < |r.logs| - 1 ==> !r.logs[j].outcome.Failed?)
      && (|r.logs| < n ==> Stopped(r.logs))
  {
    var r := RunPrefix(props, files, resp, w, n);
    RunLength(props, files, resp, w, n);
    forall j | 0 <= j < |r.logs|
      ensures r.logs[j].file == files[j]
      ensures FileLogAllowed(props, r.logs[j], resp.copyStatus(j), resp.patchCode(j), resp.deleteAccepted(j))
    {
      RunLogAt(props, files, resp, w, n, j);
    }
    forall j | 0 <= j < |r.logs| - 1 ensures !r.logs[j].outcome.Failed? {
      RunLogAt(props, files, resp, w, n, j + 1);
      RunLogAt(props, files, resp, w, n, j);
      RunLogsGrow(props, files, resp, w, j + 1, j + 1);
      assert RunPrefix(props, files, resp, w, j + 1).logs[j] == r.logs[j];
    }
  }

  /** The loop's outcome is the error of the failing file if it stopped, and
      Completed otherwise; its trace is the requests of the visited files one
      after another. */
  lemma {:induction false} RunTrace(props: TransferProps, files: seq<File>, resp: Responses, w: World, n: nat)
    requires n <= |files|
    ensures TraceSoFar(w, RunPrefix(props, files, resp, w, n))
    decreases n
  {
    if n > 0 {
      RunTrace(props, files, resp, w, n - 1);
      RunTraceStep(props, files, resp, w, n);
    }
  }

  /** The outcome is the error of the last log if it failed and Completed
      otherwise, and the trace is the requests of the logs one after another. */
  predicate TraceSoFar(w: World, r: Run)
  {
    && r.outcome == (if Stopped(r.logs) then Aborted(r.logs[|r.logs| - 1].outcome.error) else Completed)
    && r.world.trace == w.trace + Ops(r.logs)
  }

  lemma RunTraceStep(props: TransferProps, files: seq<File>, resp: Responses, w: World, n: nat)
    requires 0 < n <= |files|
    requires TraceSoFar(w, RunPrefix(props, files, resp, w, n - 1))
    ensures TraceSoFar(w, RunPrefix(props, files, resp, w, n))
  {
    var prev := RunPrefix(props, files, resp, w, n - 1);
    if !Stopped(prev.logs) {
      RunStepOutline(props, files, resp, w, n);
      var r := RunPrefix(props, files, resp, w, n);
      TraceSnoc(props, w, prev, r, r.logs[|prev.logs|]);
    }
  }

  lemma TraceSnoc(props: TransferProps, w: World, prev: Run, r: Run, last: FileLog)
    requires TraceSoFar(w, prev)
    requires r.logs == prev.logs + [last]
    requires r.world.trace == prev.world.trace + last.ops
    requires r.outcome == (if Stopped(r.logs) then Aborted(last.outcome.error) else Completed)
    ensures TraceSoFar(w, r)
  {
    SummariesSnoc(props, prev.logs, last);
  }

  /** The stores and the catalog after the loop: the source has lost exactly the
      deleted blobs; the catalog has gained "deposited" for exactly the files
      whose patch succeeded and no other record changed; the destination has
      gained the copied blobs and no other blob changed. */
  lemma {:induction false} RunEffects(props: TransferProps, files: seq<File>, resp: Responses, w: World, n: nat)
    requires n <= |files|
    ensures EffectsSoFar(props, w, RunPrefix(props, files, resp, w, n))
    decreases n
  {
    if n > 0 {
      RunEffects(props, files, resp, w, n - 1);
      RunEffectsStep(props, files, resp, w, n);
    }
  }

  lemma RunEffectsStep(props: TransferProps, files: seq<File>, resp: Responses, w: World, n: nat)
    requires 0 < n <= |files|
    requires EffectsSoFar(props, w, RunPrefix(props, files, resp, w, n - 1))
    ensures EffectsSoFar(props, w, RunPrefix(props, files, resp, w, n))
  {
    var prev := RunPrefix(props, files, resp, w, n - 1);
    if !Stopped(prev.logs) {
      RunStep(props, files, resp, w, n);
      var r := RunPrefix(props, files, resp, w, n);
      var last := r.logs[|prev.logs|];
      SummariesSnoc(props, prev.logs, last);
      SourceStep(props, w, prev.world, r.world, prev.logs, last);
      CatalogStep(w, prev.world, r.world, prev.logs, last);
      DestinationStep(props, w, prev.world, r.world, prev.logs, last);
    }
  }

  /** The source has lost exactly the deleted blobs, the catalog has gained
      "deposited" for exactly the patched files, and the destination has gained
      exactly the copied blobs, every other destination blob unchanged. */
  predicate EffectsSoFar(props: TransferProps, w: World, r: Run)
  {
    && SourceSoFar(props, w, r.world, r.logs)
    && CatalogSoFar(w, r.world, r.logs)
    && DestinationSoFar(w, r.world, CopiedBlobs(props, r.logs))
  }

  predicate SourceSoFar(props: TransferProps, w: World, now: World, logs: seq<FileLog>)
  {
    now.source == w.source - DeletedBlobs(props, logs)
  }

  predicate CatalogSoFar(w: World, now: World, logs: seq<FileLog>)
  {
    now.catalog == w.catalog + AllDeposited(DepositedIds(logs))
  }

  predicate DestinationSoFar(w: World, now: World, copied: set<string>)
  {
    && now.destination.Keys == w.destination.Keys + copied
    && (forall u :: u in w.destination && u !in copied ==> now.destination[u] == w.destination[u])
  }

  lemma SourceStep(props: TransferProps, w: World, prev: World, next: World, logs: seq<FileLog>, last: FileLog)
    requires SourceSoFar(props, w, prev, logs)
    requires next.source == (if last.outcome == Transferred && props.deleteSourceFiles then prev.source - {SourceBlob(last.file)}
                             else prev.source)
    requires DeletedBlobs(props, logs + [last]) == DeletedBlobs(props, logs)
      + (if last.outcome == Transferred && props.deleteSourceFiles then {SourceBlob(last.file)} else {})
    ensures SourceSoFar(props, w, next, logs + [last])
  {
  }

  lemma CatalogStep(w: World, prev: World, next: World, logs: seq<FileLog>, last: FileLog)
    requires CatalogSoFar(w, prev, logs)
    requires next.catalog == (if PatchSucceeded(last.outcome) then prev.catalog[last.file.id := Deposited] else prev.catalog)
    requires DepositedIds(logs + [last]) == DepositedIds(logs) + (if PatchSucceeded(last.outcome) then {last.file.id} else {})
    ensures CatalogSoFar(w, next, logs + [last])
  {
    if PatchSucceeded(last.outcome) {
      assert AllDeposited(DepositedIds(logs + [last])) == AllDeposited(DepositedIds(logs))[last.file.id := Deposited];
    }
  }

  lemma DestinationStep(props: TransferProps, w: World, prev: World, next: World, logs: seq<FileLog>, last: FileLog)
    requires DestinationSoFar(w, prev, CopiedBlobs(props, logs))
    requires CopySucceeded(last.outcome) ==> SourceBlob(last.file) in prev.source
    requires next.destination == (if CopySucceeded(last.outcome)
                                  then prev.destination[DestinationBlob(last.file) := prev.source[SourceBlob(last.file)]]
                                  else prev.destination)
    requires CopiedBlobs(props, logs + [last]) == CopiedBlobs(props, logs)
      + (if CopySucceeded(last.outcome) then {DestinationBlob(last.file)} else {})
    ensures DestinationSoFar(w, next, CopiedBlobs(props, logs + [last]))
  {
  }

  /** A file is skipped exactly when its source blob is missing at the start of
      the run or was deleted earlier in the same run. */
  lemma SkippedExactlyWhenMissing(props: TransferProps, files: seq<File>, resp: Responses, w: World, n: nat)
    requires n <= |files|
    ensures SkipsExactlyMissing(props, files, w, RunPrefix(props, files, resp, w, n).logs)
  {
    SkipsAll(props, files, resp, w, n, RunPrefix(props, files, resp, w, n).logs);
  }

  lemma SkipsAll(props: TransferProps, files: seq<File>, resp: Responses, w: World, n: nat, logs: seq<FileLog>)
    requires n <= |files|
    requires logs == RunPrefix(props, files, resp, w, n).logs
    ensures SkipsExactlyMissing(props, files, w, logs)
  {
    forall j | 0 <= j < |logs| ensures SkippedRightAt(props, files, w, logs, j) {
      SkippedAtLog(props, files, resp, w, n, j, logs);
    }
  }

  /** Each logged file was skipped exactly when its source blob was missing at
      the start or deleted for an earlier file. */
  predicate SkipsExactlyMissing(props: TransferProps, files: seq<File>, w: World, logs: seq<FileLog>)
  {
    forall j :: 0 <= j < |logs| ==> SkippedRightAt(props, files, w, logs, j)
  }

  predicate SkippedRightAt(props: TransferProps, files: seq<File>, w: World, logs: seq<FileLog>, j: nat)
    requires j < |logs|
  {
    j < |files| && (logs[j].outcome == Skipped <==> SourceBlob(files[j]) !in (w.source - DeletedBlobs(props, logs[..j])))
  }

  lemma SkippedAtLog(props: TransferProps, files: seq<File>, resp: Responses, w: World, n: nat, j: nat, logs: seq<FileLog>)
    requires n <= |files|
    requires logs == RunPrefix(props, files, resp, w, n).logs
    requires j < |logs|
    ensures j < |files|
    ensures logs[j].outcome == Skipped <==> SourceBlob(files[j]) !in (w.source - DeletedBlobs(props, logs[..j]))
  {
    RunLogAt(props, files, resp, w, n, j);
    SkippedAt(props, files, resp, w, j);
    RunLogsGrow(props, files, resp, w, j, n);
    assert logs[..j] == RunPrefix(props, files, resp, w, j).logs;
  }

  lemma SkippedAt(props: TransferProps, files: seq<File>, resp: Responses, w: World, j: nat)
    requires j < |files|
    requires !Stopped(RunPrefix(props, files, resp, w, j).logs)
    requires |RunPrefix(props, files, resp, w, j).logs| == j
    ensures var prev := RunPrefix(props, files, resp, w, j);
      (RunPrefix(props, files, resp, w, j + 1).logs[j].outcome == Skipped
       <==> SourceBlob(files[j]) !in (w.source - DeletedBlobs(props, prev.logs)))
  {
    RunEffects(props, files, resp, w, j);
    RunStep(props, files, resp, w, j + 1);
  }

  /** With deletion switched off nothing is ever deleted. */
  lemma {:induction false} NothingDeletedWhenFlagOff(props: TransferProps, logs: seq<FileLog>)
    requires !props.deleteSourceFiles
    ensures DeletedBlobs(props, logs) == {}
  {
    if |logs| > 0 {
      NothingDeletedWhenFlagOff(props, logs[..|logs| - 1]);
    }
  }

  /** With deletion switched off the loop leaves the source container as it was. */
  lemma SourceKeptWhenFlagOff(props: TransferProps, files: seq<File>, resp: Responses, w: World, n: nat, r: Run)
    requires n <= |files|
    requires !props.deleteSourceFiles
    requires r == RunPrefix(props, files, resp, w, n)
    ensures r.world.source == w.source
  {
    RunEffects(props, files, resp, w, n);
    NothingDeletedWhenFlagOff(props, r.logs);
  }

  // ---------------------------------------------------------------------------
  // Order of requests in a trace

  /** Every copy is sent right after a positive existence check of its source. */
  predicate ProbedBeforeCopy(t: seq<Op>)
  {
    forall k :: 0 <= k < |t| && t[k].StartCopy? ==> 0 < k && t[k - 1] == BlobExists(t[k].source, true)
  }

  /** Every patch is sent right after a successful copy. */
  predicate CopiedBeforePatch(t: seq<Op>)
  {
    forall k :: 0 <= k < |t| && t[k].Patch? ==> 0 < k && t[k - 1].StartCopy? && t[k - 1].copyStatus == CopySuccess
  }

  /** Every successful copy is followed at once by a patch to "deposited". */
  predicate PatchAfterCopy(t: seq<Op>)
  {
    forall k :: 0 <= k < |t| && t[k].StartCopy? && t[k].copyStatus == CopySuccess ==>
      k + 1 < |t| && t[k + 1].Patch? && t[k + 1].uploadStatus == Deposited
  }

  /** Every delete is sent right after a patch answered 200, which came right
      after a successful copy from the blob being deleted. */
  predicate PatchedBeforeDelete(t: seq<Op>)
  {
    forall k :: 0 <= k < |t| && t[k].DeleteBlob? ==>
      && 2 <= k
      && t[k - 1].Patch? && t[k - 1].statusCode == HttpOk
      && t[k - 2].StartCopy? && t[k - 2].source == t[k].url && t[k - 2].copyStatus == CopySuccess
  }

  predicate Ordered(t: seq<Op>)
  {
    ProbedBeforeCopy(t) && CopiedBeforePatch(t) && PatchAfterCopy(t) && PatchedBeforeDelete(t)
  }

  predicate NoDelete(t: seq<Op>)
  {
    forall k :: 0 <= k < |t| ==> !t[k].DeleteBlob?
  }

  /** Two ordered traces, one after the other, are ordered. */
  lemma OrderedAppend(a: seq<Op>, b: seq<Op>)
    requires Ordered(a) && Ordered(b)
    ensures Ordered(a + b)
  {
    var t := a + b;
    forall k | 0 <= k < |t| && t[k].StartCopy? ensures 0 < k && t[k - 1] == BlobExists(t[k].source, true) {
      if k >= |a| { assert t[k] == b[k - |a|]; assert t[k - 1] == b[k - |a| - 1]; }
    }
    forall k | 0 <= k < |t| && t[k].Patch? ensures 0 < k && t[k - 1].StartCopy? && t[k - 1].copyStatus == CopySuccess {
      if k >= |a| { assert t[k] == b[k - |a|]; assert t[k - 1] == b[k - |a| - 1]; }
    }
    forall k | 0 <= k < |t| && t[k].StartCopy? && t[k].copyStatus == CopySuccess
      ensures k + 1 < |t| && t[k + 1].Patch? && t[k + 1].uploadStatus == Deposited
    {
      if k >= |a| { assert t[k] == b[k - |a|]; assert t[k + 1] == b[k - |a| + 1]; }
    }
    forall k | 0 <= k < |t| && t[k].DeleteBlob?
      ensures 2 <= k && t[k - 1].Patch? && t[k - 1].statusCode == HttpOk
           && t[k - 2].StartCopy? && t[k - 2].source == t[k].url && t[k - 2].copyStatus == CopySuccess
    {
      if k >= |a| { assert t[k] == b[k - |a|]; assert t[k - 1] == b[k - |a| - 1]; assert t[k - 2] == b[k - |a| - 2]; }
    }
  }

  /** The requests of one allowed file log are ordered, and contain no delete
      when deletion is switched off. */
  lemma AllowedOrdered(props: TransferProps, log: FileLog, status: string, code: int, accepted: bool)
    requires FileLogAllowed(props, log, status, code, accepted)
    ensures Ordered(log.ops)
    ensures !props.deleteSourceFiles ==> NoDelete(log.ops)
  {
    var f := log.file;
    var s, d := SourceWithSas(props, f), DestinationWithSas(props, f);
    var patch := Patch(props.context.portalApiUrl + f.id, props.portalAuth, Deposited, code);
    if |log.ops| == 1 {
      assert log.ops == [BlobExists(s, false)];
    } else if |log.ops| == 2 {
      CopyRefusedOrdered(s, d, status);
    } else if |log.ops| == 3 {
      PatchedOrdered(s, d, patch);
    } else {
      DeletedOrdered(s, d, patch, accepted);
    }
  }

  lemma CopyRefusedOrdered(s: string, d: string, status: string)
    requires status != CopySuccess
    ensures Ordered([BlobExists(s, true), StartCopy(d, s, status)])
    ensures NoDelete([BlobExists(s, true), StartCopy(d, s, status)])
  {
  }

  lemma PatchedOrdered(s: string, d: string, patch: Op)
    requires patch.Patch? && patch.uploadStatus == Deposited
    ensures Ordered([BlobExists(s, true), StartCopy(d, s, CopySuccess), patch])
    ensures NoDelete([BlobExists(s, true), StartCopy(d, s, CopySuccess), patch])
  {
  }

  lemma DeletedOrdered(s: string, d: string, patch: Op, deleted: bool)
    requires patch.Patch? && patch.uploadStatus == Deposited && patch.statusCode == HttpOk
    ensures Ordered([BlobExists(s, true), StartCopy(d, s, CopySuccess), patch, DeleteBlob(s, deleted)])
  {
    var t := [BlobExists(s, true), StartCopy(d, s, CopySuccess), patch, DeleteBlob(s, deleted)];
    assert CopiedBeforePatch(t);
  }

  /** The requests of allowed file logs are ordered, and contain no delete when
      deletion is switched off. */
  lemma {:induction false} OpsOrdered(props: TransferProps, logs: seq<FileLog>, resp: Responses)
    requires forall j :: 0 <= j < |logs| ==>
      FileLogAllowed(props, logs[j], resp.copyStatus(j), resp.patchCode(j), resp.deleteAccepted(j))
    ensures Ordered(Ops(logs))
    ensures !props.deleteSourceFiles ==> NoDelete(Ops(logs))
  {
    if |logs| > 0 {
      var init, last := logs[..|logs| - 1], logs[|logs| - 1];
      OpsOrdered(props, init, resp);
      AllowedOrdered(props, last, resp.copyStatus(|logs| - 1), resp.patchCode(|logs| - 1), resp.deleteAccepted(|logs| - 1));
      OrderedAppend(Ops(init), last.ops);
      if !props.deleteSourceFiles {
        var t := Ops(init) + last.ops;
        forall k | 0 <= k < |t| ensures !t[k].DeleteBlob? {
          if k >= |Ops(init)| { assert t[k] == last.ops[k - |Ops(init)|]; }
        }
      }
    }
  }

  // ---------------------------------------------------------------------------
  // The whole run

  /** While the portal is indexing the run sends the indexer probe and nothing
      else: no search, no blob or catalog request, and no store changes. */
  lemma IndexingGate(props: TransferProps, resp: Responses, w: World)
    requires resp.isIndexing
    ensures var r := TransferSpec(props, resp, w);
      && r.outcome == Deferred
      && r.logs == []
      && r.world == w.(trace := w.trace + [IndexerInfo(props.context.portalApiUrl + IndexerInfoPath, true)])
  {
  }

  /** The loop from world w has handled a prefix of the files, one log per file
      in list order, its requests are those of the logs one after another, every
      log but the last ended without failure, an aborted loop carries the error of
      its last file, and the loop completed exactly when it handled every file
      without failure. */
  predicate VisitsInOrder(files: seq<File>, w: World, r: Run)
  {
    && r.world.trace == w.trace + Ops(r.logs)
    && |r.logs| <= |files|
    && (forall j :: 0 <= j < |r.logs| ==> r.logs[j].file == files[j])
    && (forall j :: 0 <= j < |r.logs| - 1 ==> !r.logs[j].outcome.Failed?)
    && (r.outcome.Aborted? ==> 0 < |r.logs| && r.logs[|r.logs| - 1].outcome == Failed(r.outcome.error))
    && (r.outcome == Completed || r.outcome.Aborted?)
    && (r.outcome == Completed <==> |r.logs| == |files| && forall j :: 0 <= j < |r.logs| ==> !r.logs[j].outcome.Failed?)
  }

  /** Every log sends one of the allowed request sequences for its file's answers. */
  predicate LogsAllowed(props: TransferProps, resp: Responses, logs: seq<FileLog>)
  {
    forall j :: 0 <= j < |logs| ==> FileLogAllowed(props, logs[j], resp.copyStatus(j), resp.patchCode(j), resp.deleteAccepted(j))
  }

  lemma LoopVisits(props: TransferProps, files: seq<File>, resp: Responses, w: World, r: Run)
    requires r == RunPrefix(props, files, resp, w, |files|)
    ensures VisitsInOrder(files, w, r)
    ensures LogsAllowed(props, resp, r.logs)
  {
    RunShape(props, files, resp, w, |files|);
    RunTrace(props, files, resp, w, |files|);
  }

  /** When the portal is not indexing, the run probes the indexer, searches once,
      and then either the search result lacks a field and nothing more happens,
      or the loop visits the result's files in order (VisitsInOrder). */
  lemma TransferVisitsCatalogOrder(props: TransferProps, resp: Responses, w: World)
    requires !resp.isIndexing
    ensures var r := TransferSpec(props, resp, w);
      var w2 := w.(trace := w.trace + [IndexerInfo(props.context.portalApiUrl + IndexerInfoPath, false),
                                       Search(props.context.portalApiUrl + SearchPath, props.portalAuth, |resp.graph|)]);
      && (FilesOf(resp.graph).Err? ==> r == Run(Aborted(FilesOf(resp.graph).error), [], w2))
      && (FilesOf(resp.graph).Ok? ==> VisitsInOrder(FilesOf(resp.graph).value, w2, r) && LogsAllowed(props, resp, r.logs))
  {
    var w1 := IndexerInfoStep(w, props.context.portalApiUrl + IndexerInfoPath, false).1;
    var w2 := SearchStep(w1, props.context.portalApiUrl + SearchPath, props.portalAuth, resp.graph).1;
    assert w2.trace == w.trace + [IndexerInfo(props.context.portalApiUrl + IndexerInfoPath, false),
                                  Search(props.context.portalApiUrl + SearchPath, props.portalAuth, |resp.graph|)];
    if FilesOf(resp.graph).Ok? {
      LoopVisits(props, FilesOf(resp.graph).value, resp, w2, TransferSpec(props, resp, w));
    }
  }

  /** The loop from world w aborted on its last file, which failed with the
      loop's error and whose requests end the trace: a refused copy carries that
      file's id and the reported status, and was followed by no patch and no
      delete; a refused patch carries that file's id and code, and was followed
      by no delete; a refused delete names the source URL with its token, and
      happens only with deletion switched on. */
  predicate EndsOnFailure(props: TransferProps, resp: Responses, w: World, r: Run)
  {
    && r.outcome.Aborted?
    && 0 < |r.logs|
    && var e, last := r.outcome.error, r.logs[|r.logs| - 1];
    var s, d := SourceWithSas(props, last.file), DestinationWithSas(props, last.file);
    var copied := [BlobExists(s, true), StartCopy(d, s, CopySuccess)];
    var patch := Patch(props.context.portalApiUrl + last.file.id, props.portalAuth, Deposited, resp.patchCode(|r.logs| - 1));
    && last.outcome == Failed(e)
    && r.world.trace == w.trace + Ops(r.logs[..|r.logs| - 1]) + last.ops
    && !e.MissingField?
    && (e.CopyFailed? ==> e.fileId == last.file.id && e.copyStatus != CopySuccess
                          && last.ops == [BlobExists(s, true), StartCopy(d, s, e.copyStatus)])
    && (e.PatchFailed? ==> e.fileId == last.file.id && e.statusCode != HttpOk && e.statusCode == resp.patchCode(|r.logs| - 1)
                           && last.ops == copied + [patch])
    && (e.DeleteFailed? ==> props.deleteSourceFiles && e.url == s && last.ops == copied + [patch, DeleteBlob(s, false)])
  }

  lemma LoopEndsOnFailure(props: TransferProps, resp: Responses, files: seq<File>, w: World, r: Run)
    requires VisitsInOrder(files, w, r) && LogsAllowed(props, resp, r.logs)
    requires r.outcome.Aborted?
    ensures EndsOnFailure(props, resp, w, r)
  {
    var last := r.logs[|r.logs| - 1];
    assert FileLogAllowed(props, last, resp.copyStatus(|r.logs| - 1), resp.patchCode(|r.logs| - 1), resp.deleteAccepted(|r.logs| - 1));
  }

  /** A run that aborts after a complete search result aborts on the failing
      file as EndsOnFailure describes, after the indexer probe and the search. */
  lemma FailureEndsRun(props: TransferProps, resp: Responses, w: World)
    requires !resp.isIndexing && FilesOf(resp.graph).Ok?
    requires TransferSpec(props, resp, w).outcome.Aborted?
    ensures EndsOnFailure(props, resp,
                          w.(trace := w.trace + [IndexerInfo(props.context.portalApiUrl + IndexerInfoPath, false),
                                                 Search(props.context.portalApiUrl + SearchPath, props.portalAuth, |resp.graph|)]),
                          TransferSpec(props, resp, w))
  {
    TransferVisitsCatalogOrder(props, resp, w);
    var w2 := w.(trace := w.trace + [IndexerInfo(props.context.portalApiUrl + IndexerInfoPath, false),
                                     Search(props.context.portalApiUrl + SearchPath, props.portalAuth, |resp.graph|)]);
    LoopEndsOnFailure(props, resp, FilesOf(resp.graph).value, w2, TransferSpec(props, resp, w));
  }

  /** The requests sent between two worlds are ordered; with deletion switched
      off they contain no delete and the source store did not change. */
  predicate OrderedBetween(props: TransferProps, before: World, after: World)
  {
    && before.trace <= after.trace
    && Ordered(after.trace[|before.trace|..])
    && (!props.deleteSourceFiles ==> NoDelete(after.trace[|before.trace|..]) && after.source == before.source)
  }

  /** The loop's requests are ordered. */
  lemma LoopOrdered(props: TransferProps, files: seq<File>, resp: Responses, w: World, n: nat, r: Run)
    requires n <= |files|
    requires r == RunPrefix(props, files, resp, w, n)
    ensures OrderedBetween(props, w, r.world)
  {
    RunTrace(props, files, resp, w, n);
    RunShape(props, files, resp, w, n);
    OpsOrdered(props, r.logs, resp);
    RunEffects(props, files, resp, w, n);
    if !props.deleteSourceFiles {
      NothingDeletedWhenFlagOff(props, r.logs);
    }
    assert r.world.trace[|w.trace|..] == Ops(r.logs);
  }

  lemma NothingOrdered(props: TransferProps, w: World)
    ensures OrderedBetween(props, w, w)
  {
    assert w.trace[|w.trace|..] == [];
  }

  /** Portal reads (indexer probe, search) before ordered requests keep them ordered. */
  lemma ReadsThenOrdered(props: TransferProps, w: World, prelude: seq<Op>, after: World)
    requires forall k :: 0 <= k < |prelude| ==> prelude[k].IndexerInfo? || prelude[k].Search?
    requires OrderedBetween(props, w.(trace := w.trace + prelude), after)
    ensures OrderedBetween(props, w, after)
  {
    var w1 := w.(trace := w.trace + prelude);
    var t := after.trace[|w1.trace|..];
    assert after.trace == w.trace + prelude + t;
    assert after.trace[|w.trace|..] == prelude + t;
    assert Ordered(prelude);
    OrderedAppend(prelude, t);
    if !props.deleteSourceFiles {
      var u := prelude + t;
      forall k | 0 <= k < |u| ensures !u[k].DeleteBlob? {
        if k >= |prelude| { assert u[k] == t[k - |prelude|]; } else { assert u[k] == prelude[k]; }
      }
    }
  }

  /** The request order of the search and the loop (see TransferRequestOrder). */
  lemma FilesRequestOrder(props: TransferProps, resp: Responses, w: World)
    ensures OrderedBetween(props, w, TransferFilesSpec(props, resp, w).world)
  {
    var r := TransferFilesSpec(props, resp, w);
    var search := [Search(props.context.portalApiUrl + SearchPath, props.portalAuth, |resp.graph|)];
    var w1 := w.(trace := w.trace + search);
    if FilesOf(resp.graph).Ok? {
      var files := FilesOf(resp.graph).value;
      LoopOrdered(props, files, resp, w1, |files|, r);
    } else {
      NothingOrdered(props, w1);
    }
    ReadsThenOrdered(props, w, search, r.world);
  }

  /** The request order of every run: each copy right after a positive existence
      check of its source, each patch right after a successful copy, each
      successful copy followed by a patch, each delete right after a successful
      patch that followed a successful copy of the blob being deleted; and with
      deletion switched off, no delete request and an unchanged source store. */
  lemma TransferRequestOrder(props: TransferProps, resp: Responses, w: World)
    ensures OrderedBetween(props, w, TransferSpec(props, resp, w).world)
  {
    var probe := [IndexerInfo(props.context.portalApiUrl + IndexerInfoPath, resp.isIndexing)];
    var w1 := w.(trace := w.trace + probe);
    if resp.isIndexing {
      NothingOrdered(props, w1);
    } else {
      FilesRequestOrder(props, resp, w1);
    }
    ReadsThenOrdered(props, w, probe, TransferSpec(props, resp, w).world);
  }
}
