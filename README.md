# AnVIL file transfer: per-run orchestration

This project models one run of the AnVIL transfer job (`transfer.py`). The job
moves files that the IGVF portal catalog lists as stored in the wrong AnVIL
workspace. It first asks the portal whether it is indexing; if it is, the run
stops and does nothing else. Otherwise it searches the portal for the affected
File records and takes them in catalog order. For each record it:
1. checks that the source blob exists, and skips the record when it does not;
2. asks the destination container for a synchronous server-side copy, which must
   report `success`;
3. patches the record's `upload_status` to `deposited`, which must answer 200;
4. optionally deletes the source blob.

A failed copy, patch or delete ends the run with an error.

The model has four modules:

- `Records`: the `File` record and the projection of the search items onto
  Files (`FilesOf`). It also holds the `url?token` join (`WithSas`) and its
  split back into the blob address a client built from it uses (`BlobUrl`)
  and the token (`SasToken`).
- `Services`: the external services as state. This is the source container and
  the destination container (blob URL to content), the catalog (file id to
  `upload_status`), and a trace of every request with its answer. The state is
  given twice:
  - as a `World` value with one step function per request;
  - as a class `Services` whose methods update those fields and are proved to
    match the step functions.
- `Pipeline`: the job itself, also given twice.
  - Specification functions on `World`: `CopyFileSpec`, `PatchDepositedSpec`,
    `MaybeDeleteSpec`, `ProcessFile` (one loop iteration), `RunPrefix` (the loop
    after it has been offered the first n files), `TransferFilesSpec` and
    `TransferSpec`.
  - Methods on `Services` that mirror the job's functions one to one. The loop
    is a `while` loop whose invariant ties the services' state to `RunPrefix`.
- `Properties`: what the job guarantees, proved about the specification
  functions. Through the methods' postconditions it also holds of the job run
  on the mutable services.

What the outside world answers is an input, `Pipeline.Responses`. That covers
the indexing flag, the search result, and for the file at position i of the
list its copy status, its patch status code, and whether the blob service
accepts its delete. Every request is recorded in the trace with the URL the job
sends. For the blob requests (existence check, copy, delete) that is the record
URL, `?`, then the matching token. The indexer probe, the search and the patch
go to the portal URL and carry no token.

## Model

| member | source | states |
|---|---|---|
| `Records.MissingKey` | transfer.py:119-124 | the key reported for an incomplete item is one of the four requested fields and absent from it, and every field read before it (in the order id, source URL, destination URL, status) is present |
| `Records.FilesOf` | transfer.py:118-126 | the projection succeeds exactly when every item has all four fields; then it has one File per item, in item order, each field copied unchanged; otherwise it fails with the first missing key of the first incomplete item |
| `Records.SplitWithSas` | transfer.py:131-135 | a client built from a record URL without its own query string, joined with `?` and a token, addresses exactly that URL and presents exactly that token |
| `Records.BlobOfWithSas` | transfer.py:142-144 | appending `?` and a token never changes the blob a URL addresses, so the existence check, copy and delete reach the record's own blob |
| `Records.JoinSplit` | transfer.py:153-155 | every URL with a query string is the join of the blob it addresses and its token, and that blob part has no `?` |
| `Services.Services.GetIndexerInfo` | transfer.py:111 | the indexer probe answers the portal's flag, is recorded in the trace, and changes no store and no catalog entry |
| `Services.Services.Search` | transfer.py:115-116 | the search answers the portal's `@graph` items, is recorded with the portal credentials, and changes nothing else |
| `Services.Services.FileExists` | transfer.py:142-144 | the probe answers true exactly when the addressed blob is in the source container, and changes nothing but the trace |
| `Services.Services.StartCopyFromUrl` | transfer.py:131-137 | the copy reports the backend's status; only `success` writes the source blob's content into the addressed destination blob; the source and the catalog are unchanged |
| `Services.Services.PatchRecord` | transfer.py:148 | the patch answers the portal's status code; exactly record `id` becomes the new status, and only when the answer is 200; both containers are unchanged |
| `Services.Services.DeleteFile` | transfer.py:153-155 | the delete succeeds exactly when the blob exists and the service accepts; then exactly that blob leaves the source; otherwise nothing changes |
| `Pipeline.PortalIsIndexing` | transfer.py:110-111 | the services' new state and answer are those of `GET <portal>/indexer-info` |
| `Pipeline.GetFilesToTransfer` | transfer.py:114-126 | one search at the fixed search path with the portal credentials, answered by the projection `FilesOf` of its items |
| `Pipeline.CopyFileFromSourceToDestination` | transfer.py:129-139 | the copy targets destination URL + destination token from source URL + source token; a status other than `success` is an error carrying the file id and that status |
| `Pipeline.PatchUploadStatusDeposited` | transfer.py:147-150 | the patch goes to the portal URL followed by the file id, sets `deposited`, and any code but 200 is an error carrying the file id and code |
| `Pipeline.MaybeDeleteSourceFile` | transfer.py:158-163 | with deletion switched off nothing is sent and nothing changes; with it on, the source URL + source token is deleted, and a refusal is an error |
| `Pipeline.TransferEach` | transfer.py:168-174 | the loop over the files leaves the services in the state of, and ends with the outcome of, the specification `RunPrefix` over all files |
| `Pipeline.TransferFiles` | transfer.py:166-174 | the search, then either the projection's error or the loop, as `TransferFilesSpec` says |
| `Pipeline.Transfer` | transfer.py:177-183 | the gate, then (when not indexing) the search and the loop, as `TransferSpec` says |
| `Pipeline.StoppedIsFinal` | transfer.py:172-174 | once a file has failed, offering the loop more files changes neither its state nor its logs |
| `Pipeline.RunPrefixStep` | transfer.py:168-174 | one more iteration from a loop that has not stopped yields that iteration's world, and stops the loop exactly when the file failed |
| `Properties.ProcessFileEffects` | transfer.py:168-174 | one file sends one of six exact request sequences (skip; copy refused; patch refused; transferred without delete; transferred with delete; delete refused). It is skipped exactly when its source blob is absent. The source loses that blob only when the file is transferred with deletion on. The catalog changes only by this file becoming `deposited` after a 200. The destination changes only by receiving this source blob after a successful copy |
| `Properties.RunStep` | transfer.py:168-174 | an iteration of a loop that has not stopped appends one allowed log for the next file, extends the trace by its requests, and has the effects of `ProcessFileEffects` on the stores and the catalog |
| `Properties.RunLength` | transfer.py:168 | the loop offered n files has at most n logs, and exactly n when it has not stopped |
| `Properties.RunLogsGrow` | transfer.py:168 | later iterations only append to the logs of earlier ones |
| `Properties.RunLogAt` | transfer.py:168-174 | the j-th log belongs to the j-th file, is allowed, and every earlier file ended without failure |
| `Properties.RunShape` | transfer.py:168-174 | the loop visits the files in list order, sends only allowed request sequences, continues past skipped and transferred files, and stops right after the first failing file |
| `Properties.RunTrace` | transfer.py:168-174 | the loop's outcome is the last log's error if it failed and completed otherwise, and the trace is the requests of the visited files, one file after another |
| `Properties.RunEffects` | transfer.py:168-174 | after the loop the source has lost exactly the deleted blobs, the catalog has gained `deposited` for exactly the files whose patch answered 200 (no other record changed), and the destination has gained exactly the copied blobs (no other blob changed) |
| `Properties.SkippedExactlyWhenMissing` | transfer.py:169-171 | a file is skipped exactly when its source blob was missing at the start of the run or deleted for an earlier file |
| `Properties.SourceKeptWhenFlagOff` | transfer.py:159-161 | with deletion switched off the loop leaves the source container exactly as it was |
| `Properties.AllowedOrdered` | transfer.py:169-174 | the requests of any allowed file log are ordered (see `TransferRequestOrder`), and contain no delete with deletion switched off |
| `Properties.OpsOrdered` | transfer.py:168-174 | the requests of a sequence of allowed file logs are ordered, and contain no delete with deletion switched off |
| `Properties.IndexingGate` | transfer.py:177-180 | while the portal is indexing the run is deferred: the indexer probe is its only request, and no store and no catalog record changes |
| `Properties.LoopVisits` | transfer.py:168-174 | the loop over all files visits a prefix of them in order, each log allowed, completing exactly when every file was handled without failure, and aborting with the last file's error otherwise |
| `Properties.TransferVisitsCatalogOrder` | transfer.py:166-174 | when not indexing, the run sends the probe and one search; an incomplete search result aborts with the missing field and nothing more; otherwise the loop visits the projected files as `LoopVisits` says |
| `Properties.LoopEndsOnFailure` | transfer.py:172-174 | an aborted loop ended on its last file, whose requests end the trace. A copy failure carries that file's id and was followed by no patch or delete. A patch failure carries the id and the code the patch was answered with and was followed by no delete. A delete failure names the source URL with its token |
| `Properties.FailureEndsRun` | transfer.py:129-174 | for a whole run that aborts after a complete search, what `LoopEndsOnFailure` says holds after the probe and the search |
| `Properties.LoopOrdered` | transfer.py:168-174 | the loop's requests are ordered; with deletion off they contain no delete and the source container is unchanged |
| `Properties.FilesRequestOrder` | transfer.py:166-174 | the search followed by the loop sends ordered requests |
| `Properties.TransferRequestOrder` | transfer.py:177-183 | in every run, each copy comes right after a positive existence check of its source, and each patch right after a successful copy. Each successful copy is followed at once by a patch to `deposited`. Each delete comes right after a patch answered 200, which followed a successful copy from the blob being deleted. With deletion off there is no delete request and the source container is unchanged |

## Left out

- Session and token setup (transfer.py:71-107): the Google service account session, the Terra SAS token requests and their expiry. The two tokens are plain strings in `TransferProps`, already obtained. The fields `google_service_account_credentials`, `terra_api_url` and `session` are not modelled.
- The `ENVIRONMENT` table (transfer.py:53-68): the `Context` is a parameter.
- Argument parsing and the start-up block (transfer.py:186-207).
- Progress printing, including the message at transfer.py:162 that is not an f-string: it has no effect on behaviour.
- HTTP and Azure semantics: every answer is an input in `Responses`. Not modelled:
  - JSON decoding errors, such as a missing `is_indexing` or `@graph` key;
  - connection failures;
  - exceptions raised by the storage client for the existence check or the copy.
- A token that was never set would appear as the text `None` in the URL. This is not modelled: the tokens are always strings.
- `Services.Services.FileExists`, `Services.Services.StartCopyFromUrl`, `Services.Services.DeleteFile`: the blob a URL addresses is modelled as the URL's text before its first `?`. The storage client's own parsing (account, container, blob name, percent-encoding) is not modelled.
- `Services.Services.StartCopyFromUrl`: a copy status other than `success` leaves the destination unchanged. Partial or pending copies are not modelled; the job requests a synchronous copy.
- `Pipeline.PatchUploadStatusDeposited`: the error carries the file id and the status code, not the response body the source prints.
- `Pipeline.CopyFileFromSourceToDestination`: the error carries the file id and the copy status, not the whole response.
- The record's own `upload_status` is read by the projection and carried in `File`, but the loop never consults it, as in the source.
