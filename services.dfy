/** The external services the transfer job talks to — the portal's indexer probe,
    search and patch endpoints, and the source and destination blob containers —
    as in-memory state. Every call appends one entry to a trace that records which
    request was sent (by its full URL) and what the service answered. Answers that
    depend on the outside world (the indexing flag, the search result, a copy's
    status, a patch's HTTP status code) are supplied by the caller. */
module Services {
  import opened Records

  type Bytes = seq<bv8>

  /** The basic-auth key pair the portal requests carry. */
  datatype Auth = Auth(key: string, secret: string)

  datatype Op =
    | IndexerInfo(url: string, isIndexing: bool)
    | Search(url: string, auth: Auth, count: nat)
    | BlobExists(url: string, found: bool)
    | StartCopy(destination: string, source: string, copyStatus: string)
    | Patch(url: string, auth: Auth, uploadStatus: string, statusCode: int)
    | DeleteBlob(url: string, deleted: bool)

  /** The source container, the destination container (blob URL to content),
      the catalog (file id to upload_status) and the trace of requests so far. */
  datatype World = World(
    source: map<string, Bytes>,
    destination: map<string, Bytes>,
    catalog: map<string, string>,
    trace: seq<Op>)

  const CopySuccess := "success"
  const Deposited := "deposited"
  const HttpOk := 200

  function IndexerInfoStep(w: World, url: string, answer: bool): (bool, World)
  {
    (answer, w.(trace := w.trace + [IndexerInfo(url, answer)]))
  }

  function SearchStep(w: World, url: string, auth: Auth, graph: seq<Item>): (seq<Item>, World)
  {
    (graph, w.(trace := w.trace + [Search(url, auth, |graph|)]))
  }

  /** The existence probe of blob `blob`, sent as `url`. */
  function ExistsStep(w: World, blob: string, url: string): (bool, World)
  {
    var found := blob in w.source;
    (found, w.(trace := w.trace + [BlobExists(url, found)]))
  }

  /** A synchronous server-side copy from blob `s` into blob `d`, sent as the
      URLs `destination` and `source`; the copy's status is the backend's answer,
      and only "success" writes the blob. */
  function CopyStep(w: World, d: string, s: string, destination: string, source: string, status: string): (string, World)
  {
    var target := if status == CopySuccess && s in w.source then w.destination[d := w.source[s]] else w.destination;
    (status, w.(destination := target, trace := w.trace + [StartCopy(destination, source, status)]))
  }

  /** A PATCH of one record's upload_status; only an answer of 200 changes the catalog. */
  function PatchStep(w: World, apiUrl: string, id: string, auth: Auth, uploadStatus: string, code: int): (int, World)
  {
    var catalog := if code == HttpOk then w.catalog[id := uploadStatus] else w.catalog;
    (code, w.(catalog := catalog, trace := w.trace + [Patch(apiUrl + id, auth, uploadStatus, code)]))
  }

  /** Deleting blob `b`, sent as `url`, succeeds when it is there and the
      service accepts the request; otherwise it fails and changes nothing. */
  function DeleteStep(w: World, b: string, url: string, accepted: bool): (bool, World)
  {
    if b in w.source && accepted then (true, w.(source := w.source - {b}, trace := w.trace + [DeleteBlob(url, true)]))
    else (false, w.(trace := w.trace + [DeleteBlob(url, false)]))
  }

  /** The services as mutable state: the blob clients and HTTP calls of the job. */
  class Services {
    var source: map<string, Bytes>
    var destination: map<string, Bytes>
    var catalog: map<string, string>
    var trace: seq<Op>

    function State(): World
      reads this
    {
      World(source, destination, catalog, trace)
    }

    constructor (source: map<string, Bytes>, destination: map<string, Bytes>, catalog: map<string, string>)
      ensures State() == World(source, destination, catalog, [])
    {
      this.source := source;
      this.destination := destination;
      this.catalog := catalog;
      this.trace := [];
    }

    /** GET of the portal's indexer status. */
    method GetIndexerInfo(url: string, answer: bool) returns (isIndexing: bool)
      modifies this
      ensures isIndexing == answer
      ensures State() == old(State()).(trace := old(trace) + [IndexerInfo(url, answer)])
      ensures (isIndexing, State()) == IndexerInfoStep(old(State()), url, answer)
    {
      isIndexing := answer;
      trace := trace + [IndexerInfo(url, answer)];
    }

    /** GET of the portal's search endpoint, answering with the "@graph" items. */
    method Search(url: string, auth: Auth, graph: seq<Item>) returns (items: seq<Item>)
      modifies this
      ensures items == graph
      ensures State() == old(State()).(trace := old(trace) + [Op.Search(url, auth, |graph|)])
      ensures (items, State()) == SearchStep(old(State()), url, auth, graph)
    {
      items := graph;
      trace := trace + [Op.Search(url, auth, |graph|)];
    }

    /** The existence probe of the blob a URL-with-token addresses. */
    method FileExists(urlWithSas: string) returns (found: bool)
      modifies this
      ensures found <==> BlobUrl(urlWithSas) in source
      ensures State() == old(State()).(trace := old(trace) + [BlobExists(urlWithSas, found)])
      ensures (found, State()) == ExistsStep(old(State()), BlobUrl(urlWithSas), urlWithSas)
    {
      found := BlobUrl(urlWithSas) in source;
      trace := trace + [BlobExists(urlWithSas, found)];
    }

    /** The destination blob's synchronous copy from a source URL-with-token. */
    method StartCopyFromUrl(destinationWithSas: string, sourceWithSas: string, status: string) returns (copyStatus: string)
      modifies this
      ensures copyStatus == status
      ensures source == old(source) && catalog == old(catalog)
      ensures destination == if status == CopySuccess && BlobUrl(sourceWithSas) in source
                             then old(destination)[BlobUrl(destinationWithSas) := source[BlobUrl(sourceWithSas)]]
                             else old(destination)
      ensures trace == old(trace) + [StartCopy(destinationWithSas, sourceWithSas, status)]
      ensures (copyStatus, State()) == CopyStep(old(State()), BlobUrl(destinationWithSas), BlobUrl(sourceWithSas), destinationWithSas, sourceWithSas, status)
    {
      copyStatus := status;
      var d, s := BlobUrl(destinationWithSas), BlobUrl(sourceWithSas);
      if status == CopySuccess && s in source {
        destination := destination[d := source[s]];
      }
      trace := trace + [StartCopy(destinationWithSas, sourceWithSas, status)];
    }

    /** PATCH of record `id` under the portal at `apiUrl`, answered with `code`. */
    method PatchRecord(apiUrl: string, id: string, auth: Auth, uploadStatus: string, code: int) returns (statusCode: int)
      modifies this
      ensures statusCode == code
      ensures source == old(source) && destination == old(destination)
      ensures catalog == if code == HttpOk then old(catalog)[id := uploadStatus] else old(catalog)
      ensures trace == old(trace) + [Patch(apiUrl + id, auth, uploadStatus, code)]
      ensures (statusCode, State()) == PatchStep(old(State()), apiUrl, id, auth, uploadStatus, code)
    {
      statusCode := code;
      if code == HttpOk {
        catalog := catalog[id := uploadStatus];
      }
      trace := trace + [Patch(apiUrl + id, auth, uploadStatus, code)];
    }

    /** Deletion of the blob a URL-with-token addresses; false when it is absent
        or the service refuses. */
    method DeleteFile(urlWithSas: string, accepted: bool) returns (deleted: bool)
      modifies this
      ensures deleted <==> BlobUrl(urlWithSas) in old(source) && accepted
      ensures source == if deleted then old(source) - {BlobUrl(urlWithSas)} else old(source)
      ensures destination == old(destination) && catalog == old(catalog)
      ensures trace == old(trace) + [DeleteBlob(urlWithSas, deleted)]
      ensures (deleted, State()) == DeleteStep(old(State()), BlobUrl(urlWithSas), urlWithSas, accepted)
    {
      var b := BlobUrl(urlWithSas);
      deleted := b in source && accepted;
      if deleted {
        source := source - {b};
      }
      trace := trace + [DeleteBlob(urlWithSas, deleted)];
    }
  }
}
