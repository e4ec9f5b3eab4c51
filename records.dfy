/** The records the transfer job reads from the portal's search endpoint, the
    projection that turns search results into File records, and the
    `url?token` join used to authorise every blob operation. */
module Records {

  /** One object of the search response's "@graph": the requested fields, by name. */
  type Item = map<string, string>

  /** One catalog entry under transfer. */
  datatype File = File(id: string, sourceUrl: string, destinationUrl: string, uploadStatus: string)

  /** Everything that aborts a run. */
  datatype Error =
    | MissingField(key: string)                     // a search item lacks a requested field
    | CopyFailed(fileId: string, copyStatus: string) // the server-side copy did not report success
    | PatchFailed(fileId: string, statusCode: int)   // the catalog patch did not answer 200
    | DeleteFailed(url: string)                      // the source blob could not be deleted

  datatype Result<T> = Ok(value: T) | Err(error: Error)

  const IdKey := "@id"
  const SourceUrlKey := "anvil_source_url"
  const DestinationUrlKey := "anvil_destination_url"
  const UploadStatusKey := "upload_status"

  predicate Complete(item: Item)
  {
    IdKey in item && SourceUrlKey in item && DestinationUrlKey in item && UploadStatusKey in item
  }

  /** The key whose lookup fails first when a File is built from an incomplete
      item: the four fields are read in the order id, source, destination, status. */
  function MissingKey(item: Item): (k: string)
    requires !Complete(item)
    ensures k in {IdKey, SourceUrlKey, DestinationUrlKey, UploadStatusKey}
    ensures k !in item
    ensures k == IdKey || IdKey in item
    ensures k == IdKey || k == SourceUrlKey || SourceUrlKey in item
    ensures k in {IdKey, SourceUrlKey, DestinationUrlKey} || DestinationUrlKey in item
  {
    if IdKey !in item then IdKey
    else if SourceUrlKey !in item then SourceUrlKey
    else if DestinationUrlKey !in item then DestinationUrlKey
    else UploadStatusKey
  }

  function ToFile(item: Item): File
    requires Complete(item)
  {
    File(item[IdKey], item[SourceUrlKey], item[DestinationUrlKey], item[UploadStatusKey])
  }

  /** The projection of the search results onto File records: one File per item,
      in the order of the items, each field copied unchanged; the first item
      lacking a field stops the projection with that field's name. */
  function FilesOf(items: seq<Item>): (r: Result<seq<File>>)
    ensures r.Ok? <==> forall i :: 0 <= i < |items| ==> Complete(items[i])
    ensures r.Ok? ==> |r.value| == |items|
    ensures r.Ok? ==> forall i :: 0 <= i < |items| ==>
      && r.value[i].id == items[i][IdKey]
      && r.value[i].sourceUrl == items[i][SourceUrlKey]
      && r.value[i].destinationUrl == items[i][DestinationUrlKey]
      && r.value[i].uploadStatus == items[i][UploadStatusKey]
    ensures r.Err? ==> exists i :: 0 <= i < |items| && FirstIncomplete(items, i) && r.error == MissingField(MissingKey(items[i]))
  {
    if |items| == 0 then Ok([])
    else if !Complete(items[0]) then
      assert FirstIncomplete(items, 0);
      Err(MissingField(MissingKey(items[0])))
    else
      match FilesOf(items[1..])
      case Ok(rest) =>
        assert forall i :: 1 <= i < |items| ==> items[i] == items[1..][i - 1];
        Ok([ToFile(items[0])] + rest)
      case Err(e) =>
        var i :| 0 <= i < |items| - 1 && FirstIncomplete(items[1..], i) && e == MissingField(MissingKey(items[1..][i]));
        assert FirstIncomplete(items, i + 1);
        Err(e)
  }

  /** items[i] is the first item that lacks a field. */
  predicate FirstIncomplete(items: seq<Item>, i: nat)
  {
    && i < |items|
    && !Complete(items[i])
    && forall j :: 0 <= j < i ==> Complete(items[j])
  }

  /** A blob URL with its access token appended as the query string. */
  function WithSas(url: string, token: string): string
  {
    url + "?" + token
  }

  /** The position of the first '?' of u at or after i, or |u| when there is none. */
  function QueryStart(u: string, i: nat): (k: nat)
    requires i <= |u|
    decreases |u| - i
  {
    if i == |u| || u[i] == '?' then i else QueryStart(u, i + 1)
  }

  /** The part of a URL before its first '?': the blob a client built from it addresses. */
  function BlobUrl(u: string): string
  {
    u[..QueryStartBounded(u)]
  }

  /** The part of a URL after its first '?': the access token a client built from it presents. */
  function SasToken(u: string): string
  {
    var k := QueryStartBounded(u);
    if k < |u| then u[k + 1..] else ""
  }

  function QueryStartBounded(u: string): (k: nat)
    ensures k <= |u|
  {
    QueryStartFacts(u, 0);
    QueryStart(u, 0)
  }

  lemma {:induction false} QueryStartFacts(u: string, i: nat)
    requires i <= |u|
    ensures i <= QueryStart(u, i) <= |u|
    ensures forall j :: i <= j < QueryStart(u, i) ==> u[j] != '?'
    ensures QueryStart(u, i) < |u| ==> u[QueryStart(u, i)] == '?'
    decreases |u| - i
  {
    if i < |u| && u[i] != '?' {
      QueryStartFacts(u, i + 1);
    }
  }

  /** A URL with a token appended splits back into that URL and that token. */
  lemma SplitWithSas(url: string, token: string)
    requires '?' !in url
    ensures BlobUrl(WithSas(url, token)) == url
    ensures SasToken(WithSas(url, token)) == token
  {
    var u := WithSas(url, token);
    QueryStartFacts(u, 0);
    var k := QueryStart(u, 0);
    assert u[|url|] == '?';
    assert forall j :: 0 <= j < |url| ==> u[j] == url[j];
    assert k == |url|;
    assert u[..|url|] == url;
    assert u[|url| + 1..] == token;
  }

  /** Appending a token never changes the blob a URL addresses, whether or not
      the URL already has a query string of its own. */
  lemma BlobOfWithSas(url: string, token: string)
    ensures BlobUrl(WithSas(url, token)) == BlobUrl(url)
  {
    var u := WithSas(url, token);
    QueryStartOfWithSas(url, token, 0);
    QueryStartFacts(url, 0);
    var k := QueryStart(url, 0);
    assert forall j :: 0 <= j < k ==> u[..k][j] == url[..k][j];
  }

  lemma {:induction false} QueryStartOfWithSas(url: string, token: string, i: nat)
    requires i <= |url|
    ensures QueryStart(WithSas(url, token), i) == QueryStart(url, i)
    decreases |url| - i
  {
    var u := WithSas(url, token);
    if i == |url| {
      assert u[i] == '?';
    } else {
      assert u[i] == url[i];
      if url[i] != '?' {
        QueryStartOfWithSas(url, token, i + 1);
      }
    }
  }

  /** A URL that has a query string is its blob URL joined with its token. */
  lemma JoinSplit(u: string)
    requires '?' in u
    ensures '?' !in BlobUrl(u)
    ensures WithSas(BlobUrl(u), SasToken(u)) == u
  {
    QueryStartFacts(u, 0);
    var k := QueryStart(u, 0);
    var j :| 0 <= j < |u| && u[j] == '?';
    assert k <= j < |u|;
    assert forall j :: 0 <= j < k ==> u[..k][j] == u[j];
    assert u == u[..k] + "?" + u[k + 1..];
  }
}
