/**
  Audio blob storage (backend/app/services/blob_storage.py): the connection-string parser,
  SAS URL assembly, blob naming, the availability guards of upload, download and delete, and
  the process-wide instance. The remote container is a map from blob name to bytes; the SDK
  calls that sign a URL or read the local file are outcomes passed in.
*/
module BlobStorage {
  import opened Wrappers
  import opened Text
  import opened ServiceBase

  const ContainerName: string := "audio-files"
  const NotAvailable: string := "Blob Storage service not available"
  const Disposition: string := "response-content-disposition=attachment%3B%20filename%3D"

  /** `f"{feedback_id}.mp3"`: the one blob a feedback's audio is stored under. */
  function BlobName(feedbackId: string): (r: string)
    ensures |r| == |feedbackId| + 4 && r[..|feedbackId|] == feedbackId
  {
    feedbackId + ".mp3"
  }

  /** Different feedbacks never share a blob. */
  lemma BlobNameInjective(a: string, b: string)
    requires BlobName(a) == BlobName(b)
    ensures a == b
  {
    assert |a| == |b|;
    assert a == BlobName(a)[..|a|];
  }

  // ---------------------------------------------------------------------------------------
  // Connection string

  /** `item.split('=', 1)` on an item holding `c`: the text before the first `c` and the
      text after it, which may hold further `c`s. */
  function SplitAtFirst(s: string, c: char): (r: (string, string))
    requires c in s
    ensures c !in r.0 && s == r.0 + [c] + r.1
  {
    if s[0] == c then ([], s[1..])
    else
      var rest := SplitAtFirst(s[1..], c);
      assert s == [s[0]] + s[1..];
      ([s[0]] + rest.0, rest.1)
  }

  /** A key free of `c` comes back whole, and so does the value after it, whatever it holds. */
  lemma {:induction false} SplitAtFirstOf(key: string, value: string, c: char)
    requires c !in key
    ensures SplitAtFirst(key + [c] + value, c) == (key, value)
  {
    var s := key + [c] + value;
    if key == [] {
      assert s == [c] + value;
    } else {
      assert s[0] == key[0] && s[1..] == key[1..] + [c] + value;
      SplitAtFirstOf(key[1..], value, c);
      assert [key[0]] + key[1..] == key;
    }
  }

  /** The item sets `key`: it holds '=' and the text before its first '=' is `key`. */
  predicate Defines(item: string, key: string) {
    '=' in item && SplitAtFirst(item, '=').0 == key
  }

  /** The `conn_parts` dictionary after the loop has seen `items`: items without '=' are
      skipped and a later item overwrites an earlier one with the same key. */
  function ConnectionParts(items: seq<string>): map<string, string> {
    if items == [] then map[]
    else
      var parts := ConnectionParts(items[..|items| - 1]);
      var item := items[|items| - 1];
      if '=' in item then
        var kv := SplitAtFirst(item, '=');
        parts[kv.0 := kv.1]
      else parts
  }

  /** A key is parsed exactly when some item defines it. */
  lemma {:induction false} ConnectionPartsKeys(items: seq<string>, key: string)
    ensures key in ConnectionParts(items) <==> exists i :: 0 <= i < |items| && Defines(items[i], key)
  {
    if items != [] {
      var init := items[..|items| - 1];
      ConnectionPartsKeys(init, key);
      if exists i :: 0 <= i < |items| && Defines(items[i], key) {
        var i :| 0 <= i < |items| && Defines(items[i], key);
        if i < |items| - 1 {
          assert init[i] == items[i];
        }
      }
      if exists i :: 0 <= i < |init| && Defines(init[i], key) {
        var i :| 0 <= i < |init| && Defines(init[i], key);
        assert items[i] == init[i];
      }
    }
  }

  /** The value of a key is the value of the last item that defines it. */
  lemma {:induction false} ConnectionPartsLastWins(items: seq<string>, i: nat, key: string)
    requires i < |items| && Defines(items[i], key)
    requires forall j :: i < j < |items| ==> !Defines(items[j], key)
    ensures key in ConnectionParts(items)
    ensures ConnectionParts(items)[key] == SplitAtFirst(items[i], '=').1
  {
    var init := items[..|items| - 1];
    if i < |items| - 1 {
      assert init[i] == items[i];
      forall j | i < j < |init|
        ensures !Defines(init[j], key)
      {
        assert init[j] == items[j];
      }
      ConnectionPartsLastWins(init, i, key);
    }
  }

  /** The connection string written from `pairs`, as `k1=v1;k2=v2;...`. */
  function FormatConnection(pairs: seq<(string, string)>): string {
    Join(Items(pairs), [';'])
  }

  function Items(pairs: seq<(string, string)>): (r: seq<string>)
    ensures |r| == |pairs|
  {
    if pairs == [] then [] else Items(pairs[..|pairs| - 1]) + [Pair(pairs[|pairs| - 1])]
  }

  function Pair(kv: (string, string)): string {
    kv.0 + "=" + kv.1
  }

  /** The dictionary `pairs` describe: later pairs overwrite earlier ones. */
  function PairsMap(pairs: seq<(string, string)>): map<string, string> {
    if pairs == [] then map[] else PairsMap(pairs[..|pairs| - 1])[pairs[|pairs| - 1].0 := pairs[|pairs| - 1].1]
  }

  /** Keys free of '=' and ';' and values free of ';' are what a connection string can carry. */
  predicate Writable(pairs: seq<(string, string)>) {
    forall i :: 0 <= i < |pairs| ==> '=' !in pairs[i].0 && ';' !in pairs[i].0 && ';' !in pairs[i].1
  }

  lemma {:induction false} ItemsParse(pairs: seq<(string, string)>)
    requires Writable(pairs)
    ensures ConnectionParts(Items(pairs)) == PairsMap(pairs)
    ensures forall k :: 0 <= k < |pairs| ==> ';' !in Items(pairs)[k]
  {
    if pairs != [] {
      var init := pairs[..|pairs| - 1];
      var last := pairs[|pairs| - 1];
      assert Writable(init) by {
        forall i | 0 <= i < |init|
          ensures '=' !in init[i].0 && ';' !in init[i].0 && ';' !in init[i].1
        {
          assert init[i] == pairs[i];
        }
      }
      ItemsParse(init);
      var items := Items(pairs);
      assert items[..|items| - 1] == Items(init);
      assert items[|items| - 1] == last.0 + ['='] + last.1;
      SplitAtFirstOf(last.0, last.1, '=');
      forall k | 0 <= k < |pairs|
        ensures ';' !in items[k]
      {
        if k < |pairs| - 1 {
          assert items[k] == Items(init)[k];
        }
      }
    }
  }

  /** Parsing a connection string written from pairs gives back the dictionary they
      describe: values keep any '=' they hold, and a repeated key keeps its last value. */
  lemma ParseFormatted(pairs: seq<(string, string)>)
    requires Writable(pairs)
    ensures ConnectionParts(SplitOn(FormatConnection(pairs), ';')) == PairsMap(pairs)
  {
    ItemsParse(pairs);
    if pairs == [] {
      assert SplitOn(FormatConnection(pairs), ';') == [[]];
      assert ConnectionParts([[]]) == ConnectionParts([]);
    } else {
      SplitJoin(Items(pairs), ';');
    }
  }

  /** `conn_parts.get(key)`, with an absent key read as the empty string: the source treats
      both as "missing". */
  function Lookup(parts: map<string, string>, key: string): string {
    if key in parts then parts[key] else ""
  }

  // ---------------------------------------------------------------------------------------
  // SAS URLs

  /** What `generate_blob_sas` is asked to sign. */
  datatype SasRequest = SasRequest(accountName: string, containerName: string, blobName: string,
                                   accountKey: string, hoursValid: nat)

  /** `generate_sas_url`. `conn` is the connection string (`None` makes `split` raise) and
      `sign` the signer's outcome. Any failure gives the empty string. */
  function SasUrl(conn: Option<string>, container: string, blobName: string, hoursValid: nat,
                  sign: SasRequest -> Outcome<string, string>): (r: string)
    ensures r != [] ==> '?' in r
  {
    if conn.None? then ""
    else
      var parts := ConnectionParts(SplitOn(conn.value, ';'));
      var name := Lookup(parts, "AccountName");
      var key := Lookup(parts, "AccountKey");
      if name == "" || key == "" then ""
      else
        match sign(SasRequest(name, container, blobName, key, hoursValid))
        case Raised(_) => ""
        case Returned(token) =>
          var url := "https://" + name + ".blob.core.windows.net/" + container + "/" + blobName + "?" + token;
          assert url[|url| - |token| - 1] == '?';
          url
  }

  /** The URL is empty exactly when there is no connection string, either credential is
      missing or empty, or signing raises. */
  lemma SasUrlEmpty(conn: Option<string>, container: string, blobName: string, hoursValid: nat,
                    sign: SasRequest -> Outcome<string, string>)
    ensures SasUrl(conn, container, blobName, hoursValid, sign) == "" <==>
              conn.None? ||
              (var parts := ConnectionParts(SplitOn(conn.value, ';'));
               var name := Lookup(parts, "AccountName");
               var key := Lookup(parts, "AccountKey");
               name == "" || key == "" || sign(SasRequest(name, container, blobName, key, hoursValid)).Raised?)
  {
    if conn.Some? {
      var parts := ConnectionParts(SplitOn(conn.value, ';'));
      var name := Lookup(parts, "AccountName");
      var key := Lookup(parts, "AccountKey");
      if name != "" && key != "" {
        match sign(SasRequest(name, container, blobName, key, hoursValid))
        case Raised(_) =>
        case Returned(token) =>
          assert |SasUrl(conn, container, blobName, hoursValid, sign)| > 0;
      }
    }
  }

  /** For a connection string written from pairs, the signed URL names the account given by
      the last AccountName pair and is signed with the last AccountKey. */
  lemma SasUrlFromFormatted(pairs: seq<(string, string)>, container: string, blobName: string, hoursValid: nat,
                            sign: SasRequest -> Outcome<string, string>, token: string)
    requires Writable(pairs)
    requires "AccountName" in PairsMap(pairs) && PairsMap(pairs)["AccountName"] != ""
    requires "AccountKey" in PairsMap(pairs) && PairsMap(pairs)["AccountKey"] != ""
    requires sign(SasRequest(PairsMap(pairs)["AccountName"], container, blobName, PairsMap(pairs)["AccountKey"], hoursValid))
             == Returned(token)
    ensures SasUrl(Some(FormatConnection(pairs)), container, blobName, hoursValid, sign)
            == "https://" + PairsMap(pairs)["AccountName"] + ".blob.core.windows.net/" + container + "/" + blobName + "?" + token
  {
    ParseFormatted(pairs);
  }

  /** `get_audio_url`'s download suffix: added only for a download of a non-empty URL, after
      '&' when the URL already has a query and after '?' otherwise. */
  function WithDisposition(url: string, download: bool, blobName: string): (r: string)
    ensures !download || url == "" ==> r == url
    ensures download && url != "" ==> |r| > |url| && r[..|url|] == url
  {
    if download && url != "" then
      var separator := if '?' in url then "&" else "?";
      url + separator + Disposition + blobName
    else url
  }

  /** A signed URL always has a query, so the download suffix always follows '&'. */
  lemma DispositionFollowsQuery(conn: Option<string>, container: string, blobName: string, hoursValid: nat,
                                sign: SasRequest -> Outcome<string, string>)
    requires SasUrl(conn, container, blobName, hoursValid, sign) != ""
    ensures WithDisposition(SasUrl(conn, container, blobName, hoursValid, sign), true, blobName)
            == SasUrl(conn, container, blobName, hoursValid, sign) + "&" + Disposition + blobName
  {
  }

  // ---------------------------------------------------------------------------------------
  // The service

  /** The data of a successful upload. */
  datatype UploadData = UploadData(blobUrl: string, sasUrl: string, blobName: string, fileSize: nat,
                                   containerName: string)

  /** The response every guarded operation gives when the service is unavailable. */
  function Unavailable<T>(): (r: ServiceResponse<T>)
    ensures !r.success && r.data.None? && r.error == Some(NotAvailable)
  {
    ServiceResponse(false, None, Some(NotAvailable), Some("blob_storage"))
  }

  function Failed<T>(error: string): (r: ServiceResponse<T>)
    ensures !r.success && r.data.None? && r.error == Some(error)
  {
    ServiceResponse(false, None, Some(error), Some("blob_storage"))
  }

  /** The remote container: blob name to content. */
  class BlobContainer {
    var blobs: map<string, seq<bv8>>

    constructor (blobs: map<string, seq<bv8>>)
      ensures this.blobs == blobs
    {
      this.blobs := blobs;
    }
  }

  class BlobStorageService {
    const service: ExternalService
    const connectionString: Option<string>
    const containerName: string
    const remote: BlobContainer

    /** `__init__`: available exactly when the connection string is non-empty and the client
        initialiser answers true. */
    constructor (connectionString: Option<string>, remote: BlobContainer, initializeClient: Check)
      ensures this.connectionString == connectionString && this.remote == remote
      ensures containerName == ContainerName && fresh(service)
      ensures service.isAvailable <==>
                connectionString.Some? && connectionString.value != "" && initializeClient == Answers(true)
    {
      this.connectionString := connectionString;
      this.remote := remote;
      containerName := ContainerName;
      service := new ExternalService("Azure Blob Storage");
      new;
      var valid := connectionString.Some? && connectionString.value != "";
      var initialiserCalled := service.Initialize(Answers(valid), initializeClient);
    }

    /** The loop that fills `conn_parts`. */
    method ParseConnectionString(conn: string) returns (parts: map<string, string>)
      ensures parts == ConnectionParts(SplitOn(conn, ';'))
    {
      var items := SplitOn(conn, ';');
      parts := map[];
      for i := 0 to |items|
        invariant parts == ConnectionParts(items[..i])
      {
        var item := items[i];
        assert items[..i + 1][..i] == items[..i];
        if '=' in item {
          var kv := SplitAtFirst(item, '=');
          parts := parts[kv.0 := kv.1];
        }
      }
      assert items[..|items|] == items;
    }

    /** `generate_sas_url` for a blob of this container. */
    method GenerateSasUrl(blobName: string, hoursValid: nat, sign: SasRequest -> Outcome<string, string>)
      returns (url: string)
      ensures url == SasUrl(connectionString, containerName, blobName, hoursValid, sign)
    {
      if connectionString.None? {
        return "";
      }
      var parts := ParseConnectionString(connectionString.value);
      var name := Lookup(parts, "AccountName");
      var key := Lookup(parts, "AccountKey");
      if name == "" || key == "" {
        return "";
      }
      match sign(SasRequest(name, containerName, blobName, key, hoursValid))
      case Raised(_) =>
        url := "";
      case Returned(token) =>
        url := "https://" + name + ".blob.core.windows.net/" + containerName + "/" + blobName + "?" + token;
    }

    /** `upload_audio_file`. `localFile` is the content read from the local path, or the
        exception opening it raised; `clientUrl` is the URL the SDK reports for the blob. The
        blob `<feedback id>.mp3` is written, replacing any earlier content, and the response
        carries its size and a URL signed for 24 hours. Unavailable, nothing is written. */
    method UploadAudioFile(localFile: Outcome<seq<bv8>, string>, feedbackId: string, clientUrl: string,
                           sign: SasRequest -> Outcome<string, string>)
      returns (r: ServiceResponse<UploadData>)
      modifies remote
      ensures !service.isAvailable ==> r == Unavailable() && remote.blobs == old(remote.blobs)
      ensures service.isAvailable && localFile.Raised? ==>
                r == Failed(localFile.error) && remote.blobs == old(remote.blobs)
      ensures service.isAvailable && localFile.Returned? ==>
                remote.blobs == old(remote.blobs)[BlobName(feedbackId) := localFile.value]
                && r.success && r.serviceUsed == Some("blob_storage")
                && r.data == Some(UploadData(clientUrl,
                                             SasUrl(connectionString, containerName, BlobName(feedbackId), 24, sign),
                                             BlobName(feedbackId), |localFile.value|, containerName))
    {
      if !service.isAvailable {
        return Unavailable();
      }
      var name := BlobName(feedbackId);
      match localFile
      case Raised(e) =>
        r := Failed(e);
      case Returned(content) =>
        remote.blobs := remote.blobs[name := content];
        var size := |remote.blobs[name]|;
        var sasUrl := GenerateSasUrl(name, 24, sign);
        r := ServiceResponse(true, Some(UploadData(clientUrl, sasUrl, name, size, containerName)), None, Some("blob_storage"));
    }

    /** `get_blob_content`: the content of `<feedback id>.mp3`; a missing blob makes the SDK
        raise `notFound`, reported with a prefix. */
    method GetBlobContent(feedbackId: string, notFound: string) returns (r: ServiceResponse<seq<bv8>>)
      ensures !service.isAvailable ==> r == Unavailable()
      ensures service.isAvailable && BlobName(feedbackId) in remote.blobs ==>
                r.success && r.data == Some(remote.blobs[BlobName(feedbackId)])
      ensures service.isAvailable && BlobName(feedbackId) !in remote.blobs ==>
                r == Failed("Failed to retrieve blob content: " + notFound)
    {
      if !service.isAvailable {
        return Unavailable();
      }
      var name := BlobName(feedbackId);
      if name in remote.blobs {
        r := ServiceResponse(true, Some(remote.blobs[name]), None, Some("blob_storage"));
      } else {
        r := Failed("Failed to retrieve blob content: " + notFound);
      }
    }

    /** `delete_audio_file`: removes `<feedback id>.mp3`; a missing blob makes the SDK raise
        `notFound`. Unavailable, nothing is removed. */
    method DeleteAudioFile(feedbackId: string, notFound: string) returns (r: ServiceResponse<string>)
      modifies remote
      ensures !service.isAvailable ==> r == Unavailable() && remote.blobs == old(remote.blobs)
      ensures service.isAvailable && BlobName(feedbackId) in old(remote.blobs) ==>
                r.success && r.data == Some(BlobName(feedbackId))
                && remote.blobs == old(remote.blobs) - {BlobName(feedbackId)}
      ensures service.isAvailable && BlobName(feedbackId) !in old(remote.blobs) ==>
                r == Failed(notFound) && remote.blobs == old(remote.blobs)
    {
      if !service.isAvailable {
        return Unavailable();
      }
      var name := BlobName(feedbackId);
      if name in remote.blobs {
        remote.blobs := remote.blobs - {name};
        r := ServiceResponse(true, Some(name), None, Some("blob_storage"));
      } else {
        r := Failed(notFound);
      }
    }

    /** `get_audio_url`: a URL signed for one hour, with the download suffix when asked for.
        It never answers `None`: every failure inside yields the empty string instead. */
    method GetAudioUrl(feedbackId: string, download: bool, sign: SasRequest -> Outcome<string, string>)
      returns (url: Option<string>)
      ensures url == Some(WithDisposition(SasUrl(connectionString, containerName, BlobName(feedbackId), 1, sign),
                                          download, BlobName(feedbackId)))
    {
      var name := BlobName(feedbackId);
      var sasUrl := GenerateSasUrl(name, 1, sign);
      if download && sasUrl != "" {
        var separator := if '?' in sasUrl then "&" else "?";
        sasUrl := sasUrl + separator + Disposition + name;
      }
      return Some(sasUrl);
    }
  }

  /** The module-level `_blob_singleton` slot behind `get_blob_storage`. */
  class BlobStorageSlot {
    var instance: BlobStorageService?

    constructor ()
      ensures instance == null
    {
      instance := null;
    }

    /** `get_blob_storage`: builds the service on the first call, from the configuration
        given then, and hands back that same instance on every later call. */
    method GetBlobStorage(connectionString: Option<string>, remote: BlobContainer, initializeClient: Check)
      returns (s: BlobStorageService)
      modifies this
      ensures old(instance) != null ==> s == old(instance)
      ensures old(instance) == null ==> fresh(s) && s.connectionString == connectionString && s.remote == remote
      ensures instance == s
    {
      if instance == null {
        instance := new BlobStorageService(connectionString, remote, initializeClient);
      }
      s := instance;
    }
  }
}
