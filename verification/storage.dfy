/** The object storage service: public URLs, object keys and uploads into the
    photos and documents buckets. The MinIO server is represented by the set
    of (bucket, key) pairs it holds. */
module Storage {
  import opened Common
  import opened Text
  import opened QueryParams

  /** The port as it appears in a URL: the number `parseInt` reads from
      MINIO_PORT ("9000" by default), or "NaN" when it reads none. */
  function PortText(config: map<string, string>): (t: string)
    ensures ParseInt(ConfigGet(config, "MINIO_PORT", "9000")).None? ==> t == "NaN"
    ensures ParseInt(ConfigGet(config, "MINIO_PORT", "9000")).Some? ==> '/' !in t
  {
    match ParseInt(ConfigGet(config, "MINIO_PORT", "9000"))
    case None => "NaN"
    case Some(n) => IntToString(n)
  }

  function Protocol(config: map<string, string>): (p: string)
    ensures p == "https" <==> ConfigGet(config, "MINIO_USE_SSL", "false") == "true"
    ensures p == "https" || p == "http"
  {
    if ConfigGet(config, "MINIO_USE_SSL", "false") == "true" then "https" else "http"
  }

  /** `<prefix>/<bucket>/<key>`, the prefix being `UrlPrefix` of the
      configuration. */
  function GetPublicUrl(prefix: string, bucket: string, key: string): (url: string)
    ensures prefix < url && url[|prefix|] == '/'
    ensures |url| == |prefix| + |bucket| + |key| + 2
  {
    prefix + "/" + bucket + "/" + key
  }

  /** A public URL ends with '/' and the key. */
  lemma PublicUrlEndsWithKey(prefix: string, bucket: string, key: string)
    ensures var url := GetPublicUrl(prefix, bucket, key);
      |url| > |key| + |bucket| + 1 && url[|url| - |key|..] == key && url[|url| - |key| - 1] == '/'
  {
    var url := GetPublicUrl(prefix, bucket, key);
    assert url == (prefix + "/" + bucket) + ("/" + key);
  }

  /** `<protocol>://<endpoint>:<port>`. */
  function UrlPrefix(config: map<string, string>): string
  {
    Protocol(config) + "://" + ConfigGet(config, "MINIO_ENDPOINT", "localhost") + ":" + PortText(config)
  }

  /** Photo deletion reads a URL back as its last two '/'-separated pieces;
      for a bucket and key without '/', those are the bucket and key the URL
      was built from. */
  lemma {:induction false} UrlRoundTrip(prefix: string, bucket: string, key: string)
    requires '/' !in bucket && '/' !in key
    ensures var parts := Split(GetPublicUrl(prefix, bucket, key), '/');
      |parts| >= 2 && parts[|parts| - 2] == bucket && parts[|parts| - 1] == key
  {
    SplitAppend(prefix, '/', bucket);
    SplitAppend(prefix + "/" + bucket, '/', key);
  }

  /** `originalName.split('.').pop() || ''`. */
  function Extension(originalName: string): string
  {
    var piece := Last(Split(originalName, '.'));
    if piece == "" then "" else piece
  }

  /** The extension is the text after the last '.' of the name: a suffix
      without '.', preceded by a '.' unless it is the whole name. */
  lemma ExtensionIsAfterLastDot(originalName: string)
    ensures var ext := Extension(originalName);
      ext == AfterLast(originalName, '.') &&
      '.' !in ext &&
      |ext| <= |originalName| && originalName[|originalName| - |ext|..] == ext &&
      ('.' !in originalName ==> ext == originalName) &&
      (|ext| < |originalName| ==> originalName[|originalName| - |ext| - 1] == '.')
  {
    LastPieceIsAfterLast(originalName, '.');
  }

  /** The object key `<uuid>.<ext>`; its own extension is the original
      name's extension. */
  function ObjectKey(uuid: string, originalName: string): string
  {
    uuid + "." + Extension(originalName)
  }

  /** The key starts with the uuid and a '.', and its own extension is the
      original name's. */
  lemma ObjectKeyExtension(uuid: string, originalName: string)
    requires '.' !in uuid
    ensures var key := ObjectKey(uuid, originalName);
      uuid < key && key[|uuid|] == '.' && Extension(key) == Extension(originalName)
  {
    var ext := Extension(originalName);
    var key := uuid + "." + ext;
    ExtensionIsAfterLastDot(originalName);
    LastPieceIsAfterLast(key, '.');
    SplitAppend(uuid, '.', ext);
  }

  function PhotosBucket(config: map<string, string>): string
  {
    ConfigGet(config, "MINIO_BUCKET_PHOTOS", "flowgrid-photos")
  }

  function DocumentsBucket(config: map<string, string>): string
  {
    ConfigGet(config, "MINIO_BUCKET_DOCUMENTS", "flowgrid-documents")
  }

  datatype UploadResult = UploadResult(url: string, key: string, bucket: string)

  class ObjectStore {
    const config: map<string, string>
    /** What the configuration gives for the URL prefix and the two
        buckets; it does not change while the service runs. */
    const urlPrefix: string
    const photosBucket: string
    const documentsBucket: string
    /** The (bucket, key) pairs stored on the server. */
    var objects: set<(string, string)>

    constructor (config: map<string, string>)
      ensures this.config == config && objects == {}
      ensures urlPrefix == UrlPrefix(config)
      ensures photosBucket == PhotosBucket(config) && documentsBucket == DocumentsBucket(config)
    {
      this.config := config;
      urlPrefix := UrlPrefix(config);
      photosBucket := PhotosBucket(config);
      documentsBucket := DocumentsBucket(config);
      objects := {};
    }

    /** Stores an object under a fresh key; `uuid` is the random part. */
    method Upload(bucket: string, uuid: string, originalName: string) returns (r: UploadResult)
      modifies this`objects
      ensures r.bucket == bucket && r.key == ObjectKey(uuid, originalName)
      ensures r.url == GetPublicUrl(urlPrefix, bucket, r.key)
      ensures objects == old(objects) + {(bucket, r.key)}
    {
      var key := ObjectKey(uuid, originalName);
      objects := objects + {(bucket, key)};
      r := UploadResult(GetPublicUrl(urlPrefix, bucket, key), key, bucket);
    }

    method UploadPhoto(uuid: string, originalName: string) returns (r: UploadResult)
      modifies this`objects
      ensures r.bucket == photosBucket && r.key == ObjectKey(uuid, originalName)
      ensures r.url == GetPublicUrl(urlPrefix, r.bucket, r.key)
      ensures objects == old(objects) + {(r.bucket, r.key)}
    {
      r := Upload(photosBucket, uuid, originalName);
    }

    method UploadDocument(uuid: string, originalName: string) returns (r: UploadResult)
      modifies this`objects
      ensures r.bucket == documentsBucket && r.key == ObjectKey(uuid, originalName)
      ensures r.url == GetPublicUrl(urlPrefix, r.bucket, r.key)
      ensures objects == old(objects) + {(r.bucket, r.key)}
    {
      r := Upload(documentsBucket, uuid, originalName);
    }

    method DeleteFile(bucket: string, key: string)
      modifies this`objects
      ensures objects == old(objects) - {(bucket, key)}
    {
      objects := objects - {(bucket, key)};
    }
  }
}
