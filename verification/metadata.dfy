/** The entities the metadata fixer works on: the current metadata of one stored
    object, the command-line flags of a run, and the keyword arguments of the
    in-place copy call that rewrites an object's metadata. */
module Metadata {
  import opened Wrappers

  /** Current metadata of one listed object. Every field may be unset; the user
      metadata is a string-to-string map. */
  datatype ObjectMeta = ObjectMeta(
    key: string,
    cacheControl: Option<string>,
    contentDisposition: Option<string>,
    contentEncoding: Option<string>,
    contentLanguage: Option<string>,
    contentType: Option<string>,
    metadata: Option<map<string, string>>
  )

  /** The options of one run: `--update-content-type`, `--update-cache-control`,
      `--dry-run` and `--debug`. An omitted `--update-cache-control` is None. */
  datatype Flags = Flags(
    updateContentType: bool,
    updateCacheControl: Option<string>,
    dryRun: bool,
    debug: bool
  )

  /** The `CopySource` argument: the bucket and key copied from. */
  datatype CopySource = CopySource(bucket: string, key: string)

  /** The keyword arguments of one metadata-replacing copy of an object onto
      itself. A None field is a keyword that is not passed at all. */
  datatype CopyRequest = CopyRequest(
    copySource: CopySource,
    metadataDirective: string,
    cacheControl: Option<string>,
    contentDisposition: Option<string>,
    contentEncoding: Option<string>,
    contentLanguage: Option<string>,
    contentType: Option<string>,
    metadata: Option<map<string, string>>
  )

  /** The MIME-type guesser: maps a key to a (type, encoding) pair, either of
      which may be missing. The extension table behind it is not modelled. */
  type Guesser = string -> (Option<string>, Option<string>)

  /** Content-Type used when the guesser finds no type. */
  const UnknownMimeType: string := "application/octet-stream"

  /** The metadata directive that makes a copy replace the stored metadata. */
  const Replace: string := "REPLACE"

  /** Python truthiness of an optional string: set and non-empty. */
  predicate Truthy(s: Option<string>) {
    s.Some? && s.value != ""
  }

  /** Python truthiness of an optional map: set and non-empty. */
  predicate TruthyMap(m: Option<map<string, string>>) {
    m.Some? && |m.value| > 0
  }

  /** `dst` is what `if src: new[k] = src` leaves under `k` in a fresh
      dictionary: present exactly when `src` is truthy, and then equal to it. */
  predicate CopiedIfTruthy(src: Option<string>, dst: Option<string>) {
    (dst.Some? <==> Truthy(src)) && (dst.Some? ==> dst == src)
  }

  /** The same for the user metadata map. */
  predicate CopiedIfNonEmpty(src: Option<map<string, string>>, dst: Option<map<string, string>>) {
    (dst.Some? <==> TruthyMap(src)) && (dst.Some? ==> dst == src)
  }

  /** The names of the keyword arguments a request passes to the copy call. */
  function ArgumentNames(r: CopyRequest): set<string> {
    {"CopySource", "MetadataDirective"}
    + (if r.cacheControl.Some? then {"CacheControl"} else {})
    + (if r.contentDisposition.Some? then {"ContentDisposition"} else {})
    + (if r.contentEncoding.Some? then {"ContentEncoding"} else {})
    + (if r.contentLanguage.Some? then {"ContentLanguage"} else {})
    + (if r.contentType.Some? then {"ContentType"} else {})
    + (if r.metadata.Some? then {"Metadata"} else {})
  }

  /** The names of the metadata fields an object carries with a truthy value. */
  function TruthyFieldNames(o: ObjectMeta): set<string> {
    (if Truthy(o.cacheControl) then {"CacheControl"} else {})
    + (if Truthy(o.contentDisposition) then {"ContentDisposition"} else {})
    + (if Truthy(o.contentEncoding) then {"ContentEncoding"} else {})
    + (if Truthy(o.contentLanguage) then {"ContentLanguage"} else {})
    + (if Truthy(o.contentType) then {"ContentType"} else {})
    + (if TruthyMap(o.metadata) then {"Metadata"} else {})
  }

  /** An idealised model of the metadata an object holds after a copy with the
      REPLACE directive: exactly the fields the request passes, and nothing
      else. The real service may add defaults (a Content-Type, for one). */
  function AfterCopy(o: ObjectMeta, r: CopyRequest): ObjectMeta
    requires r.copySource.key == o.key && r.metadataDirective == Replace
  {
    ObjectMeta(o.key, r.cacheControl, r.contentDisposition, r.contentEncoding,
               r.contentLanguage, r.contentType, r.metadata)
  }
}
