/** Building the keyword arguments of the copy call for one object: the base copy
    of its truthy metadata fields, the Cache-Control override and the
    Content-Type/Content-Encoding override. */
module Request {
  import opened Wrappers
  import opened Metadata

  /** The guessed MIME type, or the unknown type when the guess has none. Only
      a missing guess is replaced: a guessed empty string is kept. */
  function MimeOrUnknown(guessed: Option<string>): (mime: string)
    ensures guessed.Some? ==> mime == guessed.value
    ensures guessed.None? ==> mime == UnknownMimeType
  {
    guessed.GetOr(UnknownMimeType)
  }

  /** `if value: new[k] = value` on a key that is not yet in the dictionary. */
  function KeepIfTruthy(value: Option<string>): (kept: Option<string>)
    ensures CopiedIfTruthy(value, kept)
  {
    if value.Some? && value.value != "" then value else None
  }

  /** The same for the user metadata map, whose truthiness is non-emptiness. */
  function KeepIfNonEmpty(value: Option<map<string, string>>): (kept: Option<map<string, string>>)
    ensures CopiedIfNonEmpty(value, kept)
  {
    if value.Some? && value.value != map[] then value else None
  }

  /** The dictionary before any override: the fixed source and directive, and
      every metadata field the object carries with a truthy value. */
  function BaseRequest(bucket: string, o: ObjectMeta): (r: CopyRequest)
    ensures r.copySource == CopySource(bucket, o.key)
    ensures r.metadataDirective == Replace
    ensures CopiedIfTruthy(o.cacheControl, r.cacheControl)
    ensures CopiedIfTruthy(o.contentDisposition, r.contentDisposition)
    ensures CopiedIfTruthy(o.contentEncoding, r.contentEncoding)
    ensures CopiedIfTruthy(o.contentLanguage, r.contentLanguage)
    ensures CopiedIfTruthy(o.contentType, r.contentType)
    ensures CopiedIfNonEmpty(o.metadata, r.metadata)
  {
    CopyRequest(
      CopySource(bucket, o.key),
      Replace,
      KeepIfTruthy(o.cacheControl),
      KeepIfTruthy(o.contentDisposition),
      KeepIfTruthy(o.contentEncoding),
      KeepIfTruthy(o.contentLanguage),
      KeepIfTruthy(o.contentType),
      KeepIfNonEmpty(o.metadata))
  }

  /** The `--update-cache-control` override: a non-empty flag value replaces
      CacheControl; an omitted or empty one leaves the request alone. */
  function OverrideCacheControl(r: CopyRequest, flag: Option<string>): (r': CopyRequest)
    ensures Truthy(flag) ==> r'.cacheControl == flag
    ensures !Truthy(flag) ==> r' == r
    ensures r' == r.(cacheControl := r'.cacheControl)
  {
    if Truthy(flag) then r.(cacheControl := flag) else r
  }

  /** The `--update-content-type` override: ContentType becomes the guessed type
      (or the unknown type), and ContentEncoding is replaced only when the
      guess has an encoding. */
  function OverrideContentType(r: CopyRequest, update: bool, guessed: (Option<string>, Option<string>)): (r': CopyRequest)
    ensures !update ==> r' == r
    ensures update ==> r'.contentType == Some(MimeOrUnknown(guessed.0))
    ensures update && guessed.1.Some? ==> r'.contentEncoding == guessed.1
    ensures guessed.1.None? ==> r'.contentEncoding == r.contentEncoding
    ensures r' == r.(contentType := r'.contentType, contentEncoding := r'.contentEncoding)
  {
    if !update then r
    else
      var typed := r.(contentType := Some(MimeOrUnknown(guessed.0)));
      if guessed.1 != None then typed.(contentEncoding := guessed.1) else typed
  }

  /** The keyword arguments of the copy call `main` issues for one object. */
  function BuildRequest(bucket: string, flags: Flags, guess: Guesser, o: ObjectMeta): (r: CopyRequest)
    // Fixed fields.
    ensures r.copySource == CopySource(bucket, o.key)
    ensures r.metadataDirective == Replace
    // Fields no flag touches.
    ensures CopiedIfTruthy(o.contentDisposition, r.contentDisposition)
    ensures CopiedIfTruthy(o.contentLanguage, r.contentLanguage)
    ensures CopiedIfNonEmpty(o.metadata, r.metadata)
    // Cache-Control.
    ensures Truthy(flags.updateCacheControl) ==> r.cacheControl == flags.updateCacheControl
    ensures !Truthy(flags.updateCacheControl) ==> CopiedIfTruthy(o.cacheControl, r.cacheControl)
    // Content-Type.
    ensures flags.updateContentType ==> r.contentType == Some(MimeOrUnknown(guess(o.key).0))
    ensures !flags.updateContentType ==> CopiedIfTruthy(o.contentType, r.contentType)
    // Content-Encoding.
    ensures flags.updateContentType && guess(o.key).1.Some? ==> r.contentEncoding == guess(o.key).1
    ensures !(flags.updateContentType && guess(o.key).1.Some?) ==> CopiedIfTruthy(o.contentEncoding, r.contentEncoding)
  {
    var guessed := guess(o.key);
    var base := BaseRequest(bucket, o);
    var cached := OverrideCacheControl(base, flags.updateCacheControl);
    OverrideContentType(cached, flags.updateContentType, guessed)
  }

  /** With neither override, the request carries exactly the object's truthy
      fields, unchanged, and no keyword besides CopySource and
      MetadataDirective. */
  lemma NoFlagsCopiesTruthyFields(bucket: string, flags: Flags, guess: Guesser, o: ObjectMeta)
    requires !flags.updateContentType && !Truthy(flags.updateCacheControl)
    ensures BuildRequest(bucket, flags, guess, o) == BaseRequest(bucket, o)
    ensures ArgumentNames(BuildRequest(bucket, flags, guess, o))
         == {"CopySource", "MetadataDirective"} + TruthyFieldNames(o)
  {
  }

  /** A field the object lacks, or holds with an empty value, is absent from the
      request unless an override sets it. */
  lemma FalsyFieldsAreDropped(bucket: string, flags: Flags, guess: Guesser, o: ObjectMeta)
    ensures var r := BuildRequest(bucket, flags, guess, o);
      && (!Truthy(o.contentDisposition) ==> r.contentDisposition == None)
      && (!Truthy(o.contentLanguage) ==> r.contentLanguage == None)
      && (!TruthyMap(o.metadata) ==> r.metadata == None)
      && (!Truthy(o.cacheControl) && !Truthy(flags.updateCacheControl) ==> r.cacheControl == None)
      && (!Truthy(o.contentType) && !flags.updateContentType ==> r.contentType == None)
      && (!Truthy(o.contentEncoding) && !(flags.updateContentType && guess(o.key).1.Some?) ==>
            r.contentEncoding == None)
  {
  }

  /** A non-empty `--update-cache-control` value wins over any current value; an
      empty one leaves the base copy in place. A corollary restating the
      Cache-Control clauses of `BuildRequest`'s contract for these cases. */
  lemma CacheControlOverride(bucket: string, flags: Flags, guess: Guesser, o: ObjectMeta)
    ensures flags.updateCacheControl.Some? && flags.updateCacheControl.value != "" ==>
      BuildRequest(bucket, flags, guess, o).cacheControl == flags.updateCacheControl
    ensures flags.updateCacheControl == Some("") ==>
      BuildRequest(bucket, flags, guess, o).cacheControl == BaseRequest(bucket, o).cacheControl
  {
  }

  /** With `--update-content-type`, ContentType is always passed: the guessed
      type when there is one, the unknown type otherwise. A corollary restating
      the Content-Type clause of `BuildRequest`'s contract for this case. */
  lemma ContentTypeAlwaysSet(bucket: string, flags: Flags, guess: Guesser, o: ObjectMeta)
    requires flags.updateContentType
    ensures BuildRequest(bucket, flags, guess, o).contentType.Some?
    ensures guess(o.key).0.Some? ==>
      BuildRequest(bucket, flags, guess, o).contentType == guess(o.key).0
    ensures guess(o.key).0.None? ==>
      BuildRequest(bucket, flags, guess, o).contentType == Some(UnknownMimeType)
  {
  }

  /** A guess without an encoding never clears an existing ContentEncoding; a
      guess with one replaces it. A corollary restating the Content-Encoding
      clauses of `BuildRequest`'s contract under `--update-content-type`. */
  lemma EncodingPreserved(bucket: string, flags: Flags, guess: Guesser, o: ObjectMeta)
    requires flags.updateContentType
    ensures guess(o.key).1.None? ==>
      BuildRequest(bucket, flags, guess, o).contentEncoding == BaseRequest(bucket, o).contentEncoding
    ensures guess(o.key).1.None? && Truthy(o.contentEncoding) ==>
      BuildRequest(bucket, flags, guess, o).contentEncoding == o.contentEncoding
    ensures guess(o.key).1.Some? ==>
      BuildRequest(bucket, flags, guess, o).contentEncoding == guess(o.key).1
  {
  }

  /** ContentDisposition, ContentLanguage and Metadata do not depend on the
      flags or the guesser: any two runs agree on them. */
  lemma UntouchedFieldsIgnoreFlags(bucket: string, flags: Flags, flags': Flags,
                                   guess: Guesser, guess': Guesser, o: ObjectMeta)
    ensures var r, r' := BuildRequest(bucket, flags, guess, o), BuildRequest(bucket, flags', guess', o);
      && r.contentDisposition == r'.contentDisposition
      && r.contentLanguage == r'.contentLanguage
      && r.metadata == r'.metadata
  {
  }

  /** Applying a request to its object, under the idealised copy of
      `AfterCopy`, and rebuilding with the same flags and guesser yields the
      same request: under that model a second run repeats the first. */
  lemma RebuildIsFixpoint(bucket: string, flags: Flags, guess: Guesser, o: ObjectMeta)
    ensures var r := BuildRequest(bucket, flags, guess, o);
      BuildRequest(bucket, flags, guess, AfterCopy(o, r)) == r
  {
  }
}
