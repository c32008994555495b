# s3-metadata-fixer: the metadata merge, in Dafny

The tool walks every object under a prefix of an S3 bucket and rewrites its
metadata with a copy of the object onto itself. For each object it builds the
keyword arguments of that copy call:

- the fixed `CopySource` (the run's bucket and the object's own key) and
  `MetadataDirective` `REPLACE`;
- every current metadata field that is truthy in Python's sense: CacheControl,
  ContentDisposition, ContentEncoding, ContentLanguage, ContentType and the user
  Metadata map (an empty string or empty map counts as unset and is dropped);
- a non-empty `--update-cache-control` value in place of CacheControl;
- with `--update-content-type`, the MIME type guessed from the key (or
  `application/octet-stream` when there is no guess) in place of ContentType,
  and the guessed encoding in place of ContentEncoding only when the guess has
  one.

Every listed object is copied, in listing order, unless `--dry-run` is given,
in which case nothing is copied.

Modules:

- `Wrappers` (`wrappers.dfy`): the `Option` datatype.
- `Metadata` (`metadata.dfy`): `ObjectMeta` (an object's current metadata),
  `Flags` (the command-line options), `CopyRequest` (the keyword arguments of
  the copy call), the truthiness predicates, and `AfterCopy`, an idealised
  model of the metadata an object holds once a REPLACE copy has been applied.
- `Request` (`request.dfy`): the per-object merge, `BuildRequest`, built from
  `BaseRequest`, `OverrideCacheControl` and `OverrideContentType`, and the
  lemmas about it.
- `Runner` (`runner.dfy`): the loop over the listing as a fold (`Run`) and as a
  loop (`RunLoop`), and the lemmas about it.

The MIME guesser is a parameter `guess: string -> (Option<string>, Option<string>)`:
its extension table is not part of this model. The listing is an input
sequence and the copy calls are an output sequence.

Details of the code's behaviour:

- The code copies every listed object whenever the run is not a dry run
  (project/cli.py:65), even when the request would leave the metadata as it
  is: nothing compares the request with the current metadata. `Runner.EveryObjectCopied` states this.
- `--update-cache-control` overrides CacheControl only when its value is
  truthy (project/cli.py:55), so an empty value leaves the current
  CacheControl in place.
- The guess is tested against `None`, not for truthiness (project/cli.py:35,
  59): a guessed empty type or encoding would be passed on as it is.

## Model

| member | source | states |
|---|---|---|
| Request.MimeOrUnknown | project/cli.py:34-36 | The Content-Type used is the guessed type when there is one and `application/octet-stream` when the guess has none (a guess may itself be that type). |
| Request.KeepIfTruthy | project/cli.py:41-50 | A current string field is passed exactly when it is set and non-empty, and then unchanged. |
| Request.KeepIfNonEmpty | project/cli.py:51-52 | The user metadata map is passed exactly when it is set and non-empty, and then unchanged. |
| Request.BaseRequest | project/cli.py:38-52 | Before any override the request names the run's bucket and the object's key, uses REPLACE, and carries each of the six fields exactly when the object's value is truthy, with that value. |
| Request.OverrideCacheControl | project/cli.py:55-56 | A truthy flag value becomes CacheControl; an unset or empty one leaves the request as it was; no other field changes. |
| Request.OverrideContentType | project/cli.py:57-60 | Without the flag nothing changes; with it ContentType becomes the guessed-or-unknown type, ContentEncoding becomes the guessed encoding when there is one and is kept otherwise; no other field changes. |
| Request.BuildRequest | project/cli.py:34-60 | The full per-object request, field by field: fixed CopySource and REPLACE, untouched fields copied if truthy, CacheControl from a truthy flag or else copied, ContentType from the guess under the flag or else copied, ContentEncoding from a guessed encoding under the flag or else copied. |
| Request.NoFlagsCopiesTruthyFields | project/cli.py:38-52 | With neither override the request is the base copy, and its keyword names are exactly CopySource, MetadataDirective and the names of the object's truthy fields. |
| Request.FalsyFieldsAreDropped | project/cli.py:41-52 | A field that is unset, an empty string or an empty map is absent from the request unless an override sets it. |
| Request.CacheControlOverride | project/cli.py:55-56 | A non-empty flag value is the request's CacheControl whatever the current value; an empty flag value leaves the base copy. |
| Request.ContentTypeAlwaysSet | project/cli.py:34-58 | With `--update-content-type`, ContentType is always present: the guessed type, or `application/octet-stream` when the guess has none. |
| Request.EncodingPreserved | project/cli.py:45-60 | With `--update-content-type`, a guess without an encoding keeps the base ContentEncoding (a truthy current value survives), and a guessed encoding replaces it. |
| Request.UntouchedFieldsIgnoreFlags | project/cli.py:43-52 | ContentDisposition, ContentLanguage and Metadata are the same under any flags and any guesser. |
| Request.RebuildIsFixpoint | project/cli.py:38-65 | Rebuilding the request from the metadata a REPLACE copy leaves behind (as `AfterCopy` idealises it), with the same flags and guesser, gives the same request. |
| Runner.Run | project/cli.py:30-65 | A dry run issues no copy; otherwise exactly one copy per listed object, the i-th being the request built for the i-th object. |
| Runner.RunLoop | project/cli.py:30-65 | The loop issues the same calls as the fold: none in a dry run, otherwise one per object in listing order, each naming that object's key. |
| Runner.RunAppend | project/cli.py:30 | Running over two consecutive parts of a listing issues the calls of the first part followed by those of the second. |
| Runner.EveryObjectCopied | project/cli.py:65 | Outside a dry run the i-th issued call copies the i-th listed object onto itself with REPLACE; no object is skipped. |

## Left out

- The S3 client, the bucket listing with its prefix filter, the per-object
  fetch and the copy call itself are network I/O: the listing is an input
  sequence of `ObjectMeta` and the issued calls are an output sequence of
  `CopyRequest` (project/cli.py:28-31, 65).
- The MIME-type guesser's extension table is a standard-library table; it is a
  function parameter here (project/cli.py:34).
- Command-line parsing and help settings (project/cli.py:16-25, 67-68); the
  `debug` flag is recorded in `Flags` but only selects a debug dump.
- Console output: the before and after lines and the debug dump
  (project/cli.py:32, 62, 64). The after line prints an absent CacheControl or
  ContentType as the string `None`.
- The unused bucket-name pattern and the unused `fixer` import
  (project/cli.py:6, 12): nothing validates the bucket name.
- AfterCopy: idealises the REPLACE copy as storing exactly the passed fields
  and nothing else; the real storage service gives an object a default
  Content-Type when none is passed. The source says nothing about what the
  service stores, so `Request.RebuildIsFixpoint` holds relative to this
  idealisation only.
- Errors raised by the copy call are not modelled: the code has no per-object
  recovery, so such an error ends the run.
