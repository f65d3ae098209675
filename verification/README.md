# CivitAI Collection Downloader — a Dafny model

This project models the decision logic of the CivitAI collection and post
downloader and proves properties of it:

- the file-name utilities of `downloader.py`: the MIME extension table,
  `sanitize_filename`, the directory name chosen by
  `create_download_directory`, and the file name `download_media` builds;
- the retrying download of `download_file`: URL resolution and the retry
  loop with linear backoff, over a function giving the outcome of each
  attempt;
- the tRPC client of `api.py`: the `image.getInfinite` request parameters
  (the first-call `meta` marker and browsing level 31), unwrapping a
  response into a page, and the cursor walk of
  `get_all_images_in_collection` / `get_all_images_in_post`;
- the metadata records: `extract_metadata`, `create_collection_metadata`
  and the post record;
- the orchestration of `main.py`: `process_collection`, `process_post` and
  the exit code of `main`.

Files and modules:

| file | module | contents |
|---|---|---|
| values.dfy | `Values` | JSON values with Python's `.get`, truthiness, `in`, `[]`, `str()` and `int()`; `Outcome` for "returns or raises" |
| paths.dfy | `Paths` | `os.path.splitext`, `os.path.basename`, `os.path.join`, `pathlib` joining and `.stem` |
| filenames.dfy | `FileNames` | `get_file_extension`, `sanitize_filename`, the directory name of `create_download_directory` |
| download.dfy | `Download` | `download_file` and `download_media` |
| api.dfy | `Api` | request construction, response unwrapping, the cursor walk |
| metadata.dfy | `Metadata` | `extract_metadata`, `create_collection_metadata`, the post record |
| orchestrator.dfy | `Orchestrator` | `process_collection`, `process_post`, `main` |

Modelling choices:

- **Exceptions.** A Python exception is the `Raises` case of
  `Outcome<T>`. Error paths are modelled rather than excluded by a
  precondition. Examples: `int()` on a non-numeric identifier, `.get` on a
  value that is not a dict, a non-string title, and the debug line about
  the first item of a collection's first page.
- **Network.** It is an input. A `Server` value holds what the platform
  answers while one collection or post is processed:
  - the parent lookups;
  - a finite sequence of listing responses;
  - the per-image calls, keyed by integer id;
  - the outcome of every download attempt, by item position and attempt
    number.

  Once the listing responses run out, every further page request fails,
  and a failed request yields the error page `{items: [], nextCursor: None}`
  just as a transport error does. This is what makes the cursor walk
  terminate.
- **Side effects.** The file system is the set of existing paths. Every
  directory creation, download and JSON write is recorded as an `Effect`,
  in order. Sleeps are returned as the list of delays.
- **Record building.** The item loop is stated for any record builder
  (`Orchestrator.Extractor`); `main` passes the real one,
  `extract_metadata`. This keeps the loop's contracts independent of how
  a record is built.

## Model

| member | source | states |
|---|---|---|
| `FileNames.GetFileExtension` | downloader.py:23-41 | the fixed table entry for the seven listed types; otherwise the system guess, or the empty extension when there is none |
| `FileNames.FixedExtensions` | downloader.py:26-37 | `image/jpeg` gives `.jpg`, `video/quicktime` gives `.mov`, and so on for all seven types, whatever the system table says |
| `FileNames.Sanitize` | downloader.py:43-58 | the replacement loop followed by the space replacement equals a one-pass scrub of every unsafe character; a result longer than 200 is shortened |
| `FileNames.ReplaceEachIsScrub` | downloader.py:46-51 | replacing the nine invalid characters one after another, then the space, replaces exactly the unsafe characters by `_` and leaves every other character in place |
| `FileNames.SanitizeSafe` | downloader.py:46-51 | none of the nine invalid characters (`InvalidChars`: angle brackets, colon, double quote, both slashes, vertical bar, question mark, asterisk) and no space survives sanitizing |
| `FileNames.SanitizeShort` | downloader.py:47-54 | a name of at most 200 characters keeps its length, and each character is unchanged or is `_` exactly where it was unsafe |
| `FileNames.SanitizeLong` | downloader.py:54-56 | a longer name becomes the first 200 characters of its `splitext` stem plus the whole extension, so its length is at most 200 plus the extension's |
| `FileNames.ShortenKeepsCharacters` | downloader.py:54-56 | shortening never lengthens a name and only keeps characters of the input |
| `FileNames.SanitizeIdempotent` | downloader.py:43-58 | sanitizing twice equals sanitizing once exactly when the name is not a `DotTrap` (the first 200 characters of the stem are all dots) |
| `FileNames.SanitizeNotIdempotentExample` | downloader.py:54-56 | 200 dots followed by `a.png` sanitize to a different name the second time |
| `FileNames.DirectoryName` | downloader.py:78-97 | a dict holding a `collection` key gives `{id}-{sanitized name}` or `{id}`, and raises exactly on a non-dict collection or a non-string truthy name; any other value, a dict without that key included, is used as the identifier and never raises |
| `FileNames.DirectoryNameIsOneComponent` | downloader.py:84-89 | a named collection's directory has no separator when its identifier has none |
| `Paths.SplitExt` | downloader.py:55 | `os.path.splitext`: stem and extension concatenate to the input, and there is an extension exactly when some dot in the last component is preceded there by a non-dot |
| `Paths.SplitExtUnique` | downloader.py:171 | a name whose extension starts at a given dot splits at that dot, so the stem of a `stem + ext` name is recovered |
| `Paths.BasenameOfChild` | downloader.py:111 | the base name of `Path(dir) / file_name` is `file_name`, which is what the resolved URL ends with |
| `Paths.PathStem` | main.py:59 | `.stem` is a prefix of the path's last component; when shorter it ends right before an interior dot after which no dot follows, and it is the whole component exactly when that component has no interior last dot (no dot past the first character, or a trailing dot) |
| `Paths.StemOfChild` | main.py:59-60 | a media file named `{base}{ext}` in a directory, with a one-part extension such as `get_file_extension` gives, has `base` as its stem, so its per-item metadata file is `{base}_metadata.json` |
| `Paths.DownloadRoot` | downloader.py:62-68 | the configured directory when it is set and non-empty, else `~/Pictures/CivitAI` |
| `Download.ResolveUrl` | downloader.py:103-116 | a URL starting with `http` is kept; a relative one without a key gives nothing; with a key it becomes `https://image.civitai.com/{key}/{url}/{basename}` |
| `Download.ResolveUrlIdempotent` | downloader.py:104 | a resolved URL resolves to itself |
| `Download.RetryFrom` | downloader.py:121-156 | at most `max_retries + 1` attempts; success exactly when some attempt completes; the loop stops after the first completed attempt; a failure made every attempt; the delays are `attempt + 1, ...`; the file was opened exactly when an attempt got an answer |
| `Download.RetryFirstSuccess` | downloader.py:121-153 | a first success at zero-based attempt `k` returns True after `k + 1` attempts and delays 1, ..., k |
| `Download.RetryAllFail` | downloader.py:150-156 | failing every attempt returns False after `max_retries + 1` attempts and delays 1, ..., max_retries |
| `Download.RetryIgnoresContentType` | downloader.py:130-133 | the content types never change the verdict, the attempts, the delays or whether the file was opened: a MIME mismatch is only a warning |
| `Download.FailedDownloadMayLeaveFile` | downloader.py:137-139 | an attempt interrupted after `open` leaves the file opened even when the download fails |
| `Download.DownloadFile` | downloader.py:101-156 | no attempt is made exactly for a relative URL without a key; at most `max_retries + 1` attempts; success implies the file was written; otherwise the retry loop on the resolved URL |
| `Download.DownloadWithoutKey` | downloader.py:104-108 | a relative URL without a key fails with zero attempts |
| `Download.DownloadMedia` | downloader.py:158-195 | no URL gives `None` without a download; the path is the sanitized name's stem plus the MIME extension under the directory; an existing path is returned without a download; otherwise `download_file` is called on that path; the raising cases are listed exactly |
| `Download.DownloadMediaDefaults` | downloader.py:160-173 | without `name` and `mimeType` the file is `media-{id}` with the `.jpg` extension |
| `Api.BuildPageRequest` | api.py:55-72 | the `meta` marker is present exactly when the cursor is `None`; the given cursor, browsing level 31 and `authed`; `AllTime`, `Newest` and `cosmetics` exactly for collections |
| `Api.Unwrap` | api.py:83-110 | a failed request, a non-dict level and an unsized `items` give the error page; otherwise `items` (default `[]`) and `nextCursor` (default `None`) of the payload |
| `Api.UnwrapEnvelope` | api.py:95-103 | a page wrapped as the server wraps it unwraps to its own items and cursor |
| `Api.UnwrapDefaults` | api.py:95-96 | a payload without `items` and `nextCursor`, or a body without `result`, reads as an empty page without a cursor |
| `Api.UnwrapData` | api.py:44-53 | a failed request or a non-dict body gives the call's failure value; a body without `result` gives `None`; otherwise, with `{}` for a missing `result` or `data`, a non-dict level gives the failure value and a dict `data` gives its `json` entry, `None` when absent |
| `Api.UnwrapDataEnvelope` | api.py:50 | a wrapped payload unwraps to itself |
| `Api.Answer` | api.py:105-110 | once the responses run out, every further page is the error page |
| `Api.WalkFrom` | api.py:112-148 | request `i` is answered by response `i`; the first request carries the start cursor and each later one the previous page's `nextCursor`; every page but the last continues and the last does not; the result is the pages' items concatenated in order; at most one page more than there are responses |
| `Api.GetAllImages` | api.py:112-148 | raises exactly when the identifier is not an integer or, for a collection, when the first page has items and they are not a list starting with a dict (formatting the debug line about the first item fails); for a post, exactly when the identifier is not an integer; otherwise the walk from cursor `None` |
| `Api.WalkMarksOnlyFirstRequest` | api.py:115-124 | only the first request of a walk carries the `meta` marker, and every request asks for browsing level 31 |
| `Api.WalkVisitsUpToFirstStop` | api.py:125-145 | the walk visits exactly the answers up to the first page without items or cursor; the items are those of the earlier pages, then the stopping page's contribution (nothing for an empty page) |
| `Api.WalkCountsItems` | api.py:138 | the number of images returned is the sum of what the visited pages contribute |
| `Metadata.BasicMetadata` | api.py:325-354 | the ten base fields are copied verbatim; `user` is present exactly when truthy and then holds that dict's `id` and `username`, and a truthy non-dict user raises; `stats` is the item's own value when truthy and null otherwise |
| `Metadata.PromptField` | api.py:364-367 | a prompt is taken exactly when `meta` is truthy and has the key |
| `Metadata.AddGeneration` | api.py:357-372 | truthy generation data is stored; a prompt, negative prompt or models value is only ever taken from the generation data; truthy non-dict generation data always raises and a raise needs a truthy non-dict value; after a raise the models are never set; on dict data that gets through, the models are present exactly when the resources are truthy; every base field is kept |
| `Metadata.TagRefs` | api.py:374-376 | the tags comprehension gets through exactly a list of dicts, giving one `(id, name)` pair per tag, in order |
| `Metadata.Enrich` | api.py:356-379 | the enrichment keeps every base field (`SameBase`: id, name, width, height, MIME type, hash, NSFW level, both dates, url, user and stats); the prompts and models are those of the generation steps; the tags are stored whatever the generation data is, one `(id, name)` per tag object in order, unless a generation step raised or the tags value is not a list of dicts, which leaves them empty |
| `Metadata.ExtractMetadata` | api.py:323-381 | raises exactly on a non-dict image or a truthy non-dict user; every base field is the one `BasicMetadata` copies from the image; a non-numeric id leaves the record without enrichment; for an integer id the generation data, prompts and models are those of the generation call, and a list of tag objects from the tags call is stored pointwise unless a generation step raised, in which case the tags stay empty |
| `Metadata.AddGenerationComplete` | api.py:359-371 | generation data whose `meta` is a dict gets through every step: each prompt exactly when `meta` has it, the models exactly when the resources are truthy |
| `Metadata.EnrichComplete` | api.py:357-376 | on well-formed answers every enrichment step gets through, with the prompts, the models and one tag per tag object |
| `Metadata.ExtractMetadataComplete` | api.py:356-376 | well-formed answers give a fully enriched record: the prompts exactly when `meta` has them, the models exactly when the resources are truthy, and the tags pointwise |
| `Metadata.BadTagsKeepGeneration` | api.py:373-379 | a tags value the comprehension cannot handle leaves `tags` empty but keeps the generation data already set |
| `Metadata.Fallback` | api.py:386-393 | the fallback record has exactly the identifier, the name `Collection-{id}`, and the given media with their count |
| `Metadata.CreateCollectionMetadata` | api.py:383-414 | `media_count` is the number of records and `media` is the given list; the fallback record is returned exactly for a falsy lookup; raises exactly on a non-numeric identifier, a truthy lookup that is not a dict, or a `collection` or `user` value inside it that is not a dict; otherwise `id`, `name` and `description` are the collection's values when present and their defaults when absent, `type`, `nsfw`, `nsfwLevel` and `createdAt` are the collection's values or null, and the user is the `id` and `username` of the collection's user |
| `Metadata.EmptyCollectionLikeFallback` | api.py:396-411 | every `collection` object without `id` and `name` yields the fallback's id, name, count and media, and without `user` a user of `None` fields |
| `Orchestrator.Details` | main.py:46-49 | the details call's answer when it is truthy, and the summary item when it is not; raises exactly when the item is not a dict or its id is not an integer |
| `Orchestrator.ItemRecordIsExtractMetadata` | main.py:49-51 | with the program's own builder, an item's record is `extract_metadata` applied to its details |
| `Orchestrator.RecordsAreItemRecords` | main.py:45-52 | the records are, position by position, each item's own record, and they stop only at an item whose record raises |
| `Orchestrator.AfterDownload` | main.py:55-61 | a returned path gets its `{stem}_metadata.json` exactly when metadata is not skipped; the path returned is the one `download_media` returned; the file system only grows |
| `Orchestrator.ItemMedia` | main.py:49-55 | `download_media` on the item details when they are a dict, a raise when they cannot be had; a path returned as existing is in the file system; a successful fetch opened its file |
| `Orchestrator.Step` | main.py:45-61 | an iteration raises exactly when the record cannot be built or, outside a dry run, `download_media` raises; its record is the item's own; a dry run downloads and writes nothing; otherwise it continues with what `download_media` returned (`AfterDownload`) |
| `Orchestrator.ItemStep` | main.py:46-61 | is `Step`: outside a dry run it raises exactly when the record or `download_media` raises, and otherwise continues with the media result; a dry run downloads and writes nothing; at most one per-item record, for a returned path |
| `Orchestrator.LoopFromRecords` | main.py:45-52 | the item loop's records are the items' own records in order up to the first raising iteration, all of them when none raises; it ends early only at an item whose iteration raises; a dry run stops only where a record cannot be built |
| `Orchestrator.LoopFromTidy` | main.py:54-61 | the item loop only adds to the file system, every returned path exists, and there is one per-item record per returned path unless metadata is skipped |
| `Orchestrator.LoopFromDry` | main.py:54 | in a dry run the item loop adds no effect, no path and no returned file |
| `Orchestrator.ProcessItems` | main.py:42-61 | is `ItemsRun`, the loop of `Step`s that ends at the first raising iteration; it ends early only at an item whose record or download raised; the records are the items' own, in order; one per-item file per returned path unless metadata is skipped; a dry run has no effects |
| `Orchestrator.CollectionDocument` | main.py:63-74 | `create_collection_metadata` on the second lookup exactly when the first answered, else the fallback; the item records are the media |
| `Orchestrator.FinishCollection` | main.py:63-77 | is `CollectionEnd`; succeeds exactly when metadata is skipped, this is a dry run, there are no records, or the collection record could be built; `collection_metadata.json` is written exactly on success otherwise, holding the item records |
| `Orchestrator.ProcessCollection` | main.py:30-83 | is `CollectionRun`; never leaves the function; makes the directory first; a non-numeric identifier fails; succeeds exactly when the listing returns items, no item's iteration raises, and the collection record is not asked for or could be built; the collection file holds the records of the listed items; a dry run only makes the directory |
| `Orchestrator.CollectionItems` | main.py:35-80 | is `CollectionAfterListing`: an empty listing fails, a raising iteration fails, and otherwise the outcome of `CollectionEnd`; the collection file holds the records of all items |
| `Orchestrator.CollectionDirIsDownloadDirectory` | main.py:33 | the collection directory is the download root joined with the identifier string |
| `Orchestrator.PostDirName` | main.py:96-100 | `{post_id}-{sanitized title}` for a truthy title, exactly `{post_id}` for a falsy one; raises exactly on a truthy non-string title |
| `Orchestrator.PostDirIsOneComponent` | main.py:96-100 | for a numeric identifier the post directory is one path component |
| `Orchestrator.FinishPost` | main.py:131-139 | is `PostEnd`: `post_metadata.json` is written exactly when metadata is not skipped and this is no dry run, holding the id, title, record count and records |
| `Orchestrator.ProcessPost` | main.py:85-142 | is `PostRun`; a non-numeric identifier raises; a failed post lookup returns False with no effect; succeeds exactly when the identifier is numeric, the post is a dict whose title gives a directory name, the listing is non-empty and no item's iteration raises; returns False exactly on a failed lookup or an empty listing; the post file holds the records of the listed items; a dry run only makes the directory |
| `Orchestrator.PostItems` | main.py:101-142 | is `PostAfterListing`: succeeds exactly when the listing is non-empty and no iteration raises, and raises exactly when an iteration raises; the post file holds the records of all items |
| `Orchestrator.ProcessOne` | main.py:176-186 | is `ParentOf`: `process_collection` or `process_post` with the real record builder; a collection never raises out of its processing; the file system only grows; a dry run only makes directories |
| `Orchestrator.MainTurn` | main.py:177-186 | one identifier of the loop: its status is appended, the exit code stays 0 only while every status is a success, and the run goes on with the file system the identifier left unless it raised |
| `Orchestrator.RunMain` | main.py:144-199 | is `MainRun`: identifier `i` is processed with `world(i)` on the file system the previous one left; no API key returns 1 with no effect; otherwise every collection is processed even after failures; an exception in a post stops the loop; the exit code is 0 exactly when every identifier succeeded; a dry run only makes directories |

## Left out

- Argument parsing, config.py (prompting, loading, saving), logging and
  timing. The settings a run sees are a `Settings` value.
- HTTP transport, `raise_for_status` and `response.json()`. A request that
  fails in any of these is the `None` response. The query string built
  with `quote(json.dumps(...))` is not modelled: a request is a
  `PageRequest` record.
- The single-object lookups (`get_collection_by_id`, `get_post_by_id`,
  `get_image_details`, `get_image_generation_data`, `get_image_tags`) are
  modelled by their unwrapping (`Api.UnwrapData`). Their `int(id)` is
  modelled where its exception matters.
- `mimetypes.guess_extension` and Python's `str()` of non-string JSON
  values are foreign functions, passed in as a `Host` record.
- File-system failures (`mkdir`, `open` and writes in `save_metadata`) and
  the JSON encoding of `json.dump`. The file system is a set of paths.
  `save_metadata` always succeeds and records a `WriteJson` effect.
- `KeyboardInterrupt`, and exceptions `main` itself could raise outside
  `process_post`.
- The `sys.argv` fallback of `create_download_directory` for a `None`
  argument, which reads process arguments. `FileNames.DirectoryName`
  requires a non-null argument for this reason.
- Values.Json: numbers are integers only. A JSON float would change
  `int()` (which truncates `1.5`), truthiness (`0.0` is falsy) and `str()`
  of a number, as used for the media file name and the directory name.
  Responses holding floats are outside the model; the identifiers the
  branches look at are integers.
- Negative `max_retries`, which makes the loop fall through and return
  `None`. The model takes `max_retries` as a natural number.
- Values.IntOf: `int()` on strings accepts an optional sign followed by
  ASCII digits only. Python also accepts surrounding whitespace,
  underscores between digits and non-ASCII digits.
- Paths.Child: `pathlib` joining removes empty and `.` components and
  lets an absolute name replace the directory. Other normalisation of the
  directory part (doubled or trailing separators) is not modelled.
- `Paths.PathStem` follows the `.stem` of CPython 3.12.
- Paths.StemOfChild: covers a one-part extension only. When the MIME type gives no extension and the base name itself holds an interior dot, the stem loses part of the base, which the model's `PathStem` computes but no lemma singles out.
- Orchestrator.ProcessItems: when an item raises, the model keeps the
  records of the items before it. `items_metadata` also holds the raising
  item's record when the exception came from `download_media`, but no
  file is written from it before the exception leaves the loop.
- Orchestrator.ProcessCollection: `create_download_directory` receives
  the identifier string, so the directory is the identifier itself. The
  `{id}-{name}` form is only reached with a `getById` response, which
  `process_collection` never passes. It is modelled in
  `FileNames.DirectoryName` all the same.
- Download.FailedDownloadMayLeaveFile: the code opens the output file
  before streaming and never removes it, so a failed download can leave a
  partial file. The model states this instead of "no file remains".
- FileNames.SanitizeIdempotent: `sanitize_filename` is not idempotent on
  every input. When the kept 200 characters of a long name's stem are
  all dots, a second `splitext` no longer sees an extension. The lemma
  states idempotence exactly for the other names.
