/** The retrying downloader of downloader.py: URL resolution and the retry
    loop of `download_file`, and the naming and skip-if-exists decisions of
    `download_media`. Network answers are inputs; sleeps are returned as
    the list of delays. */
module Download {
  import opened Values
  import opened Paths
  import opened FileNames

  /** Host that serves relative media paths. */
  const MediaHost: string := "https://image.civitai.com/"

  /** How one download attempt ends. */
  datatype Attempt =
      /** Fails before the file is opened: connection error, error status,
          or `open` itself failing. */
    | Refused
      /** Fails while streaming, after the file was opened and truncated. */
    | Interrupted(contentType: string)
      /** The whole body was written. */
    | Completed(contentType: string)

  /** The absolute URL `download_file` requests, or `None` when a relative
      path comes without an API key. */
  function ResolveUrl(url: string, outputPath: string, apiKey: Option<string>): (r: Option<string>)
    ensures StartsWith(url, "http") ==> r == Some(url)
    ensures !StartsWith(url, "http") && (apiKey.None? || apiKey.value == "") ==> r.None?
    ensures !StartsWith(url, "http") && apiKey.Some? && apiKey.value != "" ==>
              r == Some(MediaHost + apiKey.value + "/" + url + "/" + Basename(outputPath))
    ensures r.Some? ==> StartsWith(r.value, "http")
  {
    if StartsWith(url, "http") then Some(url)
    else match apiKey
      case None => None
      case Some(key) =>
        if key == "" then None
        else
          var full := MediaHost + key + "/" + url + "/" + Basename(outputPath);
          assert full[..4] == MediaHost[..4];
          Some(full)
  }

  /** A resolved URL resolves to itself. */
  lemma ResolveUrlIdempotent(url: string, outputPath: string, apiKey: Option<string>, otherPath: string)
    requires ResolveUrl(url, outputPath, apiKey).Some?
    ensures ResolveUrl(ResolveUrl(url, outputPath, apiKey).value, otherPath, apiKey)
            == ResolveUrl(url, outputPath, apiKey)
  {
  }

  /** The linear backoff delays `lo, lo + 1, ..., hi - 1` seconds. */
  function Backoff(lo: nat, hi: nat): seq<nat> {
    if hi <= lo then [] else seq(hi - lo, i requires 0 <= i < hi - lo => lo + i)
  }

  /** Whether an answer's `Content-Type` triggers the mismatch warning. */
  predicate MimeMismatch(expected: string, contentType: string) {
    expected != "" && contentType != "" && !StartsWith(contentType, expected)
  }

  /** 1 when the attempt got far enough to log a MIME mismatch warning. */
  function Warning(expected: string, a: Attempt): nat {
    if !a.Refused? && MimeMismatch(expected, a.contentType) then 1 else 0
  }

  /** What the retry loop did: attempts made, seconds slept (in order),
      the verdict, whether the file was ever opened, warnings logged. */
  datatype Tries = Tries(attempts: nat, delays: seq<nat>, success: bool, fileOpened: bool, warnings: nat)

  /** What the loop from `attempt` on did: it stops right after the first
      completed attempt, or after the last one; it succeeds exactly when
      some remaining attempt completes; it sleeps `attempt + 1, ...` seconds
      between attempts; the file was opened exactly when some attempt it
      made got an answer. */
  predicate Retried(t: Tries, attempt: nat, maxRetries: nat, outcome: nat -> Attempt) {
    && attempt < t.attempts <= maxRetries + 1
    && (t.success <==> exists k :: attempt <= k <= maxRetries && outcome(k).Completed?)
    && (t.success ==> outcome(t.attempts - 1).Completed?)
    && (forall j :: attempt <= j < t.attempts - 1 ==> !outcome(j).Completed?)
    && (!t.success ==> t.attempts == maxRetries + 1)
    && t.delays == Backoff(attempt + 1, t.attempts)
    && (t.fileOpened <==> exists j :: attempt <= j < t.attempts && !outcome(j).Refused?)
  }

  /** The loop `for attempt in range(max_retries + 1)` from `attempt` on. */
  function RetryFrom(attempt: nat, maxRetries: nat, outcome: nat -> Attempt, expected: string): (t: Tries)
    requires attempt <= maxRetries
    ensures Retried(t, attempt, maxRetries, outcome)
    decreases maxRetries - attempt
  {
    var a := outcome(attempt);
    if a.Completed? then
      Tries(attempt + 1, [], true, true, Warning(expected, a))
    else if attempt < maxRetries then
      var rest := RetryFrom(attempt + 1, maxRetries, outcome, expected);
      RetriedCons(attempt, maxRetries, outcome, rest, Warning(expected, a) + rest.warnings);
      Tries(rest.attempts, [attempt + 1] + rest.delays, rest.success,
            a.Interrupted? || rest.fileOpened, Warning(expected, a) + rest.warnings)
    else
      Tries(attempt + 1, [], false, a.Interrupted?, Warning(expected, a))
  }

  /** A failed attempt followed by the loop from the next one. */
  lemma RetriedCons(attempt: nat, maxRetries: nat, outcome: nat -> Attempt, rest: Tries, warnings: nat)
    requires attempt < maxRetries && !outcome(attempt).Completed?
    requires Retried(rest, attempt + 1, maxRetries, outcome)
    ensures Retried(Tries(rest.attempts, [attempt + 1] + rest.delays, rest.success,
                          outcome(attempt).Interrupted? || rest.fileOpened, warnings),
                    attempt, maxRetries, outcome)
  {
    assert [attempt + 1] + Backoff(attempt + 2, rest.attempts) == Backoff(attempt + 1, rest.attempts);
  }

  /** A first success at (zero-based) attempt `k` ends the loop with success
      after sleeping 1, 2, ..., k seconds. */
  lemma RetryFirstSuccess(maxRetries: nat, outcome: nat -> Attempt, expected: string, k: nat)
    requires k <= maxRetries && outcome(k).Completed?
    requires forall j :: 0 <= j < k ==> !outcome(j).Completed?
    ensures var t := RetryFrom(0, maxRetries, outcome, expected);
            t.success && t.attempts == k + 1 && t.delays == Backoff(1, k + 1)
  {
  }

  /** Failing every attempt ends with failure after `max_retries + 1`
      attempts and sleeps of 1, 2, ..., max_retries seconds. */
  lemma RetryAllFail(maxRetries: nat, outcome: nat -> Attempt, expected: string)
    requires forall j :: 0 <= j <= maxRetries ==> !outcome(j).Completed?
    ensures var t := RetryFrom(0, maxRetries, outcome, expected);
            !t.success && t.attempts == maxRetries + 1 && t.delays == Backoff(1, maxRetries + 1)
  {
  }

  /** Attempts that end the same way, whatever their content types. */
  predicate SameEndings(o1: nat -> Attempt, o2: nat -> Attempt, from: nat, to: nat) {
    forall j :: from <= j <= to ==>
      (o1(j).Refused? <==> o2(j).Refused?) && (o1(j).Completed? <==> o2(j).Completed?)
  }

  /** A MIME mismatch is only a warning: the content types never change
      the verdict, the attempts or the delays. */
  lemma {:induction false} RetryIgnoresContentType(attempt: nat, maxRetries: nat,
                                                   o1: nat -> Attempt, o2: nat -> Attempt,
                                                   e1: string, e2: string)
    requires attempt <= maxRetries
    requires SameEndings(o1, o2, attempt, maxRetries)
    ensures var t1 := RetryFrom(attempt, maxRetries, o1, e1);
            var t2 := RetryFrom(attempt, maxRetries, o2, e2);
            t1.success == t2.success && t1.attempts == t2.attempts
            && t1.delays == t2.delays && t1.fileOpened == t2.fileOpened
    decreases maxRetries - attempt
  {
    if !o1(attempt).Completed? && attempt < maxRetries {
      RetryIgnoresContentType(attempt + 1, maxRetries, o1, o2, e1, e2);
    }
  }

  /** Nothing removes a file a failed download opened: an interrupted
      attempt leaves its partial file even when the download fails. */
  lemma FailedDownloadMayLeaveFile(maxRetries: nat, outcome: nat -> Attempt, expected: string, j: nat)
    requires j <= maxRetries && outcome(j).Interrupted?
    requires forall i :: 0 <= i <= maxRetries ==> !outcome(i).Completed?
    ensures var t := RetryFrom(0, maxRetries, outcome, expected);
            !t.success && t.fileOpened
  {
  }

  /** One call of `download_file`. */
  datatype DownloadTrace =
      /** Relative URL and no API key: `False` before any attempt. */
    | NoKey
    | Tried(url: string, tries: Tries)
  {
    predicate Success() {
      Tried? && tries.success
    }

    predicate FileOpened() {
      Tried? && tries.fileOpened
    }

    function Attempts(): nat {
      if Tried? then tries.attempts else 0
    }
  }

  /** `download_file(url, output_path, mime_type, max_retries, api_key)`. */
  function DownloadFile(url: string, outputPath: string, expected: string, maxRetries: nat,
                        apiKey: Option<string>, outcome: nat -> Attempt): (d: DownloadTrace)
    ensures d.NoKey? <==> !StartsWith(url, "http") && (apiKey.None? || apiKey.value == "")
    ensures d.Attempts() <= maxRetries + 1
    ensures d.Success() ==> d.FileOpened()
    ensures d.Tried? ==> d.url == ResolveUrl(url, outputPath, apiKey).value
                         && d.tries == RetryFrom(0, maxRetries, outcome, expected)
  {
    match ResolveUrl(url, outputPath, apiKey)
    case None => NoKey
    case Some(full) => Tried(full, RetryFrom(0, maxRetries, outcome, expected))
  }

  /** A relative URL without an API key makes no attempt and fails. */
  lemma DownloadWithoutKey(url: string, outputPath: string, expected: string, maxRetries: nat,
                           outcome: nat -> Attempt)
    requires !StartsWith(url, "http")
    ensures var d := DownloadFile(url, outputPath, expected, maxRetries, None, outcome);
            !d.Success() && d.Attempts() == 0
  {
  }

  /** What `download_media` did. */
  datatype MediaResult =
      /** The item has no usable URL: `None`, nothing downloaded. */
    | NoUrl
      /** The target path exists: returned as is, nothing downloaded. */
    | AlreadyThere(path: string)
    | Fetched(path: string, trace: DownloadTrace)
  {
    /** The value `download_media` returns: the path, or `None`. */
    function Returned(): Option<string> {
      match this
      case NoUrl => None
      case AlreadyThere(p) => Some(p)
      case Fetched(p, t) => if t.Success() then Some(p) else None
    }
  }

  /** The media name: the item's `name`, or `media-{id}` when the key is missing. */
  function MediaName(item: seq<Member>, host: Host): Json {
    GetOr(item, "name", JStr("media-" + Str(Get(item, "id"), host)))
  }

  /** The MIME type: the item's `mimeType`, or `image/jpeg` when the key is missing. */
  function MediaMime(item: seq<Member>): Json {
    GetOr(item, "mimeType", JStr("image/jpeg"))
  }

  /** The file name: the sanitized name without its extension, then the
      extension of the MIME type. */
  function MediaFileName(name: string, mime: string, host: Host): string {
    SplitExt(Sanitize(name)).stem + GetFileExtension(mime, host)
  }

  /** `download_media(media_data, download_dir, api_key)`; `existing` is the
      set of paths that exist on disk. */
  function DownloadMedia(item: seq<Member>, dir: string, apiKey: Option<string>, maxRetries: nat,
                         existing: set<string>, host: Host, outcome: nat -> Attempt): (r: Outcome<MediaResult>)
    ensures r == Returns(NoUrl) <==> !Truthy(Get(item, "url"))
    ensures r.Raises? <==>
              (Truthy(Get(item, "url")) &&
               (!MediaName(item, host).JStr? || !MediaMime(item).JStr? ||
                (Child(dir, MediaFileName(MediaName(item, host).s, MediaMime(item).s, host)) !in existing
                 && !Get(item, "url").JStr?)))
    ensures r.Returns? && !r.value.NoUrl? ==>
              && r.value.path == Child(dir, MediaFileName(MediaName(item, host).s, MediaMime(item).s, host))
              && (r.value.AlreadyThere? <==> r.value.path in existing)
    ensures r.Returns? && r.value.Fetched? ==>
              r.value.trace == DownloadFile(Get(item, "url").s, r.value.path, MediaMime(item).s,
                                            maxRetries, apiKey, outcome)
  {
    var name := MediaName(item, host);
    var url := Get(item, "url");
    var mime := MediaMime(item);
    if !Truthy(url) then Returns(NoUrl)
    else if !name.JStr? then Raises
    else
      var base := SplitExt(Sanitize(name.s)).stem;
      if !mime.JStr? then Raises
      else
        var path := Child(dir, base + GetFileExtension(mime.s, host));
        if path in existing then Returns(AlreadyThere(path))
        else if !url.JStr? then Raises
        else Returns(Fetched(path, DownloadFile(url.s, path, mime.s, maxRetries, apiKey, outcome)))
  }

  /** An item with a URL and neither `name` nor `mimeType` is saved as
      `media-{id}` with the JPEG extension. */
  lemma DownloadMediaDefaults(item: seq<Member>, dir: string, apiKey: Option<string>, maxRetries: nat,
                              existing: set<string>, host: Host, outcome: nat -> Attempt)
    requires Get(item, "url").JStr? && Truthy(Get(item, "url"))
    requires !HasKey(item, "name") && !HasKey(item, "mimeType")
    ensures var r := DownloadMedia(item, dir, apiKey, maxRetries, existing, host, outcome);
            r.Returns? && r.value.path ==
              Child(dir, SplitExt(Sanitize("media-" + Str(Get(item, "id"), host))).stem + ".jpg")
  {
    assert MediaName(item, host) == JStr("media-" + Str(Get(item, "id"), host));
    assert MediaMime(item) == JStr("image/jpeg");
    assert GetFileExtension("image/jpeg", host) == ".jpg";
  }
}
