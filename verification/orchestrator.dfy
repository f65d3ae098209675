/** main.py: processing one collection or one post, and the run over all
    identifiers given on the command line. The file system is a set of
    existing paths, and every side effect is recorded as an `Effect`. */
module Orchestrator {
  import opened Values
  import opened Paths
  import opened FileNames
  import opened Download
  import opened Api
  import opened Metadata

  /** A JSON document written by `save_metadata`. */
  datatype Document =
    | ItemDoc(item: ItemMetadata)
    | CollectionDoc(collection: CollectionMeta)
    | PostDoc(post: PostMeta)

  datatype Effect =
    | MakeDir(path: string)
    | Fetch(path: string, trace: DownloadTrace)
    | WriteJson(path: string, doc: Document)

  /** The configuration and command-line switches a run sees. */
  datatype Settings = Settings(
    downloadDir: Option<string>,
    home: string,
    apiKey: Option<string>,
    maxRetries: nat,
    dryRun: bool,
    skipMetadata: bool,
    host: Host)

  /** What the platform answers while one collection or post is processed:
      the parent lookups (`get_collection_by_id` is asked twice; the post
      lookup uses `parent`), the listing pages, the per-image calls keyed by
      the integer id, and the outcome of every download attempt by item
      position and attempt number. `None` is a failed request. */
  datatype Server = Server(
    parent: Option<Json>,
    parentAgain: Option<Json>,
    pages: seq<Option<Json>>,
    details: int -> Option<Json>,
    generation: int -> Option<Json>,
    tags: int -> Option<Json>,
    attempts: nat -> nat -> Attempt)

  /** `get_image_generation_data`, by id. */
  function GenerationOf(srv: Server): int -> Json {
    id => UnwrapData(srv.generation(id), JNull)
  }

  /** `get_image_tags`, by id: a failed request returns `[]`. */
  function TagsOf(srv: Server): int -> Json {
    id => UnwrapData(srv.tags(id), JArr([]))
  }

  /** `api.get_image_details(item.get("id")) or item`. */
  function Details(item: Json, srv: Server): (r: Outcome<Json>)
    ensures r.Raises? <==> !item.JObj? || !IntConvertible(Get(item.members, "id"))
    ensures r.Returns? ==> r.value == item || Truthy(r.value)
    ensures r.Returns? && !Truthy(UnwrapData(srv.details(IntOf(Get(item.members, "id"))), JNull)) ==>
              r.value == item
    ensures r.Returns? && Truthy(UnwrapData(srv.details(IntOf(Get(item.members, "id"))), JNull)) ==>
              r.value == UnwrapData(srv.details(IntOf(Get(item.members, "id"))), JNull)
  {
    var id :- DotGet(item, "id");
    if !IntConvertible(id) then Raises
    else
      var fetched := UnwrapData(srv.details(IntOf(id)), JNull);
      Returns(if Truthy(fetched) then fetched else item)
  }

  /** How a record is built from the members of the item details and the
      per-id generation data and tags. The item loop is stated for any such
      builder; the program's own is `ExtractFrom`. */
  type Extractor = (seq<Member>, int -> Json, int -> Json) -> Outcome<ItemMetadata>

  /** `extract_metadata(api, item_details)` on a dict. */
  function ExtractFrom(image: seq<Member>, generation: int -> Json, tags: int -> Json): Outcome<ItemMetadata> {
    ExtractMetadata(JObj(image), generation, tags)
  }

  /** The record built for an item, whatever happens to its download:
      details that are not a dict make `extract_metadata` raise. */
  function ItemRecord(item: Json, srv: Server, extract: Extractor): Outcome<ItemMetadata> {
    var details :- Details(item, srv);
    if !details.JObj? then Raises
    else extract(details.members, GenerationOf(srv), TagsOf(srv))
  }

  /** With the program's own builder, an item's record is
      `extract_metadata(api, api.get_image_details(item_id) or item)`. */
  lemma ItemRecordIsExtractMetadata(item: Json, srv: Server)
    ensures ItemRecord(item, srv, ExtractFrom) ==
              (var details :- Details(item, srv); ExtractMetadata(details, GenerationOf(srv), TagsOf(srv)))
  {
  }

  /** The records the item loop builds, in order, up to the first item
      whose record cannot be built. */
  function Records(items: seq<Json>, srv: Server, extract: Extractor): seq<ItemMetadata>
    decreases |items|
  {
    if |items| == 0 then []
    else
      match ItemRecord(items[0], srv, extract)
      case Raises => []
      case Returns(m) => [m] + Records(items[1..], srv, extract)
  }

  /** `Records` is, position by position, each item's own record, and it
      stops only at an item whose record raises. */
  lemma {:induction false} RecordsAreItemRecords(items: seq<Json>, srv: Server, extract: Extractor)
    ensures |Records(items, srv, extract)| <= |items|
    ensures forall i :: 0 <= i < |Records(items, srv, extract)| ==> ItemRecord(items[i], srv, extract) == Returns(Records(items, srv, extract)[i])
    ensures |Records(items, srv, extract)| < |items| ==> ItemRecord(items[|Records(items, srv, extract)|], srv, extract).Raises?
  {
    if |items| > 0 && ItemRecord(items[0], srv, extract).Returns? {
      RecordsAreItemRecords(items[1..], srv, extract);
      var r := Records(items, srv, extract);
      assert r == [ItemRecord(items[0], srv, extract).value] + Records(items[1..], srv, extract);
      forall i | 0 < i < |r| ensures ItemRecord(items[i], srv, extract) == Returns(r[i]) {
        assert items[i] == items[1..][i - 1];
      }
      if |r| < |items| {
        assert items[|r|] == items[1..][|r| - 1];
      }
    }
  }

  /** The item records among some effects, in order. */
  function ItemDocs(effects: seq<Effect>): seq<ItemMetadata> {
    if |effects| == 0 then []
    else
      (if effects[0].WriteJson? && effects[0].doc.ItemDoc? then [effects[0].doc.item] else [])
      + ItemDocs(effects[1..])
  }

  lemma {:induction false} ItemDocsAppend(a: seq<Effect>, b: seq<Effect>)
    ensures ItemDocs(a + b) == ItemDocs(a) + ItemDocs(b)
  {
    if |a| > 0 {
      ItemDocsAppend(a[1..], b);
      assert (a + b)[1..] == a[1..] + b;
    } else {
      assert a + b == b;
    }
  }

  /** Effects that one item may cause: a download and its record. */
  predicate ItemEffect(e: Effect) {
    e.Fetch? || (e.WriteJson? && e.doc.ItemDoc?)
  }

  /** One iteration of the item loop: the record, the effects, the file
      system afterwards, and the path `download_media` returned. */
  datatype ItemOutcome = ItemOutcome(meta: ItemMetadata, effects: seq<Effect>, fs: set<string>, saved: Option<string>)

  /** The effects of one download: the fetch, when one was made. */
  function FetchEffects(media: MediaResult): (es: seq<Effect>)
    ensures forall e <- es :: e.Fetch?
    ensures ItemDocs(es) == []
  {
    if media.Fetched? then
      var es := [Fetch(media.path, media.trace)];
      assert es[1..] == [];
      es
    else []
  }

  /** The rest of the loop body once `download_media` returned: a returned
      path gets its `<stem>_metadata.json` unless metadata is skipped. A
      fetch that opened the file leaves it on disk, complete or not. */
  function AfterDownload(meta: ItemMetadata, media: MediaResult, dir: string, skipMetadata: bool,
                         fs: set<string>): (o: ItemOutcome)
    requires media.AlreadyThere? ==> media.path in fs
    requires media.Fetched? && media.trace.Success() ==> media.trace.FileOpened()
    ensures o.meta == meta && o.saved == media.Returned()
    ensures fs <= o.fs
    ensures forall e <- o.effects :: ItemEffect(e)
    ensures ItemDocs(o.effects) == if o.saved.Some? && !skipMetadata then [meta] else []
    ensures o.saved.Some? ==> o.saved.value in o.fs
    ensures o.saved.Some? && !skipMetadata ==>
              WriteJson(Child(dir, PathStem(o.saved.value) + "_metadata.json"), ItemDoc(meta)) in o.effects
  {
    var fetched := FetchEffects(media);
    var fs1 := if media.Fetched? && media.trace.FileOpened() then fs + {media.path} else fs;
    match media.Returned()
    case None => ItemOutcome(meta, fetched, fs1, None)
    case Some(p) =>
      if skipMetadata then ItemOutcome(meta, fetched, fs1, Some(p))
      else
        var metaPath := Child(dir, PathStem(p) + "_metadata.json");
        var write := [WriteJson(metaPath, ItemDoc(meta))];
        ItemDocsAppend(fetched, write);
        assert write[1..] == [];
        ItemOutcome(meta, fetched + write, fs1 + {metaPath}, Some(p))
  }

  /** `download_media(item_details, download_dir, ...)` for the item at
      position `pos`; details that cannot be fetched, or are not a dict,
      raise before it. */
  function ItemMedia(item: Json, pos: nat, dir: string, s: Settings, srv: Server, fs: set<string>): (r: Outcome<MediaResult>)
    ensures Details(item, srv).Raises? || !Details(item, srv).value.JObj? ==> r.Raises?
    ensures Details(item, srv).Returns? && Details(item, srv).value.JObj? ==>
              r == DownloadMedia(Details(item, srv).value.members, dir, s.apiKey, s.maxRetries, fs, s.host, srv.attempts(pos))
    ensures r.Returns? && r.value.AlreadyThere? ==> r.value.path in fs
    ensures r.Returns? && r.value.Fetched? && r.value.trace.Success() ==> r.value.trace.FileOpened()
  {
    var details :- Details(item, srv);
    if !details.JObj? then Raises
    else DownloadMedia(details.members, dir, s.apiKey, s.maxRetries, fs, s.host, srv.attempts(pos))
  }

  /** What one iteration of the item loop does to the item at position
      `pos`: it raises when the record cannot be built or, outside a dry
      run, when `download_media` raises; a dry run downloads and writes
      nothing. */
  function Step(item: Json, pos: nat, dir: string, s: Settings, srv: Server, extract: Extractor, fs: set<string>): (r: Outcome<ItemOutcome>)
    ensures r.Raises? <==> ItemRecord(item, srv, extract).Raises? || (!s.dryRun && ItemMedia(item, pos, dir, s, srv, fs).Raises?)
    ensures r.Returns? ==> ItemRecord(item, srv, extract) == Returns(r.value.meta)
    ensures r.Returns? && s.dryRun ==> r.value == ItemOutcome(r.value.meta, [], fs, None)
    ensures r.Returns? && !s.dryRun ==>
              r.value == AfterDownload(r.value.meta, ItemMedia(item, pos, dir, s, srv, fs).value, dir, s.skipMetadata, fs)
  {
    var meta :- ItemRecord(item, srv, extract);
    if s.dryRun then Returns(ItemOutcome(meta, [], fs, None))
    else
      var media :- ItemMedia(item, pos, dir, s, srv, fs);
      Returns(AfterDownload(meta, media, dir, s.skipMetadata, fs))
  }

  /** The body of the item loop of `process_collection` / `process_post`
      for the item at position `pos`: build the record, then, outside a dry
      run, download the media and write the record next to it. */
  method ItemStep(item: Json, pos: nat, dir: string, s: Settings, srv: Server, extract: Extractor, fs: set<string>)
    returns (r: Outcome<ItemOutcome>)
    ensures r == Step(item, pos, dir, s, srv, extract, fs)
    ensures ItemRecord(item, srv, extract).Raises? ==> r.Raises?
    ensures r.Returns? ==> ItemRecord(item, srv, extract) == Returns(r.value.meta)
    ensures s.dryRun ==> r.Returns? == ItemRecord(item, srv, extract).Returns?
    ensures !s.dryRun ==> (r.Raises? <==> ItemRecord(item, srv, extract).Raises? || ItemMedia(item, pos, dir, s, srv, fs).Raises?)
    ensures !s.dryRun && r.Returns? ==>
              r.value == AfterDownload(r.value.meta, ItemMedia(item, pos, dir, s, srv, fs).value, dir, s.skipMetadata, fs)
    ensures r.Returns? && s.dryRun ==> r.value.effects == [] && r.value.fs == fs && r.value.saved.None?
    ensures r.Returns? ==> fs <= r.value.fs
    ensures r.Returns? ==> forall e <- r.value.effects :: ItemEffect(e)
    ensures r.Returns? ==> ItemDocs(r.value.effects) ==
                             (if r.value.saved.Some? && !s.skipMetadata then [r.value.meta] else [])
    ensures r.Returns? && r.value.saved.Some? ==> r.value.saved.value in r.value.fs
  {
    var details := Details(item, srv);
    if details.Raises? {
      return Raises;
    }
    if !details.value.JObj? {
      return Raises;
    }
    var meta := extract(details.value.members, GenerationOf(srv), TagsOf(srv));
    if meta.Raises? {
      return Raises;
    }
    if s.dryRun {
      return Returns(ItemOutcome(meta.value, [], fs, None));
    }
    var media := DownloadMedia(details.value.members, dir, s.apiKey, s.maxRetries, fs, s.host, srv.attempts(pos));
    if media.Raises? {
      return Raises;
    }
    r := Returns(AfterDownload(meta.value, media.value, dir, s.skipMetadata, fs));
  }

  /** The item loop so far: records, effects, file system, returned paths,
      and whether an item raised (which ends the loop). */
  datatype Run = Run(metas: seq<ItemMetadata>, effects: seq<Effect>, fs: set<string>, saved: seq<string>, raised: bool)

  /** What the item loop keeps true of its state: every returned path is in
      the file system, every effect is an item effect, and there is one
      metadata file per returned path unless metadata is skipped. */
  predicate Tidy(run: Run, skipMetadata: bool) {
    && (forall p <- run.saved :: p in run.fs)
    && (forall e <- run.effects :: ItemEffect(e))
    && |ItemDocs(run.effects)| == if skipMetadata then 0 else |run.saved|
  }

  /** The item loop so far followed by one more finished iteration. */
  function Append(run: Run, o: ItemOutcome): Run {
    Run(run.metas + [o.meta], run.effects + o.effects, o.fs,
        run.saved + (if o.saved.Some? then [o.saved.value] else []), run.raised)
  }

  /** The item loop from position `i` on, with `run` so far: once an item
      raised, the loop is over. */
  function LoopFrom(items: seq<Json>, i: nat, dir: string, s: Settings, srv: Server, extract: Extractor, run: Run): Run
    requires i <= |items|
    decreases |items| - i, 2
  {
    if run.raised then run else LoopNext(items, i, dir, s, srv, extract, run)
  }

  /** The loop ends after the last item. */
  function LoopNext(items: seq<Json>, i: nat, dir: string, s: Settings, srv: Server, extract: Extractor, run: Run): Run
    requires i <= |items|
    decreases |items| - i, 1
  {
    if i == |items| then run else LoopStep(items, i, dir, s, srv, extract, run)
  }

  /** The iteration on the item at position `i`: a raise ends the loop,
      leaving everything before it in place; otherwise the loop goes on
      with the iteration added. */
  function LoopStep(items: seq<Json>, i: nat, dir: string, s: Settings, srv: Server, extract: Extractor, run: Run): Run
    requires i < |items|
    decreases |items| - i, 0
  {
    match Step(items[i], i, dir, s, srv, extract, run.fs)
    case Raises => run.(raised := true)
    case Returns(o) => LoopFrom(items, i + 1, dir, s, srv, extract, Append(run, o))
  }

  /** One turn of the item loop on a run that has not raised. */
  lemma LoopFromStep(items: seq<Json>, i: nat, dir: string, s: Settings, srv: Server, extract: Extractor, run: Run)
    requires i < |items| && !run.raised
    ensures LoopFrom(items, i, dir, s, srv, extract, run)
            == match Step(items[i], i, dir, s, srv, extract, run.fs)
               case Raises => run.(raised := true)
               case Returns(o) => LoopFrom(items, i + 1, dir, s, srv, extract, Append(run, o))
  {
    assert LoopNext(items, i, dir, s, srv, extract, run) == LoopStep(items, i, dir, s, srv, extract, run);
  }

  /** At the end of the items the loop returns what it has. */
  lemma LoopFromEnd(items: seq<Json>, dir: string, s: Settings, srv: Server, extract: Extractor, run: Run)
    ensures LoopFrom(items, |items|, dir, s, srv, extract, run) == run
  {
    assert LoopNext(items, |items|, dir, s, srv, extract, run) == run;
  }

  /** The whole item loop over `items`, starting from the file system `fs`. */
  function ItemsRun(items: seq<Json>, dir: string, s: Settings, srv: Server, extract: Extractor, fs: set<string>): Run {
    LoopFrom(items, 0, dir, s, srv, extract, Run([], [], fs, [], false))
  }

  /** Adding one finished iteration keeps the loop `Tidy`. */
  lemma AppendKeepsTidy(run: Run, o: ItemOutcome, skipMetadata: bool)
    requires run.fs <= o.fs
    requires Tidy(run, skipMetadata)
    requires o.saved.Some? ==> o.saved.value in o.fs
    requires forall e <- o.effects :: ItemEffect(e)
    requires ItemDocs(o.effects) == if o.saved.Some? && !skipMetadata then [o.meta] else []
    ensures Tidy(Append(run, o), skipMetadata)
    ensures |Append(run, o).saved| <= |run.saved| + 1
  {
    ItemDocsAppend(run.effects, o.effects);
  }

  /** `Records` from position `i` on: empty at a record that raises, else
      that record followed by the ones after it. */
  lemma RecordsFrom(items: seq<Json>, i: nat, srv: Server, extract: Extractor)
    requires i < |items|
    ensures ItemRecord(items[i], srv, extract).Raises? ==> Records(items[i..], srv, extract) == []
    ensures ItemRecord(items[i], srv, extract).Returns? ==>
              Records(items[i..], srv, extract)
              == [ItemRecord(items[i], srv, extract).value] + Records(items[i + 1..], srv, extract)
  {
    assert items[i..][0] == items[i];
    assert items[i..][1..] == items[i + 1..];
  }

  /** Appending the record of item `i` moves the split point of `Records`
      by one. */
  lemma RecordsAppend(items: seq<Json>, i: nat, srv: Server, extract: Extractor, metas: seq<ItemMetadata>, m: ItemMetadata)
    requires i < |items| && ItemRecord(items[i], srv, extract) == Returns(m)
    ensures metas + Records(items[i..], srv, extract) == (metas + [m]) + Records(items[i + 1..], srv, extract)
  {
    RecordsFrom(items, i, srv, extract);
  }

  lemma PrefixOfRecords(metas: seq<ItemMetadata>, rest: seq<ItemMetadata>, all: seq<ItemMetadata>)
    requires metas + rest == all
    ensures metas <= all && |metas| <= |all| && (rest == [] ==> metas == all)
  {
    assert all[..|metas|] == metas;
  }

  /** The records of the item loop from position `i` on are the items' own
      records, in order, up to the item whose iteration raised; a dry run
      stops only at an item whose record cannot be built. */
  lemma {:induction false} LoopFromRecords(items: seq<Json>, i: nat, dir: string, s: Settings, srv: Server,
                                           extract: Extractor, run: Run)
    requires i <= |items| && |run.metas| == i && !run.raised
    requires run.metas + Records(items[i..], srv, extract) == Records(items, srv, extract)
    ensures var r := LoopFrom(items, i, dir, s, srv, extract, run);
            && |r.metas| <= |items|
            && (r.raised <==> |r.metas| < |items|)
            && (r.raised ==> Step(items[|r.metas|], |r.metas|, dir, s, srv, extract, r.fs).Raises?)
            && r.metas <= Records(items, srv, extract)
            && (!r.raised || s.dryRun ==> r.metas == Records(items, srv, extract))
    decreases |items| - i
  {
    if i == |items| {
      assert items[i..] == [];
      LoopFromEnd(items, dir, s, srv, extract, run);
      return;
    }
    var step := Step(items[i], i, dir, s, srv, extract, run.fs);
    LoopFromStep(items, i, dir, s, srv, extract, run);
    RecordsFrom(items, i, srv, extract);
    if step.Raises? {
      PrefixOfRecords(run.metas, Records(items[i..], srv, extract), Records(items, srv, extract));
    } else {
      RecordsAppend(items, i, srv, extract, run.metas, step.value.meta);
      LoopFromRecords(items, i + 1, dir, s, srv, extract, Append(run, step.value));
    }
  }

  /** One more iteration that returned keeps the loop `Tidy`, only adds to
      the file system, and in a dry run changes nothing but the records. */
  lemma StepKeepsTidy(item: Json, pos: nat, dir: string, s: Settings, srv: Server, extract: Extractor, run: Run)
    requires Tidy(run, s.skipMetadata)
    requires Step(item, pos, dir, s, srv, extract, run.fs).Returns?
    ensures var next := Append(run, Step(item, pos, dir, s, srv, extract, run.fs).value);
            && Tidy(next, s.skipMetadata) && run.fs <= next.fs && |next.saved| <= |run.saved| + 1
            && (s.dryRun ==> next.effects == run.effects && next.fs == run.fs && next.saved == run.saved)
  {
    var o := Step(item, pos, dir, s, srv, extract, run.fs).value;
    if !s.dryRun {
      var media := ItemMedia(item, pos, dir, s, srv, run.fs).value;
      assert o == AfterDownload(o.meta, media, dir, s.skipMetadata, run.fs);
    } else {
      assert o.effects == [];
    }
    AppendKeepsTidy(run, o, s.skipMetadata);
  }

  /** From position `i` on, the item loop only adds to the file system and
      keeps one metadata file per returned path unless metadata is
      skipped. */
  lemma {:induction false} LoopFromTidy(items: seq<Json>, i: nat, dir: string, s: Settings, srv: Server,
                                        extract: Extractor, run: Run)
    requires i <= |items| && |run.saved| <= |run.metas| && Tidy(run, s.skipMetadata)
    ensures var r := LoopFrom(items, i, dir, s, srv, extract, run);
            |r.saved| <= |r.metas| && run.fs <= r.fs && Tidy(r, s.skipMetadata)
    decreases |items| - i
  {
    if run.raised {
    } else if i == |items| {
      LoopFromEnd(items, dir, s, srv, extract, run);
    } else {
      var step := Step(items[i], i, dir, s, srv, extract, run.fs);
      LoopFromStep(items, i, dir, s, srv, extract, run);
      if step.Returns? {
        var next := Append(run, step.value);
        StepKeepsTidy(items[i], i, dir, s, srv, extract, run);
        LoopFromTidy(items, i + 1, dir, s, srv, extract, next);
      }
    }
  }

  /** From position `i` on, a dry run downloads and writes nothing. */
  lemma {:induction false} LoopFromDry(items: seq<Json>, i: nat, dir: string, s: Settings, srv: Server,
                                       extract: Extractor, run: Run)
    requires i <= |items| && s.dryRun && Tidy(run, s.skipMetadata)
    ensures var r := LoopFrom(items, i, dir, s, srv, extract, run);
            r.effects == run.effects && r.fs == run.fs && r.saved == run.saved
    decreases |items| - i
  {
    if run.raised {
    } else if i == |items| {
      LoopFromEnd(items, dir, s, srv, extract, run);
    } else {
      var step := Step(items[i], i, dir, s, srv, extract, run.fs);
      LoopFromStep(items, i, dir, s, srv, extract, run);
      if step.Returns? {
        var next := Append(run, step.value);
        StepKeepsTidy(items[i], i, dir, s, srv, extract, run);
        LoopFromDry(items, i + 1, dir, s, srv, extract, next);
      }
    }
  }

  /** `for i, item in enumerate(media_items)`: the loop as `ItemsRun`
      states it, so one record per item the loop got through, in order,
      each the item's own record whatever happened to its download; the
      loop ends early only at an item whose iteration raised; one metadata
      file per returned path unless metadata is skipped; a dry run
      downloads and writes nothing and stops only at an item whose record
      cannot be built. */
  method ProcessItems(items: seq<Json>, dir: string, s: Settings, srv: Server, extract: Extractor, fs: set<string>)
    returns (run: Run)
    ensures run == ItemsRun(items, dir, s, srv, extract, fs)
    ensures |run.metas| <= |items|
    ensures run.raised <==> |run.metas| < |items|
    ensures run.raised ==> Step(items[|run.metas|], |run.metas|, dir, s, srv, extract, run.fs).Raises?
    ensures run.metas <= Records(items, srv, extract)
    ensures !run.raised || s.dryRun ==> run.metas == Records(items, srv, extract)
    ensures |run.saved| <= |run.metas|
    ensures fs <= run.fs
    ensures forall p <- run.saved :: p in run.fs
    ensures forall e <- run.effects :: ItemEffect(e)
    ensures |ItemDocs(run.effects)| == if s.skipMetadata then 0 else |run.saved|
    ensures s.dryRun ==> run.effects == [] && run.fs == fs && run.saved == []
  {
    run := Run([], [], fs, [], false);
    assert items[0..] == items;
    LoopFromRecords(items, 0, dir, s, srv, extract, run);
    LoopFromTidy(items, 0, dir, s, srv, extract, run);
    if s.dryRun {
      LoopFromDry(items, 0, dir, s, srv, extract, run);
    }
    var i := 0;
    while i < |items|
      invariant 0 <= i <= |items| && |run.metas| == i && !run.raised
      invariant LoopFrom(items, i, dir, s, srv, extract, run) == ItemsRun(items, dir, s, srv, extract, fs)
    {
      var step := ItemStep(items[i], i, dir, s, srv, extract, run.fs);
      LoopFromStep(items, i, dir, s, srv, extract, run);
      if step.Raises? {
        return run.(raised := true);
      }
      run := Append(run, step.value);
      i := i + 1;
    }
    LoopFromEnd(items, dir, s, srv, extract, run);
  }

  /** An effect that writes a collection or post record. */
  predicate ParentDoc(e: Effect) {
    e.WriteJson? && !e.doc.ItemDoc?
  }

  predicate WritesParentDoc(effects: seq<Effect>) {
    exists e <- effects :: ParentDoc(e)
  }

  datatype Status = Succeeded | Failed | Crashed

  /** What processing one collection or post did. `Crashed` is an exception
      that leaves `process_post`. */
  datatype ParentRun = ParentRun(status: Status, effects: seq<Effect>, fs: set<string>)

  /** The collection record `process_collection` writes: built by
      `create_collection_metadata` when the first lookup answered, else the
      fallback record. */
  function CollectionDocument(collectionId: string, srv: Server, metas: seq<ItemMetadata>): (r: Outcome<CollectionMeta>)
    ensures r.Returns? ==> r.value.mediaCount == |metas| && r.value.media == metas
    ensures !Truthy(UnwrapData(srv.parent, JNull)) ==> r == Returns(Fallback(collectionId, metas))
    ensures Truthy(UnwrapData(srv.parent, JNull)) ==>
              r == CreateCollectionMetadata(collectionId, UnwrapData(srv.parentAgain, JNull), metas)
  {
    if Truthy(UnwrapData(srv.parent, JNull))
    then CreateCollectionMetadata(collectionId, UnwrapData(srv.parentAgain, JNull), metas)
    else Returns(Fallback(collectionId, metas))
  }

  /** The end of `process_collection` once the item loop got through every
      item: the collection record is written to
      `collection_metadata.json` unless metadata is skipped, this is a dry
      run or there are no records; an exception while building it fails
      the collection. */
  function CollectionEnd(collectionId: string, dir: string, s: Settings, srv: Server, before: seq<Effect>, run: Run): ParentRun {
    if s.skipMetadata || s.dryRun || |run.metas| == 0 then ParentRun(Succeeded, before, run.fs)
    else
      match CollectionDocument(collectionId, srv, run.metas)
      case Raises => ParentRun(Failed, before, run.fs)
      case Returns(c) =>
        var path := Child(dir, "collection_metadata.json");
        ParentRun(Succeeded, before + [WriteJson(path, CollectionDoc(c))], run.fs + {path})
  }

  /** The end of `process_collection` once the item loop finished: the
      collection record, unless metadata is skipped or this is a dry run. */
  method FinishCollection(collectionId: string, dir: string, s: Settings, srv: Server,
                          before: seq<Effect>, run: Run) returns (r: ParentRun)
    requires forall e <- before :: !ParentDoc(e)
    ensures r == CollectionEnd(collectionId, dir, s, srv, before, run)
    ensures !r.status.Crashed? && run.fs <= r.fs
    ensures r.status.Succeeded? <==>
              s.skipMetadata || s.dryRun || |run.metas| == 0 || CollectionDocument(collectionId, srv, run.metas).Returns?
    ensures |before| <= |r.effects| && r.effects[..|before|] == before
    ensures s.skipMetadata || s.dryRun ==> r == ParentRun(Succeeded, before, run.fs)
    ensures WritesParentDoc(r.effects) <==> r.status.Succeeded? && !s.skipMetadata && !s.dryRun && |run.metas| > 0
    ensures forall e <- r.effects :: ParentDoc(e) ==>
              && e.path == Child(dir, "collection_metadata.json")
              && e.doc.CollectionDoc?
              && e.doc.collection.mediaCount == |run.metas| && e.doc.collection.media == run.metas
  {
    if s.skipMetadata || s.dryRun || |run.metas| == 0 {
      return ParentRun(Succeeded, before, run.fs);
    }
    var doc := CollectionDocument(collectionId, srv, run.metas);
    if doc.Raises? {
      return ParentRun(Failed, before, run.fs);
    }
    var path := Child(dir, "collection_metadata.json");
    var write := WriteJson(path, CollectionDoc(doc.value));
    assert ParentDoc(write);
    r := ParentRun(Succeeded, before + [write], run.fs + {path});
    assert r.effects[..|before|] == before;
  }

  /** The directory of a collection: `create_download_directory` receives
      the identifier string, so it is the identifier itself. */
  function CollectionDir(collectionId: string, s: Settings): string {
    Child(DownloadRoot(s.downloadDir, s.home), collectionId)
  }

  /** `CollectionDir` is where `create_download_directory(collection_id)`
      puts the collection. */
  lemma CollectionDirIsDownloadDirectory(collectionId: string, s: Settings)
    ensures DirectoryName(JStr(collectionId), s.host) == Returns(collectionId)
    ensures CollectionDir(collectionId, s)
            == Child(DownloadRoot(s.downloadDir, s.home), DirectoryName(JStr(collectionId), s.host).value)
  {
  }

  /** `process_collection` from the item listing on: an empty listing
      fails, an item whose iteration raises fails the collection, else the
      collection record is written. */
  function CollectionAfterListing(collectionId: string, dir: string, items: seq<Json>, s: Settings, srv: Server,
                                  extract: Extractor, fs: set<string>): ParentRun {
    var made := [MakeDir(dir)];
    if |items| == 0 then ParentRun(Failed, made, fs + {dir})
    else
      var run := ItemsRun(items, dir, s, srv, extract, fs + {dir});
      if run.raised then ParentRun(Failed, made + run.effects, run.fs)
      else CollectionEnd(collectionId, dir, s, srv, made + run.effects, run)
  }

  /** What `process_collection` does: make the directory, list the images,
      then the item loop and the collection record. */
  function CollectionRun(collectionId: string, s: Settings, srv: Server, extract: Extractor, fs: set<string>): ParentRun {
    var dir := CollectionDir(collectionId, s);
    match GetAllImages(CollectionImages, collectionId, srv.pages)
    case Raises => ParentRun(Failed, [MakeDir(dir)], fs + {dir})
    case Returns(w) => CollectionAfterListing(collectionId, dir, w.items, s, srv, extract, fs)
  }

  /** `process_collection(api, collection_id, ...)`. The directory is made
      first; every exception is caught and reported as `Failed`. It
      succeeds exactly when the listing is non-empty, every item's
      iteration returned, and the collection record could be built (or was
      not asked for). */
  method ProcessCollection(collectionId: string, s: Settings, srv: Server, extract: Extractor, fs: set<string>) returns (r: ParentRun)
    ensures !r.status.Crashed?
    ensures |r.effects| > 0 && r.effects[0] == MakeDir(CollectionDir(collectionId, s))
    ensures r == CollectionRun(collectionId, s, srv, extract, fs)
    ensures !IsIntLiteral(collectionId) ==> r.status == Failed && |r.effects| == 1
    ensures r.status.Succeeded? <==>
              var w := GetAllImages(CollectionImages, collectionId, srv.pages);
              var dir := CollectionDir(collectionId, s);
              && w.Returns? && |w.value.items| > 0
              && !ItemsRun(w.value.items, dir, s, srv, extract, fs + {dir}).raised
              && (s.skipMetadata || s.dryRun || CollectionDocument(collectionId, srv, Records(w.value.items, srv, extract)).Returns?)
    ensures WritesParentDoc(r.effects) <==> r.status.Succeeded? && !s.skipMetadata && !s.dryRun
    ensures forall e <- r.effects :: ParentDoc(e) ==>
              && e.path == Child(CollectionDir(collectionId, s), "collection_metadata.json")
              && e.doc.CollectionDoc?
              && var items := GetAllImages(CollectionImages, collectionId, srv.pages).value.items;
              && e.doc.collection.mediaCount == |items|
              && e.doc.collection.media == Records(items, srv, extract)
    ensures fs <= r.fs
    ensures s.dryRun ==> forall e <- r.effects :: e.MakeDir?
  {
    var dir := CollectionDir(collectionId, s);
    var listing := GetAllImages(CollectionImages, collectionId, srv.pages);
    if listing.Raises? {
      return ParentRun(Failed, [MakeDir(dir)], fs + {dir});
    }
    r := CollectionItems(collectionId, dir, listing.value.items, s, srv, extract, fs);
  }

  /** `process_collection` from the item listing on, for the listed
      `items`, once the directory `dir` was made. */
  method CollectionItems(collectionId: string, dir: string, items: seq<Json>, s: Settings, srv: Server,
                         extract: Extractor, fs: set<string>) returns (r: ParentRun)
    ensures r == CollectionAfterListing(collectionId, dir, items, s, srv, extract, fs)
    ensures !r.status.Crashed?
    ensures |r.effects| > 0 && r.effects[0] == MakeDir(dir)
    ensures r.status.Succeeded? <==>
              && |items| > 0
              && !ItemsRun(items, dir, s, srv, extract, fs + {dir}).raised
              && (s.skipMetadata || s.dryRun || CollectionDocument(collectionId, srv, Records(items, srv, extract)).Returns?)
    ensures |items| > 0 && ItemsRun(items, dir, s, srv, extract, fs + {dir}).raised ==> r.status == Failed
    ensures WritesParentDoc(r.effects) <==> r.status.Succeeded? && !s.skipMetadata && !s.dryRun
    ensures forall e <- r.effects :: ParentDoc(e) ==>
              && e.path == Child(dir, "collection_metadata.json")
              && e.doc.CollectionDoc?
              && e.doc.collection.mediaCount == |items|
              && e.doc.collection.media == Records(items, srv, extract)
    ensures fs <= r.fs
    ensures s.dryRun ==> forall e <- r.effects :: e.MakeDir?
  {
    var made := [MakeDir(dir)];
    if |items| == 0 {
      return ParentRun(Failed, made, fs + {dir});
    }
    var run := ProcessItems(items, dir, s, srv, extract, fs + {dir});
    var before := made + run.effects;
    assert forall e <- before :: e.MakeDir? || ItemEffect(e);
    assert forall e <- before :: !ParentDoc(e);
    if run.raised {
      return ParentRun(Failed, before, run.fs);
    }
    assert |run.metas| == |items|;
    r := FinishCollection(collectionId, dir, s, srv, before, run);
    assert r.effects[0] == r.effects[..|before|][0] == before[0];
  }

  /** The directory name of a post: `{post_id}-{sanitized title}` for a
      truthy title, else the identifier. A truthy title that is not a
      string raises in `sanitize_filename`. */
  function PostDirName(postId: string, title: Json): (r: Outcome<string>)
    ensures r.Raises? <==> Truthy(title) && !title.JStr?
    ensures r.Returns? ==> StartsWith(r.value, postId)
    ensures !Truthy(title) ==> r == Returns(postId)
    ensures r.Returns? && Truthy(title) ==> r.value == postId + "-" + Sanitize(title.s)
  {
    if !Truthy(title) then Returns(postId)
    else if !title.JStr? then Raises
    else Returns(postId + "-" + Sanitize(title.s))
  }

  /** A numeric identifier has no separator. */
  lemma IntLiteralHasNoSeparator(s: string)
    requires IsIntLiteral(s)
    ensures '/' !in s
  {
    if s[0] == '+' || s[0] == '-' {
      forall i | 1 <= i < |s| ensures s[i] != '/' {
        assert s[i] == s[1..][i - 1];
      }
    }
  }

  /** For a numeric identifier the post directory is a single path
      component: no separator survives sanitizing. */
  lemma PostDirIsOneComponent(postId: string, title: Json)
    requires IsIntLiteral(postId)
    requires PostDirName(postId, title).Returns?
    ensures var name := PostDirName(postId, title).value;
            name != "" && name != "." && '/' !in name
  {
    var name := PostDirName(postId, title).value;
    IntLiteralHasNoSeparator(postId);
    if Truthy(title) {
      SanitizeSafe(title.s);
      var sn := Sanitize(title.s);
      assert name == postId + "-" + sn;
      forall i | 0 <= i < |name| ensures name[i] != '/' {
        if i > |postId| {
          assert name[i] == sn[i - |postId| - 1];
          assert !Unsafe(sn[i - |postId| - 1]);
        }
      }
    }
  }

  /** The end of `process_post` once the item loop got through every
      item: the post record is written to `post_metadata.json` unless
      metadata is skipped or this is a dry run. */
  function PostEnd(postId: string, title: Json, dir: string, s: Settings, before: seq<Effect>, run: Run): ParentRun {
    if s.skipMetadata || s.dryRun then ParentRun(Succeeded, before, run.fs)
    else
      var path := Child(dir, "post_metadata.json");
      ParentRun(Succeeded, before + [WriteJson(path, PostDoc(PostMeta(postId, title, |run.metas|, run.metas)))], run.fs + {path})
  }

  /** The end of `process_post` once the item loop got through every
      item: the post record, unless metadata is skipped or this is a dry
      run. */
  method FinishPost(postId: string, title: Json, dir: string, s: Settings, before: seq<Effect>, run: Run)
    returns (r: ParentRun)
    requires forall e <- before :: !ParentDoc(e)
    ensures r == PostEnd(postId, title, dir, s, before, run)
    ensures r.status.Succeeded? && run.fs <= r.fs
    ensures |before| <= |r.effects| && r.effects[..|before|] == before
    ensures s.skipMetadata || s.dryRun ==> r == ParentRun(Succeeded, before, run.fs)
    ensures WritesParentDoc(r.effects) <==> !s.skipMetadata && !s.dryRun
    ensures forall e <- r.effects :: ParentDoc(e) ==>
              && e.path == Child(dir, "post_metadata.json")
              && e.doc == PostDoc(PostMeta(postId, title, |run.metas|, run.metas))
  {
    if s.skipMetadata || s.dryRun {
      return ParentRun(Succeeded, before, run.fs);
    }
    var path := Child(dir, "post_metadata.json");
    var write := WriteJson(path, PostDoc(PostMeta(postId, title, |run.metas|, run.metas)));
    assert ParentDoc(write);
    r := ParentRun(Succeeded, before + [write], run.fs + {path});
    assert r.effects[..|before|] == before;
  }

  /** `process_post` from `download_dir.mkdir(...)` on: an empty listing
      returns `False`, an exception in the item loop leaves the function,
      else the post record is written. */
  function PostAfterListing(postId: string, title: Json, dir: string, items: seq<Json>, s: Settings, srv: Server,
                            extract: Extractor, fs: set<string>): ParentRun {
    var made := [MakeDir(dir)];
    if |items| == 0 then ParentRun(Failed, made, fs + {dir})
    else
      var run := ItemsRun(items, dir, s, srv, extract, fs + {dir});
      if run.raised then ParentRun(Crashed, made + run.effects, run.fs)
      else PostEnd(postId, title, dir, s, made + run.effects, run)
  }

  /** The directory of a post named `name`. */
  function PostDir(name: string, s: Settings): string {
    Child(DownloadRoot(s.downloadDir, s.home), name)
  }

  /** What `process_post` does: look the post up, name its directory after
      the title, list the images, then the item loop and the post record. */
  function PostRun(postId: string, s: Settings, srv: Server, extract: Extractor, fs: set<string>): ParentRun {
    if !IsIntLiteral(postId) then ParentRun(Crashed, [], fs)
    else
      var post := UnwrapData(srv.parent, JNull);
      if !Truthy(post) then ParentRun(Failed, [], fs)
      else if !post.JObj? then ParentRun(Crashed, [], fs)
      else
        var title := GetOr(post.members, "title", JStr(""));
        match PostDirName(postId, title)
        case Raises => ParentRun(Crashed, [], fs)
        case Returns(name) =>
          PostAfterListing(postId, title, PostDir(name, s), GetAllImages(PostImages, postId, srv.pages).value.items,
                           s, srv, extract, fs)
  }

  /** `process_post(api, post_id, ...)`. `int(post_id)`, `.get` on a
      non-dict post, a non-string title and an exception in the item loop
      leave the function (`Crashed`); a missing post or an empty listing
      return `False`. */
  method ProcessPost(postId: string, s: Settings, srv: Server, extract: Extractor, fs: set<string>) returns (r: ParentRun)
    ensures r == PostRun(postId, s, srv, extract, fs)
    ensures !IsIntLiteral(postId) ==> r == ParentRun(Crashed, [], fs)
    ensures IsIntLiteral(postId) && !Truthy(UnwrapData(srv.parent, JNull)) ==> r == ParentRun(Failed, [], fs)
    ensures r.status.Succeeded? <==>
              && IsIntLiteral(postId)
              && var post := UnwrapData(srv.parent, JNull);
              && Truthy(post) && post.JObj?
              && var name := PostDirName(postId, GetOr(post.members, "title", JStr("")));
              && name.Returns?
              && var items := GetAllImages(PostImages, postId, srv.pages).value.items;
              && |items| > 0
              && !ItemsRun(items, PostDir(name.value, s), s, srv, extract, fs + {PostDir(name.value, s)}).raised
    ensures r.status.Failed? <==>
              && IsIntLiteral(postId)
              && var post := UnwrapData(srv.parent, JNull);
              || !Truthy(post)
              || (&& post.JObj?
                  && PostDirName(postId, GetOr(post.members, "title", JStr(""))).Returns?
                  && |GetAllImages(PostImages, postId, srv.pages).value.items| == 0)
    ensures WritesParentDoc(r.effects) <==> r.status.Succeeded? && !s.skipMetadata && !s.dryRun
    ensures forall e <- r.effects :: ParentDoc(e) ==>
              && e.doc.PostDoc? && e.doc.post.id == postId
              && var items := GetAllImages(PostImages, postId, srv.pages).value.items;
              && e.doc.post.mediaCount == |items|
              && e.doc.post.media == Records(items, srv, extract)
    ensures fs <= r.fs
    ensures s.dryRun ==> forall e <- r.effects :: e.MakeDir?
  {
    if !IsIntLiteral(postId) {
      return ParentRun(Crashed, [], fs);
    }
    var post := UnwrapData(srv.parent, JNull);
    if !Truthy(post) {
      return ParentRun(Failed, [], fs);
    }
    if !post.JObj? {
      return ParentRun(Crashed, [], fs);
    }
    var title := GetOr(post.members, "title", JStr(""));
    var name := PostDirName(postId, title);
    if name.Raises? {
      return ParentRun(Crashed, [], fs);
    }
    var dir := PostDir(name.value, s);
    var listing := GetAllImages(PostImages, postId, srv.pages);
    r := PostItems(postId, title, dir, listing.value.items, s, srv, extract, fs);
  }

  /** `process_post` from `download_dir.mkdir(...)` on, for the listed
      `items`. */
  method PostItems(postId: string, title: Json, dir: string, items: seq<Json>, s: Settings, srv: Server,
                   extract: Extractor, fs: set<string>) returns (r: ParentRun)
    ensures r == PostAfterListing(postId, title, dir, items, s, srv, extract, fs)
    ensures |r.effects| > 0 && r.effects[0] == MakeDir(dir)
    ensures r.status.Succeeded? <==> |items| > 0 && !ItemsRun(items, dir, s, srv, extract, fs + {dir}).raised
    ensures r.status.Crashed? <==> |items| > 0 && ItemsRun(items, dir, s, srv, extract, fs + {dir}).raised
    ensures WritesParentDoc(r.effects) <==> r.status.Succeeded? && !s.skipMetadata && !s.dryRun
    ensures forall e <- r.effects :: ParentDoc(e) ==>
              && e.path == Child(dir, "post_metadata.json")
              && e.doc.PostDoc? && e.doc.post.id == postId && e.doc.post.title == title
              && e.doc.post.mediaCount == |items|
              && e.doc.post.media == Records(items, srv, extract)
    ensures fs <= r.fs
    ensures s.dryRun ==> forall e <- r.effects :: e.MakeDir?
  {
    var made := [MakeDir(dir)];
    if |items| == 0 {
      return ParentRun(Failed, made, fs + {dir});
    }
    var run := ProcessItems(items, dir, s, srv, extract, fs + {dir});
    var before := made + run.effects;
    assert forall e <- before :: e.MakeDir? || ItemEffect(e);
    assert forall e <- before :: !ParentDoc(e);
    assert before[0] == MakeDir(dir);
    if run.raised {
      return ParentRun(Crashed, before, run.fs);
    }
    r := FinishPost(postId, title, dir, s, before, run);
    assert r.effects[0] == r.effects[..|before|][0] == before[0];
  }

  datatype Mode = Collections | Posts

  /** What processing one identifier does, with the real metadata
      extraction. */
  function ParentOf(mode: Mode, id: string, s: Settings, srv: Server, fs: set<string>): ParentRun {
    if mode.Collections? then CollectionRun(id, s, srv, ExtractFrom, fs) else PostRun(id, s, srv, ExtractFrom, fs)
  }

  /** One identifier of the `main` loop, handed to `process_collection` or
      `process_post` with the real metadata extraction. */
  method ProcessOne(mode: Mode, id: string, s: Settings, srv: Server, fs: set<string>) returns (r: ParentRun)
    ensures r == ParentOf(mode, id, s, srv, fs)
    ensures mode.Collections? ==> !r.status.Crashed?
    ensures fs <= r.fs
    ensures s.dryRun ==> forall e <- r.effects :: e.MakeDir?
  {
    if mode.Collections? {
      r := ProcessCollection(id, s, srv, ExtractFrom, fs);
    } else {
      r := ProcessPost(id, s, srv, ExtractFrom, fs);
    }
  }

  /** What `main` returns and did: the status of each identifier processed,
      in order. */
  datatype Exit = Exit(code: int, statuses: seq<Status>, effects: seq<Effect>, fs: set<string>)

  /** The last identifier processed crashed. */
  predicate CrashedLast(acc: Exit) {
    |acc.statuses| > 0 && acc.statuses[|acc.statuses| - 1].Crashed?
  }

  /** The `main` loop from the `i`-th identifier on, with `acc` so far: an
      identifier that crashed ends the run. */
  function RunFrom(mode: Mode, ids: seq<string>, i: nat, s: Settings, world: nat -> Server, acc: Exit): Exit
    requires i <= |ids|
    decreases |ids| - i, 2
  {
    if CrashedLast(acc) then acc else RunNext(mode, ids, i, s, world, acc)
  }

  /** The loop ends after the last identifier. */
  function RunNext(mode: Mode, ids: seq<string>, i: nat, s: Settings, world: nat -> Server, acc: Exit): Exit
    requires i <= |ids|
    decreases |ids| - i, 1
  {
    if i == |ids| then acc else RunStep(mode, ids, i, s, world, acc)
  }

  /** The `i`-th identifier is processed on the file system the previous
      one left; its status is appended and the exit code stays 0 only while
      every identifier succeeds. */
  function RunStep(mode: Mode, ids: seq<string>, i: nat, s: Settings, world: nat -> Server, acc: Exit): Exit
    requires i < |ids|
    decreases |ids| - i, 0
  {
    var r := ParentOf(mode, ids[i], s, world(i), acc.fs);
    RunFrom(mode, ids, i + 1, s, world,
            Exit(if acc.code == 0 && r.status.Succeeded? then 0 else 1,
                 acc.statuses + [r.status], acc.effects + r.effects, r.fs))
  }

  /** After the last identifier the loop returns what it has. */
  lemma RunFromEnd(mode: Mode, ids: seq<string>, s: Settings, world: nat -> Server, acc: Exit)
    requires !CrashedLast(acc)
    ensures RunFrom(mode, ids, |ids|, s, world, acc) == acc
  {
    assert RunNext(mode, ids, |ids|, s, world, acc) == acc;
  }

  /** What `main` does once the arguments are parsed: without an API key it
      returns 1 at once, else it runs the loop over the identifiers. */
  function MainRun(mode: Mode, ids: seq<string>, s: Settings, world: nat -> Server, fs: set<string>): Exit {
    if s.apiKey.None? || s.apiKey.value == "" then Exit(1, [], [], fs)
    else RunFrom(mode, ids, 0, s, world, Exit(0, [], [], fs))
  }

  /** One turn of the `main` loop on the `i`-th identifier: its status is
      appended, the exit code stays 0 only while every identifier
      succeeds, and the run goes on unless it crashed. */
  method MainTurn(mode: Mode, ids: seq<string>, i: nat, s: Settings, world: nat -> Server, acc: Exit)
    returns (status: Status, next: Exit)
    requires i < |ids| && !CrashedLast(acc)
    ensures next.statuses == acc.statuses + [status]
    ensures next.code == if acc.code == 0 && status.Succeeded? then 0 else 1
    ensures mode.Collections? ==> !status.Crashed?
    ensures acc.fs <= next.fs
    ensures s.dryRun && (forall e <- acc.effects :: e.MakeDir?) ==> forall e <- next.effects :: e.MakeDir?
    ensures RunFrom(mode, ids, i, s, world, acc) == RunFrom(mode, ids, i + 1, s, world, next)
  {
    var r := ProcessOne(mode, ids[i], s, world(i), acc.fs);
    status := r.status;
    next := Exit(if acc.code == 0 && r.status.Succeeded? then 0 else 1,
                 acc.statuses + [r.status], acc.effects + r.effects, r.fs);
    assert RunNext(mode, ids, i, s, world, acc) == RunStep(mode, ids, i, s, world, acc);
    assert RunStep(mode, ids, i, s, world, acc) == RunFrom(mode, ids, i + 1, s, world, next);
  }

  /** `main()` after argument parsing; `world(i)` is what the platform
      answers while the `i`-th identifier is processed. No API key ends the
      run with 1 before anything else. Every collection is processed; an
      exception out of `process_post` ends the loop. The exit code is 0
      exactly when every identifier was processed successfully. */
  method RunMain(mode: Mode, ids: seq<string>, s: Settings, world: nat -> Server, fs: set<string>) returns (x: Exit)
    ensures x == MainRun(mode, ids, s, world, fs)
    ensures s.apiKey.None? || s.apiKey.value == "" ==> x == Exit(1, [], [], fs)
    ensures x.code == 0 || x.code == 1
    ensures x.code == 0 <==>
              && s.apiKey.Some? && s.apiKey.value != ""
              && |x.statuses| == |ids|
              && forall i :: 0 <= i < |x.statuses| ==> x.statuses[i].Succeeded?
    ensures |x.statuses| <= |ids|
    ensures mode.Collections? && s.apiKey.Some? && s.apiKey.value != "" ==>
              |x.statuses| == |ids| && forall i :: 0 <= i < |x.statuses| ==> !x.statuses[i].Crashed?
    ensures 0 < |x.statuses| < |ids| ==> x.statuses[|x.statuses| - 1].Crashed?
    ensures s.dryRun ==> forall e <- x.effects :: e.MakeDir?
    ensures fs <= x.fs
  {
    if s.apiKey.None? || s.apiKey.value == "" {
      return Exit(1, [], [], fs);
    }
    var acc := Exit(0, [], [], fs);
    var i := 0;
    while i < |ids|
      invariant 0 <= i <= |ids| && |acc.statuses| == i
      invariant acc.code == 0 || acc.code == 1
      invariant forall k :: 0 <= k < i ==> !acc.statuses[k].Crashed?
      invariant acc.code == 0 <==> forall k :: 0 <= k < i ==> acc.statuses[k].Succeeded?
      invariant fs <= acc.fs
      invariant s.dryRun ==> forall e <- acc.effects :: e.MakeDir?
      invariant RunFrom(mode, ids, i, s, world, acc) == MainRun(mode, ids, s, world, fs)
    {
      var status, next := MainTurn(mode, ids, i, s, world, acc);
      assert CrashedLast(next) <==> status.Crashed?;
      assert next.statuses[i] == status;
      if status.Crashed? {
        return next;
      }
      assert forall k :: 0 <= k < i ==> next.statuses[k] == acc.statuses[k];
      acc := next;
      i := i + 1;
    }
    RunFromEnd(mode, ids, s, world, acc);
    x := acc;
  }
}
