/** The metadata records of api.py: `extract_metadata` for one media item
    and `create_collection_metadata` for a collection, plus the post record
    main.py writes. */
module Metadata {
  import opened Values

  datatype UserRef = UserRef(id: Json, username: Json)

  datatype TagRef = TagRef(id: Json, name: Json)

  /** The record `extract_metadata` builds. `user` is `None` for JSON null;
      the last three keys are only present when the generation data has them. */
  datatype ItemMetadata = ItemMetadata(
    id: Json,
    name: Json,
    width: Json,
    height: Json,
    mimeType: Json,
    hash: Json,
    nsfwLevel: Json,
    createdAt: Json,
    publishedAt: Json,
    url: Json,
    user: Option<UserRef>,
    stats: Json,
    generationData: Json,
    tags: seq<TagRef>,
    prompt: Option<Json>,
    negativePrompt: Option<Json>,
    models: Option<Json>)

  /** The part of the record read from the item itself. A truthy `user`
      that is not a dict raises (its `.get` fails outside any `try`). */
  function BasicMetadata(image: seq<Member>): (r: Outcome<ItemMetadata>)
    ensures r.Raises? <==> Truthy(Get(image, "user")) && !Get(image, "user").JObj?
    ensures r.Returns? ==>
              && r.value.id == Get(image, "id") && r.value.name == Get(image, "name")
              && r.value.width == Get(image, "width") && r.value.height == Get(image, "height")
              && r.value.mimeType == Get(image, "mimeType") && r.value.hash == Get(image, "hash")
              && r.value.nsfwLevel == Get(image, "nsfwLevel") && r.value.createdAt == Get(image, "createdAt")
              && r.value.publishedAt == Get(image, "publishedAt") && r.value.url == Get(image, "url")
    ensures r.Returns? ==> (r.value.user.Some? <==> Truthy(Get(image, "user")))
    ensures r.Returns? && r.value.user.Some? ==>
              var u := Get(image, "user");
              u.JObj? && r.value.user.value == UserRef(Get(u.members, "id"), Get(u.members, "username"))
    ensures r.Returns? ==> (Truthy(r.value.stats) <==> Truthy(Get(image, "stats")))
    ensures r.Returns? && Truthy(Get(image, "stats")) ==> r.value.stats == Get(image, "stats")
    ensures r.Returns? ==> Unenriched(r.value)
  {
    var user := Get(image, "user");
    var stats := Get(image, "stats");
    if Truthy(user) && !user.JObj? then Raises
    else
      Returns(ItemMetadata(
        Get(image, "id"), Get(image, "name"), Get(image, "width"), Get(image, "height"),
        Get(image, "mimeType"), Get(image, "hash"), Get(image, "nsfwLevel"),
        Get(image, "createdAt"), Get(image, "publishedAt"), Get(image, "url"),
        if Truthy(user) then Some(UserRef(Get(user.members, "id"), Get(user.members, "username"))) else None,
        if Truthy(stats) then stats else JNull,
        JNull, [], None, None, None))
  }

  /** Two records agree on every field read from the item itself. */
  predicate SameBase(a: ItemMetadata, b: ItemMetadata) {
    && a.id == b.id && a.name == b.name && a.width == b.width && a.height == b.height
    && a.mimeType == b.mimeType && a.hash == b.hash && a.nsfwLevel == b.nsfwLevel
    && a.createdAt == b.createdAt && a.publishedAt == b.publishedAt && a.url == b.url
    && a.user == b.user && a.stats == b.stats
  }

  /** Nothing from the additional calls is in the record yet. */
  predicate Unenriched(m: ItemMetadata) {
    m.generationData == JNull && m.tags == [] && m.prompt.None? && m.negativePrompt.None? && m.models.None?
  }

  /** A record built so far, and whether the enrichment block stopped on an
      exception (whatever it had set before stays set). */
  datatype Partial = Partial(record: ItemMetadata, raised: bool)

  /** `meta.get(key)` guarded as the source guards it: `meta and key in meta`,
      then `meta[key]`. `None` when the guard is false. */
  function PromptField(meta: Json, key: string): (r: Outcome<Option<Json>>)
    ensures meta.JObj? ==> r.Returns?
    ensures meta.JObj? && Truthy(meta) ==>
              r.value == if HasKey(meta.members, key) then Some(Get(meta.members, key)) else None
    ensures !Truthy(meta) ==> r == Returns(None)
  {
    if !Truthy(meta) then Returns(None)
    else
      var present :- Contains(meta, key);
      if !present then Returns(None)
      else
        var v :- Subscript(meta, key);
        Returns(Some(v))
  }

  /** The generation-data steps of the enrichment block, applied to a record
      without enrichment. */
  function AddGeneration(m: ItemMetadata, gen: Json): (p: Partial)
    requires Unenriched(m)
    ensures p.record.tags == [] && SameBase(p.record, m)
    ensures p.record.generationData == if Truthy(gen) then gen else JNull
    ensures !gen.JObj? ==> p.record.prompt.None? && p.record.negativePrompt.None? && p.record.models.None?
    ensures p.raised ==> Truthy(gen) && (!gen.JObj? || (Truthy(Get(gen.members, "meta")) && !Get(gen.members, "meta").JObj?))
    ensures Truthy(gen) && !gen.JObj? ==> p.raised
    ensures p.raised ==> p.record.models.None?
    ensures gen.JObj? && !p.raised ==>
              (p.record.models.Some? <==> Truthy(Get(gen.members, "resources")))
    ensures p.record.prompt.Some? ==>
              gen.JObj? && Get(gen.members, "meta").JObj?
              && p.record.prompt.value == Get(Get(gen.members, "meta").members, "prompt")
    ensures p.record.negativePrompt.Some? ==>
              gen.JObj? && Get(gen.members, "meta").JObj?
              && p.record.negativePrompt.value == Get(Get(gen.members, "meta").members, "negativePrompt")
    ensures p.record.models.Some? ==> gen.JObj? && p.record.models.value == Get(gen.members, "resources")
  {
    if !Truthy(gen) then Partial(m, false)
    else
      var m1 := m.(generationData := gen);
      if !gen.JObj? then Partial(m1, true)
      else
        var meta := Get(gen.members, "meta");
        match PromptField(meta, "prompt")
        case Raises => Partial(m1, true)
        case Returns(prompt) =>
          var m2 := m1.(prompt := prompt);
          match PromptField(meta, "negativePrompt")
          case Raises => Partial(m2, true)
          case Returns(negative) =>
            var m3 := m2.(negativePrompt := negative);
            var resources := Get(gen.members, "resources");
            Partial(if Truthy(resources) then m3.(models := Some(resources)) else m3, false)
  }

  /** Whether a value is a list of dicts, the only truthy tags value the
      comprehension `[{...} for tag in tags]` gets through. */
  predicate TagList(tags: Json) {
    tags.JArr? && forall i :: 0 <= i < |tags.elems| ==> tags.elems[i].JObj?
  }

  /** The comprehension over a truthy tags value: every element must answer `.get`. */
  function TagRefs(tags: Json): (r: Outcome<seq<TagRef>>)
    requires Truthy(tags)
    ensures r.Returns? <==> TagList(tags)
    ensures r.Returns? ==> |r.value| == |tags.elems|
    ensures r.Returns? ==> forall i :: 0 <= i < |r.value| ==>
              r.value[i] == TagRef(Get(tags.elems[i].members, "id"), Get(tags.elems[i].members, "name"))
  {
    if TagList(tags) then
      Returns(seq(|tags.elems|, i requires 0 <= i < |tags.elems| =>
                  TagRef(Get(tags.elems[i].members, "id"), Get(tags.elems[i].members, "name"))))
    else
      assert Sized(tags) ==> |Elements(tags)| > 0;
      Raises
  }

  /** The enrichment block once `int(image_id)` succeeded, given the
      generation data and the tags for that id: the generation steps, then
      the tags unless a generation step raised; a tags value the
      comprehension cannot get through leaves `tags` empty. */
  function Enrich(m: ItemMetadata, gen: Json, t: Json): (r: ItemMetadata)
    requires Unenriched(m)
    ensures SameBase(r, m)
    ensures r.generationData == if Truthy(gen) then gen else JNull
    ensures r.prompt == AddGeneration(m, gen).record.prompt
    ensures r.negativePrompt == AddGeneration(m, gen).record.negativePrompt
    ensures r.models == AddGeneration(m, gen).record.models
    ensures r.tags != [] ==> TagList(t) && |r.tags| == |t.elems|
    ensures AddGeneration(m, gen).raised || !TagList(t) ==> r.tags == []
    ensures !AddGeneration(m, gen).raised && TagList(t) ==>
              && |r.tags| == |t.elems|
              && forall i :: 0 <= i < |t.elems| ==>
                   r.tags[i] == TagRef(Get(t.elems[i].members, "id"), Get(t.elems[i].members, "name"))
  {
    var p := AddGeneration(m, gen);
    if p.raised || !Truthy(t) then p.record
    else
      match TagRefs(t)
      case Raises => p.record
      case Returns(refs) => p.record.(tags := refs)
  }

  /** `extract_metadata(api, image)`, where `generation` and `tags` are what
      `get_image_generation_data` and `get_image_tags` return for an id.
      Both calls start with `int(image_id)`; when that raises, the enrichment
      block is abandoned before any request. */
  function ExtractMetadata(image: Json, generation: int -> Json, tags: int -> Json): (r: Outcome<ItemMetadata>)
    ensures r.Raises? <==> !image.JObj? || (Truthy(Get(image.members, "user")) && !Get(image.members, "user").JObj?)
    ensures r.Returns? ==> SameBase(r.value, BasicMetadata(image.members).value)
    ensures r.Returns? && !IntConvertible(r.value.id) ==> Unenriched(r.value)
    ensures r.Returns? && IntConvertible(r.value.id) ==>
              r.value.generationData == (var g := generation(IntOf(r.value.id)); if Truthy(g) then g else JNull)
    ensures r.Returns? && r.value.tags != [] ==>
              IntConvertible(r.value.id) && TagList(tags(IntOf(r.value.id)))
              && |r.value.tags| == |tags(IntOf(r.value.id)).elems|
    ensures r.Returns? && IntConvertible(r.value.id) ==>
              var p := AddGeneration(BasicMetadata(image.members).value, generation(IntOf(r.value.id)));
              && r.value.prompt == p.record.prompt
              && r.value.negativePrompt == p.record.negativePrompt
              && r.value.models == p.record.models
    ensures r.Returns? && IntConvertible(r.value.id) &&
            AddGeneration(BasicMetadata(image.members).value, generation(IntOf(r.value.id))).raised ==>
              r.value.tags == []
    ensures r.Returns? && IntConvertible(r.value.id) ==>
              var p := AddGeneration(BasicMetadata(image.members).value, generation(IntOf(r.value.id)));
              var t := tags(IntOf(r.value.id));
              !p.raised && TagList(t) ==>
                && |r.value.tags| == |t.elems|
                && forall i :: 0 <= i < |t.elems| ==>
                     r.value.tags[i] == TagRef(Get(t.elems[i].members, "id"), Get(t.elems[i].members, "name"))
  {
    if !image.JObj? then Raises
    else
      var m :- BasicMetadata(image.members);
      if !IntConvertible(m.id) then Returns(m)
      else Returns(Enrich(m, generation(IntOf(m.id)), tags(IntOf(m.id))))
  }

  /** Generation data whose `meta` is a dict gets through every step: the
      prompts exactly when `meta` has them, the models exactly when the
      resources are truthy. */
  lemma AddGenerationComplete(m: ItemMetadata, gen: Json)
    requires Unenriched(m)
    requires gen.JObj? && Truthy(gen) && Get(gen.members, "meta").JObj?
    ensures var p := AddGeneration(m, gen);
            var meta := Get(gen.members, "meta").members;
            && !p.raised
            && p.record.generationData == gen
            && (p.record.prompt.Some? <==> Truthy(JObj(meta)) && HasKey(meta, "prompt"))
            && (p.record.negativePrompt.Some? <==> Truthy(JObj(meta)) && HasKey(meta, "negativePrompt"))
            && (p.record.models.Some? <==> Truthy(Get(gen.members, "resources")))
  {
  }

  /** `Enrich` on well-formed answers: every generation step and the tags
      step get through. */
  lemma EnrichComplete(m: ItemMetadata, gen: Json, t: Json)
    requires Unenriched(m)
    requires gen.JObj? && Truthy(gen) && Get(gen.members, "meta").JObj?
    requires TagList(t)
    ensures var r := Enrich(m, gen, t);
            var meta := Get(gen.members, "meta").members;
            && r.generationData == gen
            && (r.prompt.Some? <==> Truthy(JObj(meta)) && HasKey(meta, "prompt"))
            && (r.negativePrompt.Some? <==> Truthy(JObj(meta)) && HasKey(meta, "negativePrompt"))
            && (r.models.Some? <==> Truthy(Get(gen.members, "resources")))
            && |r.tags| == |t.elems|
            && forall i :: 0 <= i < |t.elems| ==>
                 r.tags[i] == TagRef(Get(t.elems[i].members, "id"), Get(t.elems[i].members, "name"))
  {
    AddGenerationComplete(m, gen);
    assert Truthy(t) ==> TagRefs(t).Returns?;
  }

  /** Well-formed answers yield a fully enriched record: the prompts exactly
      when the generation metadata has them, the models exactly when the
      resources are truthy, and one tag per tag object. */
  lemma ExtractMetadataComplete(image: seq<Member>, generation: int -> Json, tags: int -> Json)
    requires !Truthy(Get(image, "user")) || Get(image, "user").JObj?
    requires IntConvertible(Get(image, "id"))
    requires var g := generation(IntOf(Get(image, "id")));
             g.JObj? && Truthy(g) && Get(g.members, "meta").JObj?
    requires TagList(tags(IntOf(Get(image, "id"))))
    ensures var r := ExtractMetadata(JObj(image), generation, tags);
            var g := generation(IntOf(Get(image, "id")));
            var meta := Get(g.members, "meta").members;
            var t := tags(IntOf(Get(image, "id")));
            && r.Returns?
            && r.value.generationData == g
            && (r.value.prompt.Some? <==> Truthy(JObj(meta)) && HasKey(meta, "prompt"))
            && (r.value.negativePrompt.Some? <==> Truthy(JObj(meta)) && HasKey(meta, "negativePrompt"))
            && (r.value.models.Some? <==> Truthy(Get(g.members, "resources")))
            && |r.value.tags| == |t.elems|
            && forall i :: 0 <= i < |t.elems| ==>
                 r.value.tags[i] == TagRef(Get(t.elems[i].members, "id"), Get(t.elems[i].members, "name"))
  {
    var id := IntOf(Get(image, "id"));
    var m := BasicMetadata(image).value;
    assert m.id == Get(image, "id");
    EnrichComplete(m, generation(id), tags(id));
    assert ExtractMetadata(JObj(image), generation, tags) == Returns(Enrich(m, generation(id), tags(id)));
  }

  /** An exception in the tags step does not undo the generation data. */
  lemma BadTagsKeepGeneration(image: seq<Member>, generation: int -> Json, tags: int -> Json)
    requires !Truthy(Get(image, "user")) || Get(image, "user").JObj?
    requires IntConvertible(Get(image, "id"))
    requires var t := tags(IntOf(Get(image, "id"))); Truthy(t) && !TagList(t)
    ensures var r := ExtractMetadata(JObj(image), generation, tags);
            && r.Returns?
            && r.value.tags == []
            && r.value == AddGeneration(BasicMetadata(image).value, generation(IntOf(Get(image, "id")))).record
  {
  }

  /** The collection record: the fallback when the collection could not be
      fetched, else the fields of the `collection` object with defaults. */
  datatype CollectionMeta =
    | FallbackCollection(id: Json, name: Json, mediaCount: nat, media: seq<ItemMetadata>)
    | FullCollection(
        id: Json, name: Json, description: Json, kind: Json, nsfw: Json, nsfwLevel: Json,
        createdAt: Json, user: UserRef, mediaCount: nat, media: seq<ItemMetadata>)

  /** `{"id": collection_id, "name": f"Collection-{collection_id}", ...}`. */
  function Fallback(collectionId: string, media: seq<ItemMetadata>): (c: CollectionMeta)
    ensures c.mediaCount == |c.media| && c.media == media
    ensures c.FallbackCollection? && c.id == JStr(collectionId) && c.name == JStr("Collection-" + collectionId)
  {
    FallbackCollection(JStr(collectionId), JStr("Collection-" + collectionId), |media|, media)
  }

  /** `create_collection_metadata(api, collection_id, items)`, where
      `response` is what `get_collection_by_id` returns. That call starts
      with `int(collection_id)`; `.get` on a non-dict response, `collection`
      value or `user` value raises. */
  function CreateCollectionMetadata(collectionId: string, response: Json, media: seq<ItemMetadata>): (r: Outcome<CollectionMeta>)
    ensures r.Returns? ==> r.value.mediaCount == |media| && r.value.media == media
    ensures !IsIntLiteral(collectionId) ==> r.Raises?
    ensures IsIntLiteral(collectionId) && !Truthy(response) ==> r == Returns(Fallback(collectionId, media))
    ensures r.Returns? ==> (r.value.FallbackCollection? <==> !Truthy(response))
    ensures r.Returns? && r.value.FullCollection? ==>
              response.JObj? && GetOr(response.members, "collection", JObj([])).JObj?
    ensures r.Raises? <==>
              || !IsIntLiteral(collectionId)
              || (Truthy(response) && !response.JObj?)
              || (Truthy(response) && response.JObj? &&
                  var c := GetOr(response.members, "collection", JObj([]));
                  !c.JObj? || !GetOr(c.members, "user", JObj([])).JObj?)
    ensures r.Returns? && r.value.FullCollection? ==>
              var c := GetOr(response.members, "collection", JObj([])).members;
              && (HasKey(c, "id") ==> r.value.id == Get(c, "id"))
              && (!HasKey(c, "id") ==> r.value.id == JStr(collectionId))
              && (!HasKey(c, "name") ==> r.value.name == JStr("Collection-" + collectionId))
              && (!HasKey(c, "description") ==> r.value.description == JStr(""))
    ensures r.Returns? && r.value.FullCollection? ==>
              var c := GetOr(response.members, "collection", JObj([])).members;
              && (HasKey(c, "name") ==> r.value.name == Get(c, "name"))
              && (HasKey(c, "description") ==> r.value.description == Get(c, "description"))
              && r.value.kind == Get(c, "type") && r.value.nsfw == Get(c, "nsfw")
              && r.value.nsfwLevel == Get(c, "nsfwLevel") && r.value.createdAt == Get(c, "createdAt")
    ensures r.Returns? && r.value.FullCollection? ==>
              var c := GetOr(response.members, "collection", JObj([])).members;
              var u := GetOr(c, "user", JObj([]));
              u.JObj? && r.value.user == UserRef(Get(u.members, "id"), Get(u.members, "username"))
  {
    if !IsIntLiteral(collectionId) then Raises
    else if !Truthy(response) then Returns(Fallback(collectionId, media))
    else if !response.JObj? then Raises
    else
      var c := GetOr(response.members, "collection", JObj([]));
      if !c.JObj? then Raises
      else
        var user := GetOr(c.members, "user", JObj([]));
        if !user.JObj? then Raises
        else
          Returns(FullCollection(
            GetOr(c.members, "id", JStr(collectionId)),
            GetOr(c.members, "name", JStr("Collection-" + collectionId)),
            GetOr(c.members, "description", JStr("")),
            Get(c.members, "type"), Get(c.members, "nsfw"), Get(c.members, "nsfwLevel"),
            Get(c.members, "createdAt"),
            UserRef(Get(user.members, "id"), Get(user.members, "username")),
            |media|, media))
  }

  /** A `collection` object without `id` and `name` yields the same id,
      name, count and media as the fallback, and without `user` a user of
      `None` fields. */
  lemma EmptyCollectionLikeFallback(collectionId: string, response: Json, media: seq<ItemMetadata>)
    requires IsIntLiteral(collectionId)
    requires response.JObj? && HasKey(response.members, "collection")
    requires var c := Get(response.members, "collection");
             && c.JObj? && !HasKey(c.members, "id") && !HasKey(c.members, "name")
             && GetOr(c.members, "user", JObj([])).JObj?
    ensures var r := CreateCollectionMetadata(collectionId, response, media);
            var f := Fallback(collectionId, media);
            && r.Returns? && r.value.FullCollection?
            && r.value.id == f.id && r.value.name == f.name
            && r.value.mediaCount == f.mediaCount && r.value.media == f.media
            && (!HasKey(Get(response.members, "collection").members, "user") ==>
                  r.value.user == UserRef(JNull, JNull))
  {
  }

  /** The record main.py writes for a post. */
  datatype PostMeta = PostMeta(id: string, title: Json, mediaCount: nat, media: seq<ItemMetadata>)
}
