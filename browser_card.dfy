/** The dashboard card: its view state, the three loads that fill it, the
    shaping of the service's albums and assets, and the choices the
    render makes (which toolbar, which grid, which stats, which lightbox).
    Each load is one atomic step that takes the service's response as an
    input and returns the request it sent. */
module BrowserCard {
  import opened Json
  import opened JsRules

  /** An album as the card keeps it (`{id, name, count, thumbnail_id}`). */
  datatype Album = Album(id: Option<Json>, name: Json, count: Json, thumbnailId: Option<Json>)

  /** An asset as the card keeps it (`{id, type, original_file_name, created_at}`). */
  datatype Asset = Asset(id: Option<Json>, assetType: Json, originalFileName: Json, createdAt: Json)

  const DefaultHeader := "Photo Browser"
  const DefaultColumns := 4
  /** Page size of the recent-photos search. */
  const RecentPageSize := 50
  const StatsPrefix := "sensor.immich_browser"

  // ---- setConfig ---------------------------------------------------------

  /** `{ header: "Photo Browser", columns: 4, ...config }` */
  function MergedConfig(c: Json): (r: map<string, Json>)
    ensures r.Keys == Spread(c).Keys + {"header", "columns"}
    ensures forall k :: k in Spread(c) ==> r[k] == Spread(c)[k]
    ensures "header" !in Spread(c) ==> r["header"] == JStr(DefaultHeader)
    ensures "columns" !in Spread(c) ==> r["columns"] == JNum(DefaultColumns)
  {
    map["header" := JStr(DefaultHeader), "columns" := JNum(DefaultColumns)] + Spread(c)
  }

  /** Setting the stored configuration again stores the same configuration. */
  lemma MergedConfigIdempotent(c: Json)
    ensures MergedConfig(JObj(MergedConfig(c))) == MergedConfig(c)
  {
    var m := MergedConfig(c);
    assert Spread(JObj(m)) == m;
    assert MergedConfig(JObj(m)).Keys == m.Keys;
  }

  // ---- shaping the service's JSON ---------------------------------------

  /** `({ id: a.id, name: a.albumName || "Untitled", count: a.assetCount || 0,
      thumbnail_id: a.albumThumbnailAssetId })`, which throws on a null entry. */
  function NormaliseAlbum(a: Json): (r: Result<Album, JsError>)
    ensures r.Ok? <==> a != JNull
    ensures r.Ok? ==> r.value.id == Prop(a, "id") && r.value.thumbnailId == Prop(a, "albumThumbnailAssetId")
    ensures r.Ok? && Falsy(Prop(a, "albumName")) ==> r.value.name == JStr("Untitled")
    ensures r.Ok? && !Falsy(Prop(a, "albumName")) ==> Prop(a, "albumName") == Some(r.value.name)
    ensures r.Ok? && Falsy(Prop(a, "assetCount")) ==> r.value.count == JNum(0)
    ensures r.Ok? && !Falsy(Prop(a, "assetCount")) ==> Prop(a, "assetCount") == Some(r.value.count)
  {
    if a == JNull then Err(TypeError)
    else Ok(Album(Prop(a, "id"), Or(Prop(a, "albumName"), JStr("Untitled")),
                  Or(Prop(a, "assetCount"), JNum(0)), Prop(a, "albumThumbnailAssetId")))
  }

  /** `albums.map(...)`: one album per entry, in order; a null entry throws. */
  function NormaliseAlbums(items: seq<Json>): (r: Result<seq<Album>, JsError>)
    ensures r.Ok? <==> forall i :: 0 <= i < |items| ==> items[i] != JNull
    ensures r.Ok? ==> |r.value| == |items| &&
                      forall i :: 0 <= i < |items| ==> NormaliseAlbum(items[i]) == Ok(r.value[i])
  {
    if items == [] then Ok([])
    else match (NormaliseAlbum(items[0]), NormaliseAlbums(items[1..]))
      case (Ok(a), Ok(rest)) => Ok([a] + rest)
      case (Err(e), _) => Err(e)
      case (_, Err(e)) => Err(e)
  }

  /** `({ id: a.id, type: a.type || "IMAGE", original_file_name:
      a.originalFileName || "", created_at: a.fileCreatedAt || "" })` */
  function NormaliseAsset(a: Json): (r: Result<Asset, JsError>)
    ensures r.Ok? <==> a != JNull
    ensures r.Ok? ==> r.value.id == Prop(a, "id")
    ensures r.Ok? && Falsy(Prop(a, "type")) ==> r.value.assetType == JStr("IMAGE")
    ensures r.Ok? && !Falsy(Prop(a, "type")) ==> Prop(a, "type") == Some(r.value.assetType)
    ensures r.Ok? && Falsy(Prop(a, "originalFileName")) ==> r.value.originalFileName == JStr("")
    ensures r.Ok? && !Falsy(Prop(a, "originalFileName")) ==> Prop(a, "originalFileName") == Some(r.value.originalFileName)
    ensures r.Ok? && Falsy(Prop(a, "fileCreatedAt")) ==> r.value.createdAt == JStr("")
    ensures r.Ok? && !Falsy(Prop(a, "fileCreatedAt")) ==> Prop(a, "fileCreatedAt") == Some(r.value.createdAt)
  {
    if a == JNull then Err(TypeError)
    else Ok(Asset(Prop(a, "id"), Or(Prop(a, "type"), JStr("IMAGE")),
                  Or(Prop(a, "originalFileName"), JStr("")), Or(Prop(a, "fileCreatedAt"), JStr(""))))
  }

  /** `items.map(...)` over assets: one asset per entry, in order. */
  function NormaliseAssets(items: seq<Json>): (r: Result<seq<Asset>, JsError>)
    ensures r.Ok? <==> forall i :: 0 <= i < |items| ==> items[i] != JNull
    ensures r.Ok? ==> |r.value| == |items| &&
                      forall i :: 0 <= i < |items| ==> NormaliseAsset(items[i]) == Ok(r.value[i])
  {
    if items == [] then Ok([])
    else match (NormaliseAsset(items[0]), NormaliseAssets(items[1..]))
      case (Ok(a), Ok(rest)) => Ok([a] + rest)
      case (Err(e), _) => Err(e)
      case (_, Err(e)) => Err(e)
  }

  /** `(v || []).map(...)`: a missing or falsy list is no assets; a truthy
      value that is not an array has no `.map` and throws. */
  function AssetList(v: Option<Json>): (r: Result<seq<Asset>, JsError>)
    ensures Falsy(v) ==> r == Ok([])
    ensures !Falsy(v) && !v.value.JArr? ==> r.Err?
    ensures !Falsy(v) && v.value.JArr? ==> r == NormaliseAssets(v.value.items)
  {
    if Falsy(v) then Ok([])
    else match v.value
      case JArr(items) => NormaliseAssets(items)
      case _ => Err(TypeError)
  }

  /** `data.assets?.items`: undefined when `assets` is null or undefined. */
  function RecentItems(data: Json): Option<Json>
    requires data != JNull
  {
    var assets := Prop(data, "assets");
    if assets.None? || assets == Some(JNull) then None else Prop(assets.value, "items")
  }

  /** The albums `_loadAlbums` stores from a response, or None when it keeps
      the old list: the status is not ok, the body is not JSON, or the
      reshaping threw. */
  function FetchedAlbums(resp: Response): (r: Option<seq<Album>>)
    ensures r.Some? <==> resp.Http? && StatusOk(resp.status) && resp.body.Some? && resp.body.value.JArr? &&
                         NormaliseAlbums(resp.body.value.items).Ok?
    ensures r.Some? ==> r == Some(NormaliseAlbums(resp.body.value.items).value)
  {
    match resp
    case Http(status, Some(JArr(items))) =>
      if StatusOk(status) && NormaliseAlbums(items).Ok? then Some(NormaliseAlbums(items).value) else None
    case _ => None
  }

  /** The assets `_openAlbum` stores from a response (`data.assets || []`),
      or None when it keeps the old ones. */
  function FetchedAlbumAssets(resp: Response): (r: Option<seq<Asset>>)
    ensures r.Some? <==> resp.Http? && StatusOk(resp.status) && resp.body.Some? && resp.body.value != JNull &&
                         AssetList(Prop(resp.body.value, "assets")).Ok?
    ensures r.Some? ==> r == Some(AssetList(Prop(resp.body.value, "assets")).value)
  {
    match resp
    case Http(status, Some(data)) =>
      if StatusOk(status) && data != JNull && AssetList(Prop(data, "assets")).Ok?
      then Some(AssetList(Prop(data, "assets")).value) else None
    case _ => None
  }

  /** The assets `_loadRecent` stores from a response (`data.assets?.items
      || []`), or None when it keeps the old ones. */
  function FetchedRecentAssets(resp: Response): (r: Option<seq<Asset>>)
    ensures r.Some? <==> resp.Http? && StatusOk(resp.status) && resp.body.Some? && resp.body.value != JNull &&
                         AssetList(RecentItems(resp.body.value)).Ok?
    ensures r.Some? ==> r == Some(AssetList(RecentItems(resp.body.value)).value)
    ensures forall s :: StatusOk(s) && (resp == Http(s, Some(JObj(map[]))) || resp == Http(s, Some(JObj(map["assets" := JNull]))))
              ==> r == Some([])
  {
    match resp
    case Http(status, Some(data)) =>
      if StatusOk(status) && data != JNull && AssetList(RecentItems(data)).Ok?
      then Some(AssetList(RecentItems(data)).value) else None
    case _ => None
  }

  // ---- requests and URLs -------------------------------------------------

  function ServerUrl(config: map<string, Json>): string
  {
    ToStr(Lookup(config, "immich_url"))
  }

  function ApiKey(config: map<string, Json>): string
  {
    ToStr(Lookup(config, "api_key"))
  }

  function AlbumListRequest(config: map<string, Json>): Request
  {
    Request("GET", ServerUrl(config) + "/api/albums", ApiKey(config), None)
  }

  function AlbumRequest(config: map<string, Json>, album: Album): Request
  {
    Request("GET", ServerUrl(config) + "/api/albums/" + ToStr(album.id), ApiKey(config), None)
  }

  function RecentRequest(config: map<string, Json>): Request
  {
    Request("POST", ServerUrl(config) + "/api/search/metadata", ApiKey(config),
            Some(map["size" := JNum(RecentPageSize), "order" := JStr("desc")]))
  }

  /** `_getThumbnailUrl(assetId, size = "thumbnail")`: the server's asset
      path for the id and size, with the key in the query string. */
  function ThumbnailUrl(config: map<string, Json>, assetId: Option<Json>, size: string := "thumbnail"): (r: string)
    ensures StartsWith(r, ServerUrl(config) + "/api/assets/") && EndsWith(r, "?key=" + ApiKey(config))
    ensures var path := ToStr(assetId) + "/" + size;
            |r| == |ServerUrl(config)| + 12 + |path| + 5 + |ApiKey(config)| &&
            r[|ServerUrl(config)| + 12..|r| - 5 - |ApiKey(config)|] == path
  {
    var path := ToStr(assetId) + "/" + size;
    var r := ServerUrl(config) + "/api/assets/" + ToStr(assetId) + "/" + size + "?key=" + ApiKey(config);
    assert r == (ServerUrl(config) + "/api/assets/") + path + ("?key=" + ApiKey(config));
    r
  }

  // ---- render choices ----------------------------------------------------

  datatype Toolbar =
    | BackBar(title: Json)
    | ViewButtons(albumsActive: bool, recentActive: bool)

  datatype AlbumTile = AlbumTile(thumbnailSrc: Option<string>, title: Json, count: Json)

  datatype PhotoTile = PhotoTile(src: string, alt: Json, videoBadge: bool)

  datatype Body =
    | LoadingIndicator
    | NoAlbums
    | AlbumGrid(albumTiles: seq<AlbumTile>)
    | NoPhotos
    | PhotoGrid(photoTiles: seq<PhotoTile>)

  /** The entity shown in each slot of the stats bar, if any. */
  datatype StatsSlots = StatsSlots(photos: Option<string>, videos: Option<string>, storage: Option<string>)

  datatype Lightbox = Lightbox(src: string, alt: Json)

  datatype Rendering =
    | Blank
    | CardView(header: Option<Json>, toolbar: Toolbar, body: Body, stats: Option<StatsSlots>, lightbox: Option<Lightbox>)

  /** The toolbar: a back button and the album name (or "Recent Photos")
      in the photos view, the two view buttons otherwise. */
  function ToolbarOf(view: string, selected: Option<Album>): (t: Toolbar)
    ensures t.BackBar? <==> view == "photos"
    ensures t.BackBar? && selected.Some? ==> t.title == selected.value.name
    ensures t.BackBar? && selected.None? ==> t.title == JStr("Recent Photos")
    ensures t.ViewButtons? ==> (t.albumsActive <==> view == "albums") && (t.recentActive <==> view == "recent")
  {
    if view == "photos" then BackBar(if selected.Some? then selected.value.name else JStr("Recent Photos"))
    else ViewButtons(view == "albums", view == "recent")
  }

  function AlbumTileOf(config: map<string, Json>, album: Album): AlbumTile
  {
    AlbumTile(if Falsy(album.thumbnailId) then None else Some(ThumbnailUrl(config, album.thumbnailId)),
              album.name, album.count)
  }

  function PhotoTileOf(config: map<string, Json>, asset: Asset): PhotoTile
  {
    PhotoTile(ThumbnailUrl(config, asset.id), asset.originalFileName, asset.assetType == JStr("VIDEO"))
  }

  /** The card body: the loading indicator while loading, else the album
      grid in the albums view, else the photo grid; an empty list shows
      its empty-state message instead of a grid. */
  function BodyOf(config: map<string, Json>, loading: bool, view: string, albums: seq<Album>, assets: seq<Asset>): (b: Body)
    ensures b.LoadingIndicator? <==> loading
    ensures !loading && view == "albums" ==> (b.NoAlbums? <==> albums == []) && (b.AlbumGrid? <==> albums != [])
    ensures !loading && view != "albums" ==> (b.NoPhotos? <==> assets == []) && (b.PhotoGrid? <==> assets != [])
    ensures b.AlbumGrid? ==> |b.albumTiles| == |albums| &&
                             forall i :: 0 <= i < |albums| ==> b.albumTiles[i] == AlbumTileOf(config, albums[i])
    ensures b.PhotoGrid? ==> |b.photoTiles| == |assets| &&
                             forall i :: 0 <= i < |assets| ==> b.photoTiles[i] == PhotoTileOf(config, assets[i])
  {
    if loading then LoadingIndicator
    else if view == "albums" then
      (if albums == [] then NoAlbums else AlbumGrid(seq(|albums|, i requires 0 <= i < |albums| => AlbumTileOf(config, albums[i]))))
    else
      (if assets == [] then NoPhotos else PhotoGrid(seq(|assets|, i requires 0 <= i < |assets| => PhotoTileOf(config, assets[i]))))
  }

  // ---- the stats bar -----------------------------------------------------

  /** `Object.keys(states).filter((e) => e.startsWith(prefix))` */
  function WithPrefix(keys: seq<string>, prefix: string): seq<string>
  {
    if keys == [] then []
    else (if StartsWith(keys[0], prefix) then [keys[0]] else []) + WithPrefix(keys[1..], prefix)
  }

  /** `entities.find((e) => e.endsWith(suffix))` */
  function FindEndingWith(entities: seq<string>, suffix: string): Option<string>
  {
    if entities == [] then None
    else if EndsWith(entities[0], suffix) then Some(entities[0])
    else FindEndingWith(entities[1..], suffix)
  }

  predicate IsStatsEntity(key: string, suffix: string)
  {
    StartsWith(key, StatsPrefix) && EndsWith(key, suffix)
  }

  /** `slot` is the first key, in the order given, that is a stats entity
      with this suffix, and None when there is none. */
  predicate FirstStatsEntity(keys: seq<string>, suffix: string, slot: Option<string>)
  {
    match slot
    case None => forall i :: 0 <= i < |keys| ==> !IsStatsEntity(keys[i], suffix)
    case Some(k) => exists i :: 0 <= i < |keys| && keys[i] == k && IsStatsEntity(k, suffix) &&
                                forall j :: 0 <= j < i ==> !IsStatsEntity(keys[j], suffix)
  }

  /** Filtering by the prefix and then taking the first key with the suffix
      finds the first key that has both. */
  lemma {:induction false} FilterThenFind(keys: seq<string>, suffix: string)
    ensures FirstStatsEntity(keys, suffix, FindEndingWith(WithPrefix(keys, StatsPrefix), suffix))
  {
    if keys == [] {
      return;
    }
    var rest := keys[1..];
    FilterThenFind(rest, suffix);
    var found := FindEndingWith(WithPrefix(rest, StatsPrefix), suffix);
    if IsStatsEntity(keys[0], suffix) {
      assert WithPrefix(keys, StatsPrefix) == [keys[0]] + WithPrefix(rest, StatsPrefix);
      assert FindEndingWith(WithPrefix(keys, StatsPrefix), suffix) == Some(keys[0]);
    } else {
      if StartsWith(keys[0], StatsPrefix) {
        assert WithPrefix(keys, StatsPrefix) == [keys[0]] + WithPrefix(rest, StatsPrefix);
        assert ([keys[0]] + WithPrefix(rest, StatsPrefix))[1..] == WithPrefix(rest, StatsPrefix);
      } else {
        assert WithPrefix(keys, StatsPrefix) == WithPrefix(rest, StatsPrefix);
      }
      assert FindEndingWith(WithPrefix(keys, StatsPrefix), suffix) == found;
      match found
      case None =>
        forall i | 0 <= i < |keys| ensures !IsStatsEntity(keys[i], suffix) {
          if i > 0 { assert keys[i] == rest[i - 1]; }
        }
      case Some(k) =>
        var i :| 0 <= i < |rest| && rest[i] == k && IsStatsEntity(k, suffix) &&
                 forall j :: 0 <= j < i ==> !IsStatsEntity(rest[j], suffix);
        assert keys[i + 1] == k;
        forall j | 0 <= j < i + 1 ensures !IsStatsEntity(keys[j], suffix) {
          if j > 0 { assert keys[j] == rest[j - 1]; }
        }
    }
  }

  lemma {:induction false} WithPrefixEmpty(keys: seq<string>, prefix: string)
    ensures WithPrefix(keys, prefix) == [] <==> forall i :: 0 <= i < |keys| ==> !StartsWith(keys[i], prefix)
  {
    if keys != [] {
      WithPrefixEmpty(keys[1..], prefix);
      if !StartsWith(keys[0], prefix) {
        forall i | 0 <= i < |keys| && (forall j :: 0 <= j < |keys[1..]| ==> !StartsWith(keys[1..][j], prefix))
          ensures !StartsWith(keys[i], prefix)
        {
          if i > 0 { assert keys[i] == keys[1..][i - 1]; }
        }
      }
    }
  }

  /** `_renderStats`, given `Object.keys(hass.states)` in order: nothing
      when no key has the integration's prefix, else for each slot the
      first such key ending in `_photos`, `_videos` or `_storage_used`. */
  function StatsSelection(keys: seq<string>): (r: Option<StatsSlots>)
    ensures r.None? <==> forall i :: 0 <= i < |keys| ==> !StartsWith(keys[i], StatsPrefix)
    ensures r.Some? ==> FirstStatsEntity(keys, "_photos", r.value.photos)
    ensures r.Some? ==> FirstStatsEntity(keys, "_videos", r.value.videos)
    ensures r.Some? ==> FirstStatsEntity(keys, "_storage_used", r.value.storage)
  {
    var entities := WithPrefix(keys, StatsPrefix);
    WithPrefixEmpty(keys, StatsPrefix);
    if entities == [] then None
    else
      FilterThenFind(keys, "_photos");
      FilterThenFind(keys, "_videos");
      FilterThenFind(keys, "_storage_used");
      Some(StatsSlots(FindEndingWith(entities, "_photos"), FindEndingWith(entities, "_videos"),
                      FindEndingWith(entities, "_storage_used")))
  }

  // ---- the card ----------------------------------------------------------

  class ImmichBrowserCard {
    /** `this.config`: undefined until the host calls setConfig. */
    var config: Option<map<string, Json>>
    var view: string
    var albums: seq<Album>
    var assets: seq<Asset>
    var selectedAlbum: Option<Album>
    var loading: bool
    var lightboxAsset: Option<Asset>

    /** The view is one of the two the card ever sets. */
    ghost predicate Valid()
      reads this
    {
      view == "albums" || view == "photos"
    }

    constructor()
      ensures Valid()
      ensures config.None? && view == "albums" && albums == [] && assets == []
      ensures selectedAlbum.None? && !loading && lightboxAsset.None?
    {
      config := None;
      view := "albums";
      albums := [];
      assets := [];
      selectedAlbum := None;
      loading := false;
      lightboxAsset := None;
    }

    /** `setConfig(config)`: throws on a falsy configuration and keeps the
        old one; otherwise stores it over the defaults. */
    method SetConfig(c: Option<Json>) returns (thrown: bool)
      modifies this`config
      ensures thrown <==> Falsy(c)
      ensures thrown ==> config == old(config)
      ensures !thrown ==> config == Some(MergedConfig(c.value))
    {
      if Falsy(c) {
        return true;
      }
      config := Some(MergedConfig(c.value));
      thrown := false;
    }

    /** Both the server URL and the API key are set (truthy). */
    predicate HasCredentials()
      reads this
    {
      config.Some? && !Falsy(Lookup(config.value, "immich_url")) && !Falsy(Lookup(config.value, "api_key"))
    }

    /** `_loadAlbums`: without credentials, clear the albums and send
        nothing; otherwise fetch the album list and keep the old one on any
        failure.  Loading is cleared at the end. */
    method LoadAlbums(resp: Response) returns (sent: Option<Request>)
      requires Valid()
      modifies this`albums, this`loading
      ensures Valid()
      ensures sent.Some? <==> HasCredentials()
      ensures sent.Some? ==> sent.value == AlbumListRequest(config.value)
      ensures config.None? ==> albums == old(albums) && loading == old(loading)
      ensures config.Some? && !HasCredentials() ==> albums == [] && loading == old(loading)
      ensures HasCredentials() ==> !loading
      ensures HasCredentials() && FetchedAlbums(resp).Some? ==> albums == FetchedAlbums(resp).value
      ensures HasCredentials() && FetchedAlbums(resp).None? ==> albums == old(albums)
    {
      if config.None? {
        // `this.config.immich_url` throws before anything changes
        return None;
      }
      if !HasCredentials() {
        albums := [];
        return None;
      }
      loading := true;
      sent := Some(AlbumListRequest(config.value));
      var fetched := FetchedAlbums(resp);
      if fetched.Some? {
        albums := fetched.value;
      }
      loading := false;
    }

    /** `_openAlbum(album)`: switch to the photos view of this album and
        load its assets, keeping the old ones on any failure. */
    method OpenAlbum(album: Album, resp: Response) returns (sent: Option<Request>)
      requires Valid()
      modifies this`selectedAlbum, this`view, this`loading, this`assets
      ensures Valid()
      ensures view == "photos" && selectedAlbum == Some(album) && !loading
      ensures sent.Some? <==> config.Some?
      ensures sent.Some? ==> sent.value == AlbumRequest(config.value, album)
      ensures config.Some? && FetchedAlbumAssets(resp).Some? ==> assets == FetchedAlbumAssets(resp).value
      ensures config.None? || FetchedAlbumAssets(resp).None? ==> assets == old(assets)
    {
      selectedAlbum := Some(album);
      view := "photos";
      loading := true;
      sent := None;
      if config.Some? {
        sent := Some(AlbumRequest(config.value, album));
        var fetched := FetchedAlbumAssets(resp);
        if fetched.Some? {
          assets := fetched.value;
        }
      }
      loading := false;
    }

    /** `_loadRecent`: switch to the photos view with no album selected and
        load the 50 most recent assets, keeping the old ones on any failure. */
    method LoadRecent(resp: Response) returns (sent: Option<Request>)
      requires Valid()
      modifies this`selectedAlbum, this`view, this`loading, this`assets
      ensures Valid()
      ensures view == "photos" && selectedAlbum.None? && !loading
      ensures sent.Some? <==> config.Some?
      ensures sent.Some? ==> sent.value == RecentRequest(config.value)
      ensures config.Some? && FetchedRecentAssets(resp).Some? ==> assets == FetchedRecentAssets(resp).value
      ensures config.None? || FetchedRecentAssets(resp).None? ==> assets == old(assets)
    {
      view := "photos";
      selectedAlbum := None;
      loading := true;
      sent := None;
      if config.Some? {
        sent := Some(RecentRequest(config.value));
        var fetched := FetchedRecentAssets(resp);
        if fetched.Some? {
          assets := fetched.value;
        }
      }
      loading := false;
    }

    /** The toolbar's "Albums" button: `this._view = "albums"` and nothing else. */
    method ShowAlbums()
      requires Valid()
      modifies this`view
      ensures Valid() && view == "albums"
    {
      view := "albums";
    }

    /** `_goToAlbums`: back to the album grid, forgetting the photos. */
    method GoToAlbums()
      requires Valid()
      modifies this`view, this`assets, this`selectedAlbum
      ensures Valid()
      ensures view == "albums" && assets == [] && selectedAlbum.None?
      ensures albums == old(albums) && loading == old(loading) && lightboxAsset == old(lightboxAsset)
    {
      view := "albums";
      assets := [];
      selectedAlbum := None;
    }

    /** `_openLightbox(asset)` */
    method OpenLightbox(asset: Asset)
      requires Valid()
      modifies this`lightboxAsset
      ensures Valid() && lightboxAsset == Some(asset)
    {
      lightboxAsset := Some(asset);
    }

    /** `_closeLightbox()` */
    method CloseLightbox()
      requires Valid()
      modifies this`lightboxAsset
      ensures Valid() && lightboxAsset.None?
    {
      lightboxAsset := None;
    }

    /** `render()`, given `Object.keys(hass.states)` when the host has set
        `hass`: nothing without `hass` or a configuration; else the
        toolbar, the body, the stats bar and the lightbox overlay. */
    function Render(hassStates: Option<seq<string>>): (r: Rendering)
      reads this
      ensures r.Blank? <==> hassStates.None? || config.None?
      ensures r.CardView? ==> r.header == Lookup(config.value, "header")
      ensures r.CardView? ==> (r.toolbar.BackBar? <==> view == "photos")
      ensures Valid() && r.CardView? && r.toolbar.ViewButtons? ==> r.toolbar.albumsActive && !r.toolbar.recentActive
      ensures r.CardView? ==> (r.body.LoadingIndicator? <==> loading)
      ensures r.CardView? && !loading ==> (view == "albums" <==> r.body.AlbumGrid? || r.body.NoAlbums?)
      ensures r.CardView? && r.body.AlbumGrid? ==> |r.body.albumTiles| == |albums|
      ensures r.CardView? && r.body.PhotoGrid? ==> |r.body.photoTiles| == |assets|
      ensures r.CardView? ==> (r.stats.None? <==> forall i :: 0 <= i < |hassStates.value| ==> !StartsWith(hassStates.value[i], StatsPrefix))
      ensures r.CardView? ==> (r.lightbox.Some? <==> lightboxAsset.Some?)
      ensures r.CardView? && r.lightbox.Some? ==>
                r.lightbox.value == Lightbox(ThumbnailUrl(config.value, lightboxAsset.value.id, "preview"),
                                             lightboxAsset.value.originalFileName)
    {
      if hassStates.None? || config.None? then Blank
      else
        var c := config.value;
        CardView(Lookup(c, "header"), ToolbarOf(view, selectedAlbum), BodyOf(c, loading, view, albums, assets),
                 StatsSelection(hassStates.value),
                 if lightboxAsset.Some?
                 then Some(Lightbox(ThumbnailUrl(c, lightboxAsset.value.id, "preview"), lightboxAsset.value.originalFileName))
                 else None)
    }
  }
}
