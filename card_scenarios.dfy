/** Whole interactions with the card and its editor, each driven through
    the card's own operations from a fresh card. */
module CardScenarios {
  import opened Json
  import opened JsRules
  import opened BrowserCard
  import CardEditor

  /** A configuration with server "http://h" and key "k". */
  function TripConfig(): Json
  {
    JObj(map["immich_url" := JStr("http://h"), "api_key" := JStr("k")])
  }

  /** The album list's one entry, and the album the card makes of it. */
  function TripEntry(): Json
  {
    JObj(map["id" := JStr("a1"), "albumName" := JStr("Trip"), "assetCount" := JNum(3),
             "albumThumbnailAssetId" := JStr("t1")])
  }

  function TripAlbum(): Album
  {
    Album(Some(JStr("a1")), JStr("Trip"), JNum(3), Some(JStr("t1")))
  }

  lemma TripFetched()
    ensures FetchedAlbums(Http(200, Some(JArr([TripEntry()])))) == Some([TripAlbum()])
  {
    var entry := TripEntry();
    assert Prop(entry, "albumName") == Some(JStr("Trip")) && Prop(entry, "assetCount") == Some(JNum(3));
    assert NormaliseAlbum(entry) == Ok(TripAlbum());
    var shaped := NormaliseAlbums([entry]);
    assert shaped.Ok? && |shaped.value| == 1 && NormaliseAlbum([entry][0]) == Ok(shaped.value[0]);
    assert shaped.value == [shaped.value[0]];
  }

  lemma TripThumbnail(config: map<string, Json>, id: string)
    requires Lookup(config, "immich_url") == Some(JStr("http://h")) && Lookup(config, "api_key") == Some(JStr("k"))
    ensures ThumbnailUrl(config, Some(JStr(id))) == "http://h/api/assets/" + id + "/thumbnail?key=k"
  {
  }

  lemma TripRequests(config: map<string, Json>)
    requires Lookup(config, "immich_url") == Some(JStr("http://h")) && Lookup(config, "api_key") == Some(JStr("k"))
    ensures AlbumListRequest(config) == Request("GET", "http://h/api/albums", "k", None)
    ensures RecentRequest(config) == Request("POST", "http://h/api/search/metadata", "k",
                                             Some(map["size" := JNum(50), "order" := JStr("desc")]))
  {
    TripServer(config);
    assert "http://h" + "/api/albums" == "http://h/api/albums";
    assert "http://h" + "/api/search/metadata" == "http://h/api/search/metadata";
  }

  lemma TripServer(config: map<string, Json>)
    requires Lookup(config, "immich_url") == Some(JStr("http://h")) && Lookup(config, "api_key") == Some(JStr("k"))
    ensures ServerUrl(config) == "http://h" && ApiKey(config) == "k"
  {
    assert Lookup(config, "immich_url") == Some(JStr("http://h"));
  }

  lemma TripGrid(config: map<string, Json>)
    requires Lookup(config, "immich_url") == Some(JStr("http://h")) && Lookup(config, "api_key") == Some(JStr("k"))
    ensures BodyOf(config, false, "albums", [TripAlbum()], [])
            == AlbumGrid([AlbumTile(Some("http://h/api/assets/t1/thumbnail?key=k"), JStr("Trip"), JNum(3))])
  {
    TripThumbnail(config, "t1");
    assert "http://h/api/assets/" + "t1" + "/thumbnail?key=k" == "http://h/api/assets/t1/thumbnail?key=k";
    var b := BodyOf(config, false, "albums", [TripAlbum()], []);
    assert !Falsy(TripAlbum().thumbnailId);
    assert b.albumTiles[0] == AlbumTileOf(config, TripAlbum());
    assert b.albumTiles == [b.albumTiles[0]];
  }

  /** The album list answers one album, "Trip", of 3 assets with a cover:
      the grid then shows exactly that album with its thumbnail. */
  method TripAlbumGrid() returns (sent: Option<Request>, shown: Rendering)
    ensures sent == Some(Request("GET", "http://h/api/albums", "k", None))
    ensures shown.CardView?
    ensures shown.body == AlbumGrid([AlbumTile(Some("http://h/api/assets/t1/thumbnail?key=k"), JStr("Trip"), JNum(3))])
  {
    var card := new ImmichBrowserCard();
    var thrown := card.SetConfig(Some(TripConfig()));
    var config := MergedConfig(TripConfig());
    assert Lookup(config, "immich_url") == Some(JStr("http://h")) && Lookup(config, "api_key") == Some(JStr("k"));
    TripFetched();
    TripRequests(config);
    sent := card.LoadAlbums(Http(200, Some(JArr([TripEntry()]))));
    assert card.albums == [TripAlbum()] && card.assets == [] && card.view == "albums" && !card.loading;
    TripGrid(config);
    shown := card.Render(Some([]));
  }

  /** The recent search's one item, and the asset the card makes of it. */
  function VideoItem(): Json
  {
    JObj(map["id" := JStr("x"), "type" := JStr("VIDEO"), "originalFileName" := JStr("v.mp4")])
  }

  function VideoAsset(): Asset
  {
    Asset(Some(JStr("x")), JStr("VIDEO"), JStr("v.mp4"), JStr(""))
  }

  function VideoSearch(): Json
  {
    JObj(map["assets" := JObj(map["items" := JArr([VideoItem()])])])
  }

  lemma VideoFetched()
    ensures FetchedRecentAssets(Http(200, Some(VideoSearch()))) == Some([VideoAsset()])
  {
    var item := VideoItem();
    assert RecentItems(VideoSearch()) == Some(JArr([item]));
    assert Prop(item, "type") == Some(JStr("VIDEO")) && Prop(item, "fileCreatedAt") == None;
    assert NormaliseAsset(item) == Ok(VideoAsset());
    var shaped := NormaliseAssets([item]);
    assert shaped.Ok? && |shaped.value| == 1 && NormaliseAsset([item][0]) == Ok(shaped.value[0]);
    assert shaped.value == [shaped.value[0]];
  }

  lemma VideoGrid(config: map<string, Json>)
    requires Lookup(config, "immich_url") == Some(JStr("http://h")) && Lookup(config, "api_key") == Some(JStr("k"))
    ensures BodyOf(config, false, "photos", [], [VideoAsset()])
            == PhotoGrid([PhotoTile("http://h/api/assets/x/thumbnail?key=k", JStr("v.mp4"), true)])
  {
    TripThumbnail(config, "x");
    assert "http://h/api/assets/" + "x" + "/thumbnail?key=k" == "http://h/api/assets/x/thumbnail?key=k";
    var b := BodyOf(config, false, "photos", [], [VideoAsset()]);
    assert b.photoTiles[0] == PhotoTileOf(config, VideoAsset());
    assert b.photoTiles == [b.photoTiles[0]];
  }

  /** The recent search answers one video: the grid shows one tile, with
      the video badge. */
  method RecentVideoTile() returns (sent: Option<Request>, shown: Rendering)
    ensures sent == Some(Request("POST", "http://h/api/search/metadata", "k",
                                 Some(map["size" := JNum(50), "order" := JStr("desc")])))
    ensures shown.CardView? && shown.toolbar == BackBar(JStr("Recent Photos"))
    ensures shown.body == PhotoGrid([PhotoTile("http://h/api/assets/x/thumbnail?key=k", JStr("v.mp4"), true)])
  {
    var card := new ImmichBrowserCard();
    var thrown := card.SetConfig(Some(TripConfig()));
    var config := MergedConfig(TripConfig());
    assert Lookup(config, "immich_url") == Some(JStr("http://h")) && Lookup(config, "api_key") == Some(JStr("k"));
    VideoFetched();
    TripRequests(config);
    sent := card.LoadRecent(Http(200, Some(VideoSearch())));
    assert card.assets == [VideoAsset()] && card.view == "photos" && card.selectedAlbum.None? && !card.loading;
    VideoGrid(config);
    shown := card.Render(Some([]));
  }

  /** Opening an asset in the lightbox and closing it again changes
      nothing but the lightbox, which ends closed. */
  method LightboxIsAdditive(card: ImmichBrowserCard, asset: Asset)
    requires card.Valid()
    modifies card
    ensures card.Valid()
    ensures card.lightboxAsset.None?
    ensures card.view == old(card.view) && card.assets == old(card.assets) && card.albums == old(card.albums)
    ensures card.selectedAlbum == old(card.selectedAlbum) && card.loading == old(card.loading)
    ensures card.config == old(card.config)
  {
    card.OpenLightbox(asset);
    card.CloseLightbox();
  }

  /** Returning to the albums after opening one keeps the album list and
      forgets the album's photos, whatever was shown before. */
  method BackToAlbums(card: ImmichBrowserCard, album: Album, resp: Response)
    requires card.Valid()
    modifies card
    ensures card.Valid()
    ensures card.view == "albums" && card.assets == [] && card.selectedAlbum.None?
    ensures card.albums == old(card.albums) && !card.loading
  {
    var sent := card.OpenAlbum(album, resp);
    card.GoToAlbums();
  }

  /** A columns field holding "abc" stores the default of four columns. */
  method ColumnsFromText() returns (event: Option<map<string, Json>>)
    ensures event.Some? && "columns" in event.value && event.value["columns"] == JNum(4)
  {
    var editor := new CardEditor.ImmichBrowserCardEditor();
    editor.SetConfig(Some(TripConfig()));
    ParseIntOfLetters("abc");
    event := editor.OnColumnsInput("abc");
  }
}
