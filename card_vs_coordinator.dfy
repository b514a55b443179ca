/** The card and the coordinator each talk to the same photo server and
    each reshape its answers.  This module states where the two agree and
    where they differ: the card falls back to a default on any falsy
    field, the coordinator only on a missing one, and the card's thumbnail
    URLs carry the API key in the query while the coordinator's do not. */
module CardVersusCoordinator {
  import opened Json
  import JsRules
  import BrowserCard
  import Coordinator

  /** A field on which `a[key] || fallback` and `a.get(key, fallback)`
      give the same value: it is missing, truthy, or the fallback itself. */
  predicate SameEitherWay(a: map<string, Json>, key: string, fallback: Json)
  {
    key !in a || !JsRules.Falsy(Some(a[key])) || a[key] == fallback
  }

  /** The two album shapings agree on a field exactly when it is missing,
      truthy or already the fallback; so a falsy name always differs. */
  lemma AlbumFieldsAgreeIff(a: map<string, Json>)
    requires "id" in a
    ensures BrowserCard.NormaliseAlbum(JObj(a)).Ok? && Coordinator.ReshapeAlbum(a).Ok?
    ensures BrowserCard.NormaliseAlbum(JObj(a)).value.id == Some(Coordinator.ReshapeAlbum(a).value.id)
    ensures BrowserCard.NormaliseAlbum(JObj(a)).value.name == Coordinator.ReshapeAlbum(a).value.name
            <==> SameEitherWay(a, "albumName", JStr("Untitled"))
    ensures BrowserCard.NormaliseAlbum(JObj(a)).value.count == Coordinator.ReshapeAlbum(a).value.count
            <==> SameEitherWay(a, "assetCount", JNum(0))
  {
  }

  /** An album the card shows as "Untitled" with 0 items while the
      coordinator keeps its empty name and null count. */
  lemma FalsyAlbumFieldsDiffer()
    ensures var a := map["id" := JStr("a1"), "albumName" := JStr(""), "assetCount" := JNull];
            BrowserCard.NormaliseAlbum(JObj(a)).value.name == JStr("Untitled") &&
            Coordinator.ReshapeAlbum(a).value.name == JStr("") &&
            BrowserCard.NormaliseAlbum(JObj(a)).value.count == JNum(0) &&
            Coordinator.ReshapeAlbum(a).value.count == JNull
  {
  }

  /** The two asset shapings agree on a field exactly when it is missing,
      truthy or already the fallback. */
  lemma AssetFieldsAgreeIff(a: map<string, Json>)
    requires "id" in a
    ensures BrowserCard.NormaliseAsset(JObj(a)).Ok? && Coordinator.ReshapeAsset(a).Ok?
    ensures BrowserCard.NormaliseAsset(JObj(a)).value.id == Some(Coordinator.ReshapeAsset(a).value.id)
    ensures BrowserCard.NormaliseAsset(JObj(a)).value.assetType == Coordinator.ReshapeAsset(a).value.assetType
            <==> SameEitherWay(a, "type", JStr("IMAGE"))
    ensures BrowserCard.NormaliseAsset(JObj(a)).value.originalFileName == Coordinator.ReshapeAsset(a).value.originalFileName
            <==> SameEitherWay(a, "originalFileName", JStr(""))
    ensures BrowserCard.NormaliseAsset(JObj(a)).value.createdAt == Coordinator.ReshapeAsset(a).value.createdAt
            <==> SameEitherWay(a, "fileCreatedAt", JStr(""))
  {
  }

  /** A configuration naming the coordinator's server and key. */
  predicate SameServer(config: map<string, Json>, coord: Coordinator.ImmichBrowserCoordinator)
  {
    Lookup(config, "immich_url") == Some(JStr(coord.immichUrl)) &&
    Lookup(config, "api_key") == Some(JStr(coord.apiKey))
  }

  /** For the same server, the card's thumbnail URL is the coordinator's
      with the key appended as a query parameter. */
  lemma ThumbnailUrlsDifferByKey(config: map<string, Json>, coord: Coordinator.ImmichBrowserCoordinator, assetId: string)
    requires SameServer(config, coord)
    ensures BrowserCard.ThumbnailUrl(config, Some(JStr(assetId))) == coord.AssetThumbnailUrl(assetId) + "?key=" + coord.apiKey
  {
    var server, key := coord.immichUrl, coord.apiKey;
    assert BrowserCard.ServerUrl(config) == server && BrowserCard.ApiKey(config) == key;
    assert JsRules.ToStr(Some(JStr(assetId))) == assetId;
    assert "/" + "thumbnail" == "/thumbnail";
    assert coord.AssetThumbnailUrl(assetId) == server + "/api/assets/" + assetId + "/thumbnail";
    assert BrowserCard.ThumbnailUrl(config, Some(JStr(assetId)))
        == server + "/api/assets/" + assetId + "/" + "thumbnail" + "?key=" + key;
  }

  /** For the same server, the card and the coordinator send the same
      album requests; the recent search is the coordinator's asked for 50
      assets instead of its default 20. */
  lemma SameRequests(config: map<string, Json>, coord: Coordinator.ImmichBrowserCoordinator, album: BrowserCard.Album, albumId: string)
    requires SameServer(config, coord)
    requires album.id == Some(JStr(albumId))
    ensures BrowserCard.AlbumListRequest(config) == coord.AlbumListRequest()
    ensures BrowserCard.AlbumRequest(config, album) == coord.AlbumRequest(albumId)
    ensures BrowserCard.RecentRequest(config) == coord.RecentRequest(50)
    ensures BrowserCard.RecentRequest(config) != coord.RecentRequest()
  {
    assert coord.RecentRequest().body.value["size"] == JNum(20);
  }

  /** A search answer whose items all have an `id`: the card stores one
      asset per item that the coordinator returns, in the same order and
      with the same ids. */
  lemma RecentAssetsSameIds(coord: Coordinator.ImmichBrowserCoordinator, data: map<string, Json>,
                            results: map<string, Json>, items: seq<Json>)
    requires Lookup(data, "assets") == Some(JObj(results)) && Lookup(results, "items") == Some(JArr(items))
    requires forall i :: 0 <= i < |items| ==> items[i].JObj? && "id" in items[i].fields
    ensures var card := BrowserCard.FetchedRecentAssets(Http(200, Some(JObj(data))));
            var recent := coord.RecentAssets(Http(200, Some(JObj(data))));
            card.Some? && |card.value| == |recent| == |items| &&
            forall i :: 0 <= i < |items| ==> card.value[i].id == Some(recent[i].id)
  {
    var resp := Http(200, Some(JObj(data)));
    assert BrowserCard.RecentItems(JObj(data)) == Some(JArr(items));
    var shaped := BrowserCard.NormaliseAssets(items);
    assert shaped.Ok?;
    var card := BrowserCard.FetchedRecentAssets(resp);
    var recent := coord.RecentAssets(resp);
    forall i | 0 <= i < |items|
      ensures card.value[i].id == Some(recent[i].id)
    {
      AssetFieldsAgreeIff(items[i].fields);
    }
  }

  /** An album whose assets all have an `id`: the card stores every asset,
      and the coordinator's first page holds the first `perPage` of them,
      with the same ids in the same order. */
  lemma AlbumFirstPageSameIds(coord: Coordinator.ImmichBrowserCoordinator, album: map<string, Json>,
                              items: seq<Json>, perPage: int)
    requires Lookup(album, "assets") == Some(JArr(items))
    requires forall i :: 0 <= i < |items| ==> items[i].JObj? && "id" in items[i].fields
    requires perPage >= 0
    ensures var card := BrowserCard.FetchedAlbumAssets(Http(200, Some(JObj(album))));
            var first := coord.AlbumAssets(Http(200, Some(JObj(album))), 1, perPage);
            card.Some? && |card.value| == |items| &&
            |first| == (if perPage <= |items| then perPage else |items|) &&
            forall i :: 0 <= i < |first| ==> card.value[i].id == Some(first[i].id)
  {
    var resp := Http(200, Some(JObj(album)));
    assert BrowserCard.NormaliseAssets(items).Ok?;
    var card := BrowserCard.FetchedAlbumAssets(resp);
    coord.AlbumPageOfValidAlbum(resp, items, 1, perPage);
    assert Coordinator.PageLo(|items|, 1, perPage) == 0;
    var first := coord.AlbumAssets(resp, 1, perPage);
    forall i | 0 <= i < |first|
      ensures card.value[i].id == Some(first[i].id)
    {
      AssetFieldsAgreeIff(items[i].fields);
    }
  }
}
