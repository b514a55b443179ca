/** The integration's data coordinator: it polls the server statistics and
    the album list, and fetches album contents and recent assets on
    demand.  Each HTTP call is an input `Response`; the requests are what
    the coordinator sends. */
module Coordinator {
  import opened Json
  import opened PyRules

  /** One album as the coordinator publishes it. */
  datatype AlbumRecord = AlbumRecord(id: Json, name: Json, count: Json, thumbnailId: Json)

  /** One asset as the coordinator returns it. */
  datatype AssetRecord = AssetRecord(id: Json, assetType: Json, originalFileName: Json, createdAt: Json)

  /** The polled data: totals over all users, and the album list. */
  datatype CoordinatorData = CoordinatorData(photos: int, videos: int, usageBytes: int, albums: seq<AlbumRecord>)

  /** Any exception while polling surfaces as UpdateFailed. */
  datatype UpdateFailed = UpdateFailed(cause: PyError)

  /** `{"id": a["id"], "name": a.get("albumName", "Untitled"), ...}` */
  function ReshapeAlbum(a: map<string, Json>): (r: Result<AlbumRecord, PyError>)
    ensures r.Ok? <==> "id" in a
    ensures r.Ok? ==> r.value.id == a["id"]
    ensures r.Ok? && "albumName" in a ==> r.value.name == a["albumName"]
    ensures r.Ok? && "albumName" !in a ==> r.value.name == JStr("Untitled")
    ensures r.Ok? && "assetCount" in a ==> r.value.count == a["assetCount"]
    ensures r.Ok? && "assetCount" !in a ==> r.value.count == JNum(0)
    ensures r.Ok? && "albumThumbnailAssetId" in a ==> r.value.thumbnailId == a["albumThumbnailAssetId"]
    ensures r.Ok? && "albumThumbnailAssetId" !in a ==> r.value.thumbnailId == JNull
  {
    if "id" !in a then Err(KeyError)
    else Ok(AlbumRecord(a["id"], PyGet(a, "albumName", JStr("Untitled")), PyGet(a, "assetCount", JNum(0)),
                        PyGet(a, "albumThumbnailAssetId", JNull)))
  }

  /** The album list comprehension: the first album without "id" aborts it. */
  function ReshapeAlbums(records: seq<map<string, Json>>): (r: Result<seq<AlbumRecord>, PyError>)
    ensures r.Ok? <==> forall i :: 0 <= i < |records| ==> "id" in records[i]
    ensures r.Ok? ==> |r.value| == |records| &&
                      forall i :: 0 <= i < |records| ==> ReshapeAlbum(records[i]) == Ok(r.value[i])
  {
    if records == [] then Ok([])
    else match (ReshapeAlbum(records[0]), ReshapeAlbums(records[1..]))
      case (Ok(a), Ok(rest)) => Ok([a] + rest)
      case (Err(e), _) => Err(e)
      case (_, Err(e)) => Err(e)
  }

  /** `{"id": a["id"], "type": a.get("type", "IMAGE"), ...}` */
  function ReshapeAsset(a: map<string, Json>): (r: Result<AssetRecord, PyError>)
    ensures r.Ok? <==> "id" in a
    ensures r.Ok? ==> r.value.id == a["id"]
    ensures r.Ok? && "type" in a ==> r.value.assetType == a["type"]
    ensures r.Ok? && "type" !in a ==> r.value.assetType == JStr("IMAGE")
    ensures r.Ok? && "originalFileName" in a ==> r.value.originalFileName == a["originalFileName"]
    ensures r.Ok? && "originalFileName" !in a ==> r.value.originalFileName == JStr("")
    ensures r.Ok? && "fileCreatedAt" in a ==> r.value.createdAt == a["fileCreatedAt"]
    ensures r.Ok? && "fileCreatedAt" !in a ==> r.value.createdAt == JStr("")
  {
    if "id" !in a then Err(KeyError)
    else Ok(AssetRecord(a["id"], PyGet(a, "type", JStr("IMAGE")), PyGet(a, "originalFileName", JStr("")),
                        PyGet(a, "fileCreatedAt", JStr(""))))
  }

  /** An asset list comprehension: the first asset without "id" aborts it. */
  function ReshapeAssets(records: seq<map<string, Json>>): (r: Result<seq<AssetRecord>, PyError>)
    ensures r.Ok? <==> forall i :: 0 <= i < |records| ==> "id" in records[i]
    ensures r.Ok? ==> |r.value| == |records| &&
                      forall i :: 0 <= i < |records| ==> ReshapeAsset(records[i]) == Ok(r.value[i])
  {
    if records == [] then Ok([])
    else match (ReshapeAsset(records[0]), ReshapeAssets(records[1..]))
      case (Ok(a), Ok(rest)) => Ok([a] + rest)
      case (Err(e), _) => Err(e)
      case (_, Err(e)) => Err(e)
  }

  // ---- statistics -------------------------------------------------------

  /** What one user entry adds to a total: `user.get(key, 0)`, which must be
      an int (or a bool). */
  function UsageField(user: map<string, Json>, key: string): Option<int>
  {
    PyNumber(PyGet(user, key, JNum(0)))
  }

  /** A user entry the `+=` loop gets through without raising. */
  predicate Countable(user: map<string, Json>)
  {
    UsageField(user, "photos").Some? && UsageField(user, "videos").Some? && UsageField(user, "usage").Some?
  }

  /** The total of one field over the users, a missing field counting 0. */
  function FieldTotal(users: seq<map<string, Json>>, key: string): int
  {
    if users == [] then 0
    else
      var last := users[|users| - 1];
      FieldTotal(users[..|users| - 1], key) + (if UsageField(last, key).Some? then UsageField(last, key).value else 0)
  }

  /** Totals add up over consecutive runs of users. */
  lemma {:induction false} FieldTotalAppend(xs: seq<map<string, Json>>, ys: seq<map<string, Json>>, key: string)
    ensures FieldTotal(xs + ys, key) == FieldTotal(xs, key) + FieldTotal(ys, key)
  {
    if ys == [] {
      assert xs + ys == xs;
    } else {
      assert (xs + ys)[..|xs + ys| - 1] == xs + ys[..|ys| - 1];
      FieldTotalAppend(xs, ys[..|ys| - 1], key);
    }
  }

  /** A user entry without the field changes nothing in its total. */
  lemma MissingFieldCountsZero(xs: seq<map<string, Json>>, user: map<string, Json>, ys: seq<map<string, Json>>, key: string)
    requires key !in user
    ensures FieldTotal(xs + [user] + ys, key) == FieldTotal(xs + ys, key)
  {
    FieldTotalAppend(xs + [user], ys, key);
    FieldTotalAppend(xs, ys, key);
    assert (xs + [user])[..|xs + [user]| - 1] == xs;
  }

  /** With no negative field values the totals are not negative. */
  lemma {:induction false} FieldTotalNonNegative(users: seq<map<string, Json>>, key: string)
    requires forall i :: 0 <= i < |users| ==> UsageField(users[i], key).Some? ==> UsageField(users[i], key).value >= 0
    ensures FieldTotal(users, key) >= 0
  {
    if users != [] {
      FieldTotalNonNegative(users[..|users| - 1], key);
    }
  }

  /** Every user entry gets through the `+=` loop. */
  predicate AllCountable(users: seq<map<string, Json>>)
  {
    forall i :: 0 <= i < |users| ==> Countable(users[i])
  }

  lemma FieldTotalStep(users: seq<map<string, Json>>, i: nat, key: string)
    requires i < |users| && UsageField(users[i], key).Some?
    ensures FieldTotal(users[..i + 1], key) == FieldTotal(users[..i], key) + UsageField(users[i], key).value
  {
    assert users[..i + 1][..i] == users[..i];
  }

  lemma AllCountableStep(users: seq<map<string, Json>>, i: nat)
    requires i < |users| && AllCountable(users[..i]) && Countable(users[i])
    ensures AllCountable(users[..i + 1])
  {
    assert forall k :: 0 <= k < i ==> users[..i + 1][k] == users[..i][k];
  }

  /** The user entries of the statistics response: `stats.get("usageByUser", [])`
      iterated, on status 200 only; any other status contributes none. */
  function UsersOf(resp: Response): Result<seq<map<string, Json>>, PyError>
  {
    match resp
    case NetErr => Err(ClientError)
    case Http(status, body) =>
      if status != 200 then Ok([])
      else match body
        case None => Err(DecodeError)
        case Some(JObj(stats)) => PyDicts(PyGet(stats, "usageByUser", JArr([])))
        case Some(_) => Err(AttributeError)
  }

  /** The album list of the albums response, on status 200 only. */
  function AlbumsOf(resp: Response): Result<seq<AlbumRecord>, PyError>
  {
    match resp
    case NetErr => Err(ClientError)
    case Http(status, body) =>
      if status != 200 then Ok([])
      else match body
        case None => Err(DecodeError)
        case Some(albums) =>
          match PyDicts(albums)
          case Err(e) => Err(e)
          case Ok(records) => ReshapeAlbums(records)
  }

  /** `get_thumbnail_url`: the server's asset path for the id, ending in
      `/thumbnail`; the id can be read back from between the two. */
  function ThumbnailUrl(immichUrl: string, assetId: string): (r: string)
    ensures StartsWith(r, immichUrl + "/api/assets/") && EndsWith(r, "/thumbnail")
    ensures |r| == |immichUrl| + 12 + |assetId| + 10 && r[|immichUrl| + 12..|r| - 10] == assetId
  {
    var r := immichUrl + "/api/assets/" + assetId + "/thumbnail";
    assert r == (immichUrl + "/api/assets/") + assetId + "/thumbnail";
    assert r[..|immichUrl| + 12] == immichUrl + "/api/assets/";
    r
  }

  /** The URL has no query part: no `?`, so no `key=` parameter. */
  lemma ThumbnailUrlHasNoQuery(immichUrl: string, assetId: string)
    requires '?' !in immichUrl && '?' !in assetId
    ensures '?' !in ThumbnailUrl(immichUrl, assetId)
  {
    var tail := "/api/assets/" + assetId + "/thumbnail";
    assert '?' !in "/api/assets/" && '?' !in "/thumbnail";
    assert '?' !in "/api/assets/" + assetId;
    assert '?' !in tail;
    assert ThumbnailUrl(immichUrl, assetId) == immichUrl + tail;
  }

  /** The bounds `async_get_album_assets` slices with. */
  function PageStart(page: int, perPage: int): int
  {
    (page - 1) * perPage
  }

  /** One page of a list: `items[(page-1)*per_page : (page-1)*per_page + per_page]`. */
  function Page<T>(items: seq<T>, page: int, perPage: int): seq<T>
  {
    PySlice(items, PageStart(page, perPage), PageStart(page, perPage) + perPage)
  }

  /** A page from 1 on is the run of items it names, cut off at the end of
      the list, and holds at most `perPage` of them. */
  lemma PageIsWindow<T>(items: seq<T>, page: int, perPage: int)
    requires page >= 1 && perPage >= 0
    ensures var lo := PageStart(page, perPage);
            var lo' := if lo <= |items| then lo else |items|;
            var hi := if lo + perPage <= |items| then lo + perPage else |items|;
            Page(items, page, perPage) == items[lo'..hi]
    ensures |Page(items, page, perPage)| <= perPage
  {
    assert PageStart(page, perPage) >= 0 by {
      assert (page - 1) * perPage >= 0 by { MulNonNegative(page - 1, perPage); }
    }
  }

  /** Where page `page` begins and ends in a list of `n` items. */
  function PageLo(n: nat, page: int, perPage: int): int
  {
    if PageStart(page, perPage) <= n then PageStart(page, perPage) else n
  }

  function PageHi(n: nat, page: int, perPage: int): int
  {
    if PageStart(page, perPage) + perPage <= n then PageStart(page, perPage) + perPage else n
  }

  /** Page `count` begins where the first `count - 1` pages end, and ends
      where the first `count` pages end. */
  lemma PageBounds(n: nat, count: nat, perPage: int)
    requires count >= 1 && perPage >= 0
    ensures PageLo(n, count, perPage) == if (count - 1) * perPage <= n then (count - 1) * perPage else n
    ensures PageHi(n, count, perPage) == if count * perPage <= n then count * perPage else n
  {
    assert count * perPage == (count - 1) * perPage + perPage;
  }

  /** `recs` is the run of `items` starting at `lo`, reshaped record by
      record. */
  predicate ReshapedRun(items: seq<Json>, lo: int, recs: seq<AssetRecord>)
  {
    0 <= lo && lo + |recs| <= |items| &&
    forall i :: lo <= i < lo + |recs| ==> items[i].JObj? && ReshapeAsset(items[i].fields) == Ok(recs[i - lo])
  }

  /** Two adjacent reshaped runs make one. */
  lemma AppendWindow(items: seq<Json>, lo: int, before: seq<AssetRecord>, last: seq<AssetRecord>)
    requires ReshapedRun(items, lo, before) && ReshapedRun(items, lo + |before|, last)
    ensures ReshapedRun(items, lo, before + last)
  {
    var all := before + last;
    forall i | lo <= i < lo + |all|
      ensures items[i].JObj? && ReshapeAsset(items[i].fields) == Ok(all[i - lo])
    {
      if i < lo + |before| {
        assert all[i - lo] == before[i - lo];
      } else {
        assert all[i - lo] == last[i - (lo + |before|)];
      }
    }
  }

  /** Consecutive pages are contiguous: page `p` ends where page `p + 1`
      starts, so together they are the double-size window and share no item. */
  lemma PagesContiguous<T>(items: seq<T>, page: int, perPage: int)
    requires page >= 1 && perPage >= 0
    ensures PageStart(page, perPage) + perPage == PageStart(page + 1, perPage)
    ensures Page(items, page, perPage) + Page(items, page + 1, perPage)
         == PySlice(items, PageStart(page, perPage), PageStart(page + 1, perPage) + perPage)
  {
    PageIsWindow(items, page, perPage);
    PageIsWindow(items, page + 1, perPage);
    var lo := PageStart(page, perPage);
    assert PageStart(page + 1, perPage) == lo + perPage;
    MulNonNegative(page - 1, perPage);
  }

  /** The pages from 1 to `count`, one after the other. */
  function PagesUpTo<T>(items: seq<T>, count: nat, perPage: int): seq<T>
  {
    if count == 0 then [] else PagesUpTo(items, count - 1, perPage) + Page(items, count, perPage)
  }

  /** Reading pages 1, 2, ..., `count` in turn yields exactly the first
      `count * perPage` items (or all of them): nothing skipped, nothing
      repeated. */
  lemma {:induction false} PagesCoverPrefix<T>(items: seq<T>, count: nat, perPage: int)
    requires perPage >= 0
    ensures var n := count * perPage;
            PagesUpTo(items, count, perPage) == items[..if n <= |items| then n else |items|]
  {
    if count > 0 {
      PagesCoverPrefix(items, count - 1, perPage);
      PageIsWindow(items, count, perPage);
      MulNonNegative(count - 1, perPage);
      assert PageStart(count, perPage) == (count - 1) * perPage;
      assert count * perPage == (count - 1) * perPage + perPage;
    }
  }

  /** The coordinator of one configured server. */
  class ImmichBrowserCoordinator {
    const immichUrl: string
    const apiKey: string

    /** `entry.data[CONF_IMMICH_URL]`, `entry.data[CONF_API_KEY]` */
    constructor(entryData: map<string, string>)
      requires "immich_url" in entryData && "api_key" in entryData
      ensures immichUrl == entryData["immich_url"] && apiKey == entryData["api_key"]
    {
      immichUrl := entryData["immich_url"];
      apiKey := entryData["api_key"];
    }

    function StatisticsRequest(): Request
    {
      Request("GET", immichUrl + "/api/server/statistics", apiKey, None)
    }

    function AlbumListRequest(): Request
    {
      Request("GET", immichUrl + "/api/albums", apiKey, None)
    }

    function AlbumRequest(albumId: string): Request
    {
      Request("GET", immichUrl + "/api/albums/" + albumId, apiKey, None)
    }

    function RecentRequest(count: int := 20): Request
    {
      Request("POST", immichUrl + "/api/search/metadata", apiKey,
              Some(map["size" := JNum(count), "order" := JStr("desc")]))
    }

    /** Every request goes to the configured server's API with the
        configured key; only the recent-assets search has a body, and it
        asks for `count` assets, newest first. */
    lemma RequestsAreAuthenticated(albumId: string, count: int)
      ensures forall r :: r in [StatisticsRequest(), AlbumListRequest(), AlbumRequest(albumId), RecentRequest(count)] ==>
                r.apiKey == apiKey && StartsWith(r.url, immichUrl + "/api/")
      ensures StatisticsRequest().body.None? && AlbumListRequest().body.None? && AlbumRequest(albumId).body.None?
      ensures RecentRequest(count).verb == "POST"
      ensures RecentRequest(count).body == Some(map["size" := JNum(count), "order" := JStr("desc")])
    {
      assert StartsWith(immichUrl + "/api/server/statistics", immichUrl + "/api/");
      assert StartsWith(immichUrl + "/api/albums", immichUrl + "/api/");
      assert StartsWith(immichUrl + "/api/albums/" + albumId, immichUrl + "/api/");
      assert StartsWith(immichUrl + "/api/search/metadata", immichUrl + "/api/");
    }

    /** `_async_update_data`: sum the per-user statistics, then reshape the
        album list.  `sent` is the requests made: the album list is only
        asked for once the statistics went through without raising. */
    method UpdateData(statsResp: Response, albumsResp: Response)
      returns (r: Result<CoordinatorData, UpdateFailed>, sent: seq<Request>)
      ensures r.Ok? <==> UsersOf(statsResp).Ok? && AllCountable(UsersOf(statsResp).value) && AlbumsOf(albumsResp).Ok?
      ensures r.Ok? ==> var users := UsersOf(statsResp).value;
                        r.value == CoordinatorData(FieldTotal(users, "photos"), FieldTotal(users, "videos"),
                                                   FieldTotal(users, "usage"), AlbumsOf(albumsResp).value)
      ensures r.Ok? && statsResp.Http? && statsResp.status != 200 ==>
                r.value.photos == 0 && r.value.videos == 0 && r.value.usageBytes == 0
      ensures sent == if UsersOf(statsResp).Ok? && AllCountable(UsersOf(statsResp).value)
                      then [StatisticsRequest(), AlbumListRequest()] else [StatisticsRequest()]
    {
      var data := CoordinatorData(0, 0, 0, []);
      sent := [StatisticsRequest()];
      var usage := UsersOf(statsResp);
      if usage.Err? {
        return Err(UpdateFailed(usage.error)), sent;
      }
      var users := usage.value;
      var i := 0;
      while i < |users|
        invariant 0 <= i <= |users|
        invariant AllCountable(users[..i])
        invariant data.photos == FieldTotal(users[..i], "photos")
        invariant data.videos == FieldTotal(users[..i], "videos")
        invariant data.usageBytes == FieldTotal(users[..i], "usage")
        invariant data.albums == []
      {
        var user := users[i];
        var photos := UsageField(user, "photos");
        if photos.None? {
          return Err(UpdateFailed(TypeError)), sent;
        }
        data := data.(photos := data.photos + photos.value);
        var videos := UsageField(user, "videos");
        if videos.None? {
          return Err(UpdateFailed(TypeError)), sent;
        }
        data := data.(videos := data.videos + videos.value);
        var bytes := UsageField(user, "usage");
        if bytes.None? {
          return Err(UpdateFailed(TypeError)), sent;
        }
        data := data.(usageBytes := data.usageBytes + bytes.value);
        FieldTotalStep(users, i, "photos");
        FieldTotalStep(users, i, "videos");
        FieldTotalStep(users, i, "usage");
        AllCountableStep(users, i);
        i := i + 1;
      }
      assert users[..i] == users;
      sent := sent + [AlbumListRequest()];
      var albums := AlbumsOf(albumsResp);
      if albums.Err? {
        return Err(UpdateFailed(albums.error)), sent;
      }
      data := data.(albums := albums.value);
      r := Ok(data);
    }

    /** The body of `async_get_album_assets` up to its `return`: status
        200, then the page of `album.get("assets", [])` reshaped. */
    function AlbumPage(resp: Response, page: int, perPage: int): Result<seq<AssetRecord>, PyError>
    {
      match resp
      case NetErr => Err(ClientError)
      case Http(status, body) =>
        if status != 200 then Ok([])
        else match body
          case None => Err(DecodeError)
          case Some(JObj(album)) =>
            var start := PageStart(page, perPage);
            (match PySliceDicts(PyGet(album, "assets", JArr([])), start, start + perPage)
             case Err(e) => Err(e)
             case Ok(records) => ReshapeAssets(records))
          case Some(_) => Err(AttributeError)
    }

    /** `async_get_album_assets`: one page of an album's assets, or `[]`
        on a non-200 status or any exception.  For an album body, `assets`
        (default `[]`) must be a list; the page is reshaped when every
        record on it is a dict with an `id`, and is `[]` otherwise. */
    function AlbumAssets(resp: Response, page: int := 1, perPage: int := 50): (r: seq<AssetRecord>)
      ensures resp.NetErr? || (resp.Http? && resp.status != 200) ==> r == []
      ensures resp.Http? && resp.status == 200 && (resp.body.None? || !resp.body.value.JObj?) ==> r == []
      ensures page >= 1 && perPage >= 0 ==> |r| <= perPage
      ensures resp.Http? && resp.status == 200 && resp.body.Some? && resp.body.value.JObj? ==>
                var assets := PyGet(resp.body.value.fields, "assets", JArr([]));
                (!assets.JArr? ==> r == []) &&
                (assets.JArr? ==>
                   var records := Page(assets.items, page, perPage);
                   if forall i :: 0 <= i < |records| ==> records[i].JObj? && "id" in records[i].fields
                   then |r| == |records| && forall i :: 0 <= i < |r| ==> ReshapeAsset(records[i].fields) == Ok(r[i])
                   else r == [])
    {
      match AlbumPage(resp, page, perPage)
      case Ok(assets) =>
        assert page >= 1 && perPage >= 0 ==> |assets| <= perPage by {
          if page >= 1 && perPage >= 0 && resp.Http? && resp.status == 200 && resp.body.Some? && resp.body.value.JObj? {
            var album := resp.body.value.fields;
            var v := PyGet(album, "assets", JArr([]));
            if v.JArr? {
              PageIsWindow(v.items, page, perPage);
            }
          }
        }
        assets
      case Err(_) => []
    }

    /** Pages 1 to `count` of an album, one after the other. */
    function AlbumAssetsUpTo(resp: Response, count: nat, perPage: int): seq<AssetRecord>
    {
      if count == 0 then [] else AlbumAssetsUpTo(resp, count - 1, perPage) + AlbumAssets(resp, count, perPage)
    }

    /** On an album whose asset records all have an `id`, every page is
        its window of the records, reshaped. */
    lemma AlbumPageOfValidAlbum(resp: Response, items: seq<Json>, page: int, perPage: int)
      requires resp.Http? && resp.status == 200 && resp.body.Some? && resp.body.value.JObj?
      requires PyGet(resp.body.value.fields, "assets", JArr([])) == JArr(items)
      requires forall i :: 0 <= i < |items| ==> items[i].JObj? && "id" in items[i].fields
      requires page >= 1 && perPage >= 0
      ensures var records := Page(items, page, perPage);
              |AlbumAssets(resp, page, perPage)| == |records| &&
              forall i :: 0 <= i < |records| ==> ReshapeAsset(records[i].fields) == Ok(AlbumAssets(resp, page, perPage)[i])
      ensures PageLo(|items|, page, perPage) <= PageHi(|items|, page, perPage)
      ensures |AlbumAssets(resp, page, perPage)| == PageHi(|items|, page, perPage) - PageLo(|items|, page, perPage)
      ensures ReshapedRun(items, PageLo(|items|, page, perPage), AlbumAssets(resp, page, perPage))
    {
      PageIsWindow(items, page, perPage);
      var records := Page(items, page, perPage);
      MulNonNegative(page - 1, perPage);
      var lo := PageLo(|items|, page, perPage);
      assert forall i :: 0 <= i < |records| ==> records[i] == items[lo + i];
      assert forall i :: lo <= i < lo + |records| ==> items[i] == records[i - lo];
    }

    /** Reading an album page by page from page 1 reshapes its first
        `count * perPage` assets (or all of them) in order, each once. */
    lemma {:induction false} AlbumPagesReadAlbum(resp: Response, items: seq<Json>, count: nat, perPage: int)
      requires resp.Http? && resp.status == 200 && resp.body.Some? && resp.body.value.JObj?
      requires PyGet(resp.body.value.fields, "assets", JArr([])) == JArr(items)
      requires forall i :: 0 <= i < |items| ==> items[i].JObj? && "id" in items[i].fields
      requires perPage >= 0
      ensures |AlbumAssetsUpTo(resp, count, perPage)| == if count * perPage <= |items| then count * perPage else |items|
      ensures ReshapedRun(items, 0, AlbumAssetsUpTo(resp, count, perPage))
    {
      if count > 0 {
        var before := AlbumAssetsUpTo(resp, count - 1, perPage);
        var last := AlbumAssets(resp, count, perPage);
        PageBounds(|items|, count, perPage);
        AlbumPagesReadAlbum(resp, items, count - 1, perPage);
        AlbumPageOfValidAlbum(resp, items, count, perPage);
        AppendWindow(items, 0, before, last);
        assert AlbumAssetsUpTo(resp, count, perPage) == before + last;
      }
    }

    /** The body of `async_get_recent_assets` up to its `return`:
        `data.get("assets", {}).get("items", [])` reshaped. */
    function RecentPage(resp: Response): Result<seq<AssetRecord>, PyError>
    {
      match resp
      case NetErr => Err(ClientError)
      case Http(status, body) =>
        if status != 200 then Ok([])
        else match body
          case None => Err(DecodeError)
          case Some(JObj(data)) =>
            (match PyGet(data, "assets", JObj(map[]))
             case JObj(assets) =>
               (match PyDicts(PyGet(assets, "items", JArr([])))
                case Err(e) => Err(e)
                case Ok(records) => ReshapeAssets(records))
             case _ => Err(AttributeError))
          case Some(_) => Err(AttributeError)
    }

    /** `async_get_recent_assets`: the search results reshaped, or `[]` on a
        non-200 status or any exception.  For an object body, `assets`
        (default `{}`) must be a dict and its `items` (default `[]`) a list
        of dicts with an `id` each; anything else gives `[]`. */
    function RecentAssets(resp: Response): (r: seq<AssetRecord>)
      ensures resp.NetErr? || (resp.Http? && resp.status != 200) ==> r == []
      ensures resp.Http? && resp.status == 200 && (resp.body.None? || !resp.body.value.JObj?) ==> r == []
      ensures resp.Http? && resp.status == 200 && resp.body.Some? && resp.body.value.JObj? ==>
                var assets := PyGet(resp.body.value.fields, "assets", JObj(map[]));
                (!assets.JObj? ==> r == []) &&
                (assets.JObj? ==>
                   var items := PyGet(assets.fields, "items", JArr([]));
                   (!items.JArr? ==> r == []) &&
                   (items.JArr? ==>
                      if forall i :: 0 <= i < |items.items| ==> items.items[i].JObj? && "id" in items.items[i].fields
                      then |r| == |items.items| && forall i :: 0 <= i < |r| ==> ReshapeAsset(items.items[i].fields) == Ok(r[i])
                      else r == []))
    {
      match RecentPage(resp)
      case Ok(assets) => assets
      case Err(_) => []
    }

    /** `get_thumbnail_url` for this coordinator's server. */
    function AssetThumbnailUrl(assetId: string): (r: string)
      ensures StartsWith(r, immichUrl + "/api/assets/") && EndsWith(r, assetId + "/thumbnail")
      ensures '?' !in immichUrl && '?' !in assetId ==> '?' !in r
    {
      var r := ThumbnailUrl(immichUrl, assetId);
      assert r[|r| - |assetId + "/thumbnail"|..] == r[|immichUrl| + 12..];
      if '?' !in immichUrl && '?' !in assetId then ThumbnailUrlHasNoQuery(immichUrl, assetId); r else r
    }
  }
}
