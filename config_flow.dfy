/** The integration's setup step: the user enters the server URL and an
    API key, the step pings the server, and either creates the entry or
    shows the form again with one error code. */
module ConfigFlow {
  import opened Json

  /** `url.rstrip("/")`: every trailing slash removed, nothing else. */
  function RStripSlash(s: string): (r: string)
    ensures r <= s
    ensures r == [] || r[|r| - 1] != '/'
    ensures forall i :: |r| <= i < |s| ==> s[i] == '/'
  {
    if s != [] && s[|s| - 1] == '/' then RStripSlash(s[..|s| - 1]) else s
  }

  /** The three properties above determine the stripped URL: it is the
      longest prefix that does not end in a slash and is followed only by
      slashes. */
  lemma RStripSlashUnique(s: string, t: string)
    requires t <= s
    requires t == [] || t[|t| - 1] != '/'
    requires forall i :: |t| <= i < |s| ==> s[i] == '/'
    ensures RStripSlash(s) == t
  {
    var r := RStripSlash(s);
    assert |r| == |t|;
  }

  /** Stripping twice is stripping once. */
  lemma RStripSlashIdempotent(s: string)
    ensures RStripSlash(RStripSlash(s)) == RStripSlash(s)
  {
    RStripSlashUnique(RStripSlash(s), RStripSlash(s));
  }

  /** Slashes typed after a URL make no difference to the stored URL. */
  lemma RStripSlashIgnoresAddedSlashes(s: string, slashes: string)
    requires forall i :: 0 <= i < |slashes| ==> slashes[i] == '/'
    ensures RStripSlash(s + slashes) == RStripSlash(s)
  {
    var t := RStripSlash(s);
    assert t <= s + slashes;
    forall i | |t| <= i < |s + slashes|
      ensures (s + slashes)[i] == '/'
    {
      if i >= |s| {
        assert (s + slashes)[i] == slashes[i - |s|];
      }
    }
    RStripSlashUnique(s + slashes, t);
  }

  /** What the step hands back to Home Assistant. */
  datatype FlowResult =
    | ShowForm(stepId: string, errors: map<string, string>)
    | CreateEntry(title: string, data: map<string, string>)

  /** The ping answered `{"res": "pong"}` with status 200. */
  predicate IsPong(ping: Response)
  {
    ping.Http? && ping.status == 200 && ping.body.Some? && ping.body.value.JObj? &&
    Lookup(ping.body.value.fields, "res") == Some(JStr("pong"))
  }

  /** `async_step_user`.  The input, when present, holds the two fields the
      form's schema requires; `ping` is the answer to the connection check
      and `sent` the check's request, if one was made. */
  method StepUser(userInput: Option<map<string, string>>, ping: Response)
    returns (r: FlowResult, sent: Option<Request>)
    requires userInput.Some? ==> "immich_url" in userInput.value && "api_key" in userInput.value
    ensures userInput.None? ==> r == ShowForm("user", map[]) && sent.None?
    ensures userInput.Some? ==>
              var input := userInput.value;
              sent == Some(Request("GET", RStripSlash(input["immich_url"]) + "/api/server/ping", input["api_key"], None))
    ensures userInput.Some? ==> (r.CreateEntry? <==> IsPong(ping))
    ensures userInput.Some? && IsPong(ping) ==>
              var input := userInput.value;
              r == CreateEntry("Immich Browser", input["immich_url" := RStripSlash(input["immich_url"])])
    ensures userInput.Some? && ping.Http? && ping.status == 200 && !IsPong(ping) ==>
              r == ShowForm("user", map["base" := "cannot_connect"])
    ensures userInput.Some? && ping.Http? && ping.status != 200 ==>
              r == ShowForm("user", map["base" := "invalid_auth"])
    ensures userInput.Some? && ping.NetErr? ==> r == ShowForm("user", map["base" := "cannot_connect"])
    ensures r.ShowForm? ==> r.errors.Keys <= {"base"}
    ensures r.CreateEntry? ==> "immich_url" in r.data && !EndsWith(r.data["immich_url"], "/")
  {
    var errors: map<string, string> := map[];
    sent := None;
    if userInput.Some? {
      var input := userInput.value;
      var immichUrl := RStripSlash(input["immich_url"]);
      var apiKey := input["api_key"];
      sent := Some(Request("GET", immichUrl + "/api/server/ping", apiKey, None));
      match ping {
        case NetErr =>
          errors := errors["base" := "cannot_connect"];
        case Http(status, body) =>
          if status == 200 {
            match body {
              case None =>
                // reading the body as JSON raised
                errors := errors["base" := "cannot_connect"];
              case Some(JObj(data)) =>
                if Lookup(data, "res") != Some(JStr("pong")) {
                  errors := errors["base" := "cannot_connect"];
                } else {
                  assert IsPong(ping);
                }
              case Some(_) =>
                // `.get` on a JSON value that is not an object raised
                errors := errors["base" := "cannot_connect"];
            }
          } else {
            errors := errors["base" := "invalid_auth"];
          }
      }
      assert "base" in errors || IsPong(ping);
      if errors == map[] {
        input := input["immich_url" := immichUrl];
        return CreateEntry("Immich Browser", input), sent;
      }
    }
    r := ShowForm("user", errors);
  }
}
