/** The card's visual editor: four text fields showing the configuration
    it was given, each of which reports an edited configuration to the
    dashboard.  The editor never changes its own configuration; the
    dashboard hands the edited one back through `setConfig`. */
module CardEditor {
  import opened Json
  import opened JsRules
  import BrowserCard

  /** The values the four fields show. */
  datatype EditorFields = EditorFields(header: Json, immichUrl: Json, apiKey: Json, columns: string)

  /** `this.config.header || ""`, and so on; the columns field shows
      `String(this.config.columns || 4)`. */
  function FieldsOf(c: Json): (f: EditorFields)
    requires c != JNull
    ensures Falsy(Prop(c, "header")) ==> f.header == JStr("")
    ensures !Falsy(Prop(c, "header")) ==> Prop(c, "header") == Some(f.header)
    ensures Falsy(Prop(c, "immich_url")) ==> f.immichUrl == JStr("")
    ensures !Falsy(Prop(c, "immich_url")) ==> Prop(c, "immich_url") == Some(f.immichUrl)
    ensures Falsy(Prop(c, "api_key")) ==> f.apiKey == JStr("")
    ensures !Falsy(Prop(c, "api_key")) ==> Prop(c, "api_key") == Some(f.apiKey)
    ensures Falsy(Prop(c, "columns")) ==> f.columns == "4"
    ensures !Falsy(Prop(c, "columns")) ==> f.columns == ToStr(Prop(c, "columns"))
  {
    EditorFields(Or(Prop(c, "header"), JStr("")), Or(Prop(c, "immich_url"), JStr("")),
                 Or(Prop(c, "api_key"), JStr("")),
                 ToStr(Some(Or(Prop(c, "columns"), JNum(BrowserCard.DefaultColumns)))))
  }

  /** `parseInt(text) || 4`: a field that does not parse, or parses to 0,
      stands for the default of four columns. */
  function ColumnsValue(text: string): (n: int)
    ensures n != 0
    ensures ParseInt(text).None? || ParseInt(text) == Some(0) ==> n == BrowserCard.DefaultColumns
    ensures ParseInt(text).Some? && ParseInt(text) != Some(0) ==> n == ParseInt(text).value
  {
    match ParseInt(text)
    case None => BrowserCard.DefaultColumns
    case Some(v) => if v == 0 then BrowserCard.DefaultColumns else v
  }

  /** The columns field reads back the column count it shows. */
  lemma ColumnsFieldRoundTrip(n: int)
    requires n != 0
    ensures ColumnsValue(FieldsOf(JObj(map["columns" := JNum(n)])).columns) == n
  {
    ParseIntOfIntToString(n);
  }

  class ImmichBrowserCardEditor {
    var config: Option<Json>

    constructor()
      ensures config.None?
    {
      config := None;
    }

    /** `setConfig(config)`: stored as given. */
    method SetConfig(c: Option<Json>)
      modifies this`config
      ensures config == c
    {
      config := c;
    }

    /** `render()`: nothing until both `hass` and a configuration are set. */
    function Render(hassSet: bool): (r: Option<EditorFields>)
      reads this
      ensures r.Some? <==> hassSet && !Falsy(config)
      ensures r.Some? ==> r.value == FieldsOf(config.value)
    {
      if hassSet && !Falsy(config) then Some(FieldsOf(config.value)) else None
    }

    /** `_updateConfig(key, value)`: the configuration carried by the
        `config-changed` event, or None when there is no configuration
        and nothing is dispatched.  The new configuration is a copy of the
        old one with `key` set to `value`. */
    method UpdateConfig(key: string, value: Json) returns (event: Option<map<string, Json>>)
      ensures event.None? <==> Falsy(config)
      ensures event.Some? ==> key in event.value && event.value[key] == value
      ensures event.Some? ==> event.value.Keys == Spread(config.value).Keys + {key}
      ensures event.Some? ==> forall k :: k in Spread(config.value) && k != key ==> event.value[k] == Spread(config.value)[k]
    {
      if Falsy(config) {
        return None;
      }
      var newConfig := Spread(config.value);
      newConfig := newConfig[key := value];
      event := Some(newConfig);
    }

    /** Typing into one of the three text fields. */
    method OnTextInput(key: string, text: string) returns (event: Option<map<string, Json>>)
      requires key in {"header", "immich_url", "api_key"}
      ensures event.None? <==> Falsy(config)
      ensures event.Some? ==> key in event.value && event.value[key] == JStr(text)
      ensures event.Some? ==> FieldOf(FieldsOf(JObj(event.value)), key) == JStr(text)
    {
      event := UpdateConfig(key, JStr(text));
    }

    /** Typing into the columns field: the number parsed, 4 when none is. */
    method OnColumnsInput(text: string) returns (event: Option<map<string, Json>>)
      ensures event.None? <==> Falsy(config)
      ensures event.Some? ==> "columns" in event.value && event.value["columns"] == JNum(ColumnsValue(text))
      ensures event.Some? ==> FieldsOf(JObj(event.value)).columns == IntToString(ColumnsValue(text))
    {
      event := UpdateConfig("columns", JNum(ColumnsValue(text)));
    }
  }

  /** The value shown in the text field for `key`. */
  function FieldOf(f: EditorFields, key: string): Json
  {
    if key == "header" then f.header else if key == "immich_url" then f.immichUrl else f.apiKey
  }
}
