/** The per-country popup settings of app/routes/app._index.jsx: editing one
    field, building the save form, and loading the saved metafields. */
module PopupSettings {
  import opened Wrappers
  import Countries

  /** One country's settings object: field name to text. */
  type Fields = map<string, string>

  /** `popupSettings`: country code to settings object. */
  type SettingsMap = map<string, Fields>

  /** The shapes a metafield's JSON text can parse to, as far as the page uses them. */
  datatype Json = JObject(fields: Fields) | JList(items: seq<string>) | JNull

  /** A metafield node as the loader returns it; `value` is `None` when
      `JSON.parse` throws on its text. */
  datatype Node = Node(key: string, value: Option<Json>)

  const WelcomeKey: string := "selected-welcome"
  const CountriesKey: string := "selected-countries"

  /** The four text fields the editor shows and the save form carries. */
  const TextFields: seq<string> := ["title", "description", "buttonText", "buttonLink"]

  /** `handlePopupSettingChange(countryCode, field, value)`: spread the
      previous settings of the country (none if it had none) and overwrite
      one field. */
  function SetField(settings: SettingsMap, countryCode: string, field: string, value: string): (r: SettingsMap)
    ensures r.Keys == settings.Keys + {countryCode}
    ensures field in r[countryCode] && r[countryCode][field] == value
    ensures forall c :: c in settings && c != countryCode ==> r[c] == settings[c]
    ensures forall f :: f != field ==>
              (f in r[countryCode] <==> countryCode in settings && f in settings[countryCode])
    ensures forall f :: f != field && f in r[countryCode] ==> r[countryCode][f] == settings[countryCode][f]
  {
    var previous := if countryCode in settings then settings[countryCode] else map[];
    settings[countryCode := previous[field := value]]
  }

  /** The last edit of a field wins. */
  lemma SetFieldOverwrites(settings: SettingsMap, countryCode: string, field: string, v1: string, v2: string)
    ensures SetField(SetField(settings, countryCode, field, v1), countryCode, field, v2)
         == SetField(settings, countryCode, field, v2)
  {
    var previous := if countryCode in settings then settings[countryCode] else map[];
    assert previous[field := v1][field := v2] == previous[field := v2];
  }

  /** Edits of two different fields of one country commute. */
  lemma SameCountryCommutes(settings: SettingsMap, c: string, f1: string, v1: string, f2: string, v2: string)
    requires f1 != f2
    ensures SetField(SetField(settings, c, f1, v1), c, f2, v2)
         == SetField(SetField(settings, c, f2, v2), c, f1, v1)
  {
    var p := if c in settings then settings[c] else map[];
    assert p[f1 := v1][f2 := v2] == p[f2 := v2][f1 := v1];
  }

  /** Edits of two different countries commute. */
  lemma OtherCountryCommutes(settings: SettingsMap, c1: string, f1: string, v1: string,
                             c2: string, f2: string, v2: string)
    requires c1 != c2
    ensures SetField(SetField(settings, c1, f1, v1), c2, f2, v2)
         == SetField(SetField(settings, c2, f2, v2), c1, f1, v1)
  {
  }

  /** Edits of different fields, or of different countries, commute. */
  lemma SetFieldCommutes(settings: SettingsMap, c1: string, f1: string, v1: string,
                         c2: string, f2: string, v2: string)
    requires c1 != c2 || f1 != f2
    ensures SetField(SetField(settings, c1, f1, v1), c2, f2, v2)
         == SetField(SetField(settings, c2, f2, v2), c1, f1, v1)
  {
    if c1 == c2 {
      SameCountryCommutes(settings, c1, f1, v1, f2, v2);
    } else {
      OtherCountryCommutes(settings, c1, f1, v1, c2, f2, v2);
    }
  }

  /** `settings.title || ""`: a missing or empty field reads as "". */
  function FieldOr(fields: Fields, name: string): (r: string)
    ensures name in fields ==> r == fields[name]
    ensures name !in fields ==> r == ""
  {
    if name in fields then fields[name] else ""
  }

  /** `savePopupSettings(countryCode)`: no form when the country has no
      settings; otherwise the action name, the code and the four text fields,
      each defaulting to "". */
  function SaveForm(settings: SettingsMap, countryCode: string): (r: Option<map<string, string>>)
    ensures r.None? <==> countryCode !in settings
    ensures r.Some? ==>
              && r.value.Keys == {"action", "countryCode", "title", "description", "buttonText", "buttonLink"}
              && r.value["action"] == "savePopupSettings"
              && r.value["countryCode"] == countryCode
              && forall f :: f in TextFields ==> f in r.value && r.value[f] == FieldOr(settings[countryCode], f)
  {
    if countryCode !in settings then None
    else
      var fields := settings[countryCode];
      Some(map["action" := "savePopupSettings",
               "countryCode" := countryCode,
               "title" := FieldOr(fields, "title"),
               "description" := FieldOr(fields, "description"),
               "buttonText" := FieldOr(fields, "buttonText"),
               "buttonLink" := FieldOr(fields, "buttonLink")])
  }

  /** The state `loadMetafields` builds. */
  datatype Loaded = Loaded(settings: SettingsMap, countries: seq<string>)

  /** `settings[parsedValue.countryCode]`: a missing code is the property
      key "undefined". */
  function CodeOf(fields: Fields): (r: string)
    ensures "countryCode" in fields ==> r == fields["countryCode"]
    ensures "countryCode" !in fields ==> r == "undefined"
  {
    if "countryCode" in fields then fields["countryCode"] else "undefined"
  }

  /** A node that sets one country's settings. */
  predicate IsWelcome(n: Node) {
    n.key == WelcomeKey && n.value.Some? && n.value.value.JObject?
  }

  /** A node that sets the selected countries. */
  predicate IsCountries(n: Node) {
    n.key == CountriesKey && n.value.Some? && n.value.value.JList?
  }

  /** One iteration of the `forEach` over the nodes: a welcome node replaces
      the settings of its one code, a countries node replaces the list, and
      any other node, or one whose text does not parse, changes nothing. */
  function LoadStep(acc: Loaded, n: Node): (r: Loaded)
    ensures IsWelcome(n) ==>
              && r.countries == acc.countries
              && var code := CodeOf(n.value.value.fields);
                 && r.settings.Keys == acc.settings.Keys + {code}
                 && r.settings[code] == n.value.value.fields
                 && forall c :: c in acc.settings && c != code ==> r.settings[c] == acc.settings[c]
    ensures IsCountries(n) ==> r.settings == acc.settings && r.countries == n.value.value.items
    ensures !IsWelcome(n) && !IsCountries(n) ==> r == acc
  {
    if IsWelcome(n) then
      var fields := n.value.value.fields;
      acc.(settings := acc.settings[CodeOf(fields) := fields])
    else if IsCountries(n) then acc.(countries := n.value.value.items)
    else acc
  }

  /** The `forEach`, from the first node to the last. */
  function LoadFrom(acc: Loaded, nodes: seq<Node>): Loaded
    decreases |nodes|
  {
    if nodes == [] then acc else LoadFrom(LoadStep(acc, nodes[0]), nodes[1..])
  }

  /** `loadMetafields`: start from no settings and `['US']`. The selected
      countries are those of the last parseable countries node, or `['US']`
      when there is none; a code has settings exactly when some parseable
      welcome node carries it, and they are the fields of the last such node. */
  function Load(nodes: seq<Node>): (r: Loaded)
    ensures r.countries == LastCountries(nodes).GetOr(Countries.DefaultCountries)
    ensures forall code :: code in r.settings <==> LastWelcome(nodes, code).Some?
    ensures forall code :: code in r.settings ==> r.settings[code] == LastWelcome(nodes, code).value
  {
    var init := Loaded(map[], Countries.DefaultCountries);
    LoadFromCountries(init, nodes);
    LoadFromEveryCode(init, nodes);
    LoadFrom(init, nodes)
  }

  // Reference definitions: what the last node of each kind says, read
  // independently of the fold.

  /** The list of the last countries node, if any. */
  function LastCountries(nodes: seq<Node>): (r: Option<seq<string>>)
    ensures r.None? <==> forall i :: 0 <= i < |nodes| ==> !IsCountries(nodes[i])
  {
    if nodes == [] then None
    else
      var later := LastCountries(nodes[1..]);
      if later.Some? then later
      else if IsCountries(nodes[0]) then Some(nodes[0].value.value.items)
      else None
  }

  /** The fields of the last welcome node whose code is `code`, if any. */
  function LastWelcome(nodes: seq<Node>, code: string): (r: Option<Fields>)
    ensures r.None? <==>
              forall i :: 0 <= i < |nodes| ==> !(IsWelcome(nodes[i]) && CodeOf(nodes[i].value.value.fields) == code)
    ensures r.Some? ==> CodeOf(r.value) == code
  {
    if nodes == [] then None
    else
      var later := LastWelcome(nodes[1..], code);
      if later.Some? then later
      else if IsWelcome(nodes[0]) && CodeOf(nodes[0].value.value.fields) == code
      then Some(nodes[0].value.value.fields)
      else None
  }

  lemma {:induction false} LoadFromCountries(acc: Loaded, nodes: seq<Node>)
    ensures LoadFrom(acc, nodes).countries == LastCountries(nodes).GetOr(acc.countries)
    decreases |nodes|
  {
    if nodes != [] {
      LoadFromCountries(LoadStep(acc, nodes[0]), nodes[1..]);
    }
  }

  lemma {:induction false} LoadFromSettings(acc: Loaded, nodes: seq<Node>, code: string)
    ensures code in LoadFrom(acc, nodes).settings <==> LastWelcome(nodes, code).Some? || code in acc.settings
    ensures LastWelcome(nodes, code).Some? ==> LoadFrom(acc, nodes).settings[code] == LastWelcome(nodes, code).value
    ensures LastWelcome(nodes, code).None? && code in acc.settings ==>
              LoadFrom(acc, nodes).settings[code] == acc.settings[code]
    decreases |nodes|
  {
    if nodes != [] {
      LoadFromSettings(LoadStep(acc, nodes[0]), nodes[1..], code);
    }
  }

  /** `LoadFromSettings` for every code at once. */
  lemma LoadFromEveryCode(acc: Loaded, nodes: seq<Node>)
    ensures forall code :: code in LoadFrom(acc, nodes).settings <==> LastWelcome(nodes, code).Some? || code in acc.settings
    ensures forall code :: LastWelcome(nodes, code).Some? ==> LoadFrom(acc, nodes).settings[code] == LastWelcome(nodes, code).value
  {
    forall code
      ensures code in LoadFrom(acc, nodes).settings <==> LastWelcome(nodes, code).Some? || code in acc.settings
      ensures LastWelcome(nodes, code).Some? ==> LoadFrom(acc, nodes).settings[code] == LastWelcome(nodes, code).value
    {
      LoadFromSettings(acc, nodes, code);
    }
  }

  /** Loading a concatenation loads the second part on top of the first. */
  lemma {:induction false} LoadFromAppend(acc: Loaded, a: seq<Node>, b: seq<Node>)
    ensures LoadFrom(acc, a + b) == LoadFrom(LoadFrom(acc, a), b)
    decreases |a|
  {
    if a == [] {
      assert a + b == b;
    } else {
      assert (a + b)[1..] == a[1..] + b;
      LoadFromAppend(LoadStep(acc, a[0]), a[1..], b);
    }
  }

  /** A node whose text does not parse is skipped: it changes nothing. */
  lemma UnparseableNodeSkipped(a: seq<Node>, key: string, b: seq<Node>)
    ensures Load(a + [Node(key, None)] + b) == Load(a + b)
  {
    var init := Loaded(map[], Countries.DefaultCountries);
    LoadFromAppend(init, a + [Node(key, None)], b);
    LoadFromAppend(init, a, [Node(key, None)]);
    LoadFromAppend(init, a, b);
  }
}
