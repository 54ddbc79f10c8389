/** The server `action` of app/routes/app._index.jsx and the saves the page
    sends it: which metafield a form writes, and what loading it back gives. */
module AdminAction {
  import opened Wrappers
  import opened PopupSettings

  const Namespace: string := "welcome"
  const OwnerId: string := "gid://shopify/Shop/1"

  /** A submitted form: field name to value (`formData.get` is null for a
      name that is absent). */
  type Form = map<string, string>

  /** The form fields copied into the saved settings object. */
  const SettingsFields: set<string> := {"title", "description", "buttonText", "buttonLink", "countryCode"}

  /** What the action asks of the platform: a `metafieldsSet` of one
      metafield, the demo product creation of the template (not modelled
      further), or nothing because `JSON.parse` threw. */
  datatype Request = SetMetafield(namespace: string, key: string, value: Json, ownerId: string)
                   | CreateProduct
                   | ParseFails

  /** The metafields of the namespace on one shop, by key: the ones the
      loader reads back are those of the signed-in shop. */
  type Metafields = map<string, Json>

  predicate IsAction(form: Form, name: string) {
    "action" in form && form["action"] == name
  }

  /** The settings object: each of the five fields the form carries. */
  function SettingsObject(form: Form): (fields: Fields)
    ensures forall f :: f in fields <==> f in form && f in SettingsFields
    ensures forall f :: f in fields ==> fields[f] == form[f]
  {
    map f | f in form && f in SettingsFields :: form[f]
  }

  /** The `action` export. `parse` stands for `JSON.parse`; an absent
      `selectedCountries` field parses as JSON `null`. */
  function Action(form: Form, parse: string -> Option<Json>): (r: Request)
    ensures r.SetMetafield? ==> r.namespace == Namespace && r.ownerId == OwnerId
    ensures IsAction(form, "savePopupSettings") <==> r.SetMetafield? && r.key == WelcomeKey
    ensures IsAction(form, "savePopupSettings") ==> r.value == JObject(SettingsObject(form))
    ensures IsAction(form, "saveSelectedCountries") ==>
              var parsed := if "selectedCountries" in form then parse(form["selectedCountries"]) else Some(JNull);
              && (parsed.None? <==> r.ParseFails?)
              && (parsed.Some? ==> r == SetMetafield(Namespace, CountriesKey, parsed.value, OwnerId))
    ensures r.CreateProduct? <==> !IsAction(form, "savePopupSettings") && !IsAction(form, "saveSelectedCountries")
  {
    if IsAction(form, "savePopupSettings") then
      SetMetafield(Namespace, WelcomeKey, JObject(SettingsObject(form)), OwnerId)
    else if IsAction(form, "saveSelectedCountries") then
      var parsed := if "selectedCountries" in form then parse(form["selectedCountries"]) else Some(JNull);
      if parsed.None? then ParseFails
      else SetMetafield(Namespace, CountriesKey, parsed.value, OwnerId)
    else CreateProduct
  }

  /** The effect of a request on the metafields `m` of the shop whose owner
      id is `shop`. `metafieldsSet` creates or replaces the value under its
      key when the request is addressed to that shop. The action always
      addresses the fixed owner `OwnerId`, so any other shop's metafields stay
      as they were; the rejection comes back in `userErrors`, which the action
      returns without looking at it. */
  function Write(m: Metafields, shop: string, r: Request): (m': Metafields)
    ensures r.SetMetafield? && r.ownerId == shop ==> m'.Keys == m.Keys + {r.key} && m'[r.key] == r.value
    ensures r.SetMetafield? && r.ownerId == shop ==> forall k :: k in m && k != r.key ==> m'[k] == m[k]
    ensures !(r.SetMetafield? && r.ownerId == shop) ==> m' == m
  {
    if r.SetMetafield? && r.ownerId == shop then m[r.key := r.value] else m
  }

  /** The form the page's country-list effect submits; `text` is the
      `JSON.stringify` of the list. */
  function CountriesForm(text: string): (form: Form)
    ensures IsAction(form, "saveSelectedCountries")
    ensures "selectedCountries" in form && form["selectedCountries"] == text
  {
    map["action" := "saveSelectedCountries", "selectedCountries" := text]
  }

  /** The key a settings save writes does not depend on the country: saves
      for any two countries write the same key. */
  lemma SettingsKeyIgnoresCountry(settings: SettingsMap, c1: string, c2: string, parse: string -> Option<Json>)
    requires c1 in settings && c2 in settings
    ensures Action(SaveForm(settings, c1).value, parse).key == Action(SaveForm(settings, c2).value, parse).key == WelcomeKey
  {
  }

  /** So a second settings save replaces the first, whatever the countries
      and whichever shop's metafields are looked at. */
  lemma LastSettingsSaveWins(m: Metafields, shop: string, settings: SettingsMap, c1: string, c2: string,
                             parse: string -> Option<Json>)
    requires c1 in settings && c2 in settings
    ensures var first := Action(SaveForm(settings, c1).value, parse);
            var second := Action(SaveForm(settings, c2).value, parse);
            Write(Write(m, shop, first), shop, second) == Write(m, shop, second)
  {
  }

  /** Whatever the form, a save leaves the metafields of every shop but the
      fixed owner as they were: on such a shop nothing saved is loaded back. */
  lemma SavesMissOtherShops(m: Metafields, shop: string, form: Form, parse: string -> Option<Json>)
    requires shop != OwnerId
    ensures Write(m, shop, Action(form, parse)) == m
  {
  }

  /** Save then load: loading the metafield a settings save writes gives back
      exactly that country's settings, its four text fields as submitted
      (missing ones as ""). */
  lemma SaveThenLoadSettings(settings: SettingsMap, code: string, parse: string -> Option<Json>)
    requires code in settings
    ensures var r := Action(SaveForm(settings, code).value, parse);
            var loaded := Load([Node(r.key, Some(r.value))]);
            && loaded.settings.Keys == {code}
            && forall f :: f in TextFields ==>
                 f in loaded.settings[code] && loaded.settings[code][f] == FieldOr(settings[code], f)
  {
    var form := SaveForm(settings, code).value;
    var r := Action(form, parse);
    var n := Node(r.key, Some(r.value));
    assert CodeOf(SettingsObject(form)) == code;
  }

  /** Two settings saves for different countries leave only the second
      country's settings to load. */
  lemma EarlierCountryLost(settings: SettingsMap, c1: string, c2: string, parse: string -> Option<Json>)
    requires c1 in settings && c2 in settings && c1 != c2
    ensures var m := Write(Write(map[], OwnerId, Action(SaveForm(settings, c1).value, parse)),
                           OwnerId, Action(SaveForm(settings, c2).value, parse));
            c1 !in Load([Node(WelcomeKey, Some(m[WelcomeKey]))]).settings
  {
    SaveThenLoadSettings(settings, c2, parse);
  }

  /** Save then load for the country list, given that parsing the submitted
      text gives the list back. */
  lemma SaveThenLoadCountries(selected: seq<string>, text: string, parse: string -> Option<Json>)
    requires parse(text) == Some(JList(selected))
    ensures var r := Action(CountriesForm(text), parse);
            Load([Node(r.key, Some(r.value))]).countries == selected
  {
  }
}
