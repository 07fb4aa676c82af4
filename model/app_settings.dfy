/** The application settings (`AppContext`): the defaults, the settings read
    back from storage at start, and `updateSettings`, which keeps exactly the
    twelve known fields and fills each missing one from the previous
    settings and then from the defaults. The storage read and its
    `JSON.parse` are parameters; the write back and the theme's class change
    on the page are left out, the class name itself is a function. */
module AppSettings {
  import opened Wrappers
  import opened JsText

  /** A JSON-like value as the settings hold it. */
  datatype Value =
    | Null
    | Text(s: string)
    | Number(x: real)
    | Bool(b: bool)
    | List(items: seq<Value>)
    | Obj(fields: map<string, Value>)

  /** A settings object: its keys and values; a missing key is `undefined`. */
  type Object = map<string, Value>

  /** The twelve fields `updateSettings` keeps. */
  const Keys: seq<string> :=
    ["carModel", "licensePlate", "insurancePolicy", "batterySize", "soh", "electricityPrice",
     "fuelPrice", "useCalculatedPrice", "useCalculatedFuelPrice", "theme", "chargerTypes", "hiddenTabs"]

  function ChargerType(id: string, name: string, speedKw: real, efficiency: real): Value {
    Obj(map["id" := Text(id), "name" := Text(name), "speedKw" := Number(speedKw), "efficiency" := Number(efficiency)])
  }

  /** `DEFAULT_CHARGER_TYPES`. */
  const DefaultChargerTypes: seq<Value> := [
    ChargerType("domestic", "240V (Dom\U{E9}stico)", 2.4, 0.85),
    ChargerType("slow", "Carga lenta", 7.4, 0.90),
    ChargerType("fast", "Carga r\U{E1}pida", 50.0, 0.92),
    ChargerType("ultrafast", "Carga ultrarr\U{E1}pida", 150.0, 0.95)
  ]

  /** `DEFAULT_SETTINGS`. */
  function Defaults(): (d: Object)
    ensures d.Keys == set k | k in Keys
    ensures forall k :: k in d ==> d[k] != Null
  {
    map[
      "carModel" := Text(""), "licensePlate" := Text(""), "insurancePolicy" := Text(""),
      "batterySize" := Number(60.48), "soh" := Number(100.0), "electricityPrice" := Number(0.15),
      "fuelPrice" := Number(1.50), "useCalculatedPrice" := Bool(false), "useCalculatedFuelPrice" := Bool(false),
      "theme" := Text("auto"), "chargerTypes" := List(DefaultChargerTypes), "hiddenTabs" := List([])]
  }

  /** `{ ...a, ...b }`: every key of either, `b`'s value winning. */
  function Spread(a: Object, b: Object): (r: Object)
    ensures r.Keys == a.Keys + b.Keys
    ensures forall k :: k in b ==> r[k] == b[k]
    ensures forall k :: k in a && k !in b ==> r[k] == a[k]
  {
    a + b
  }

  // ------------------------------------------------------------ start

  /** The own keys object spread copies out of a parsed JSON value: an
      object's fields; an array's items and a text's characters under their
      indices "0", "1", ...; nothing from a number, a boolean or `null`. */
  function SpreadSource(v: Value): (r: Object)
    ensures v.Obj? ==> r == v.fields
    ensures v.List? ==> r == Indexed(v.items)
    ensures v.Text? ==> r == Indexed(Chars(v.s))
    ensures v.Null? || v.Number? || v.Bool? ==> r == map[]
  {
    match v
    case Obj(fields) => fields
    case List(items) => Indexed(items)
    case Text(s) => Indexed(Chars(s))
    case _ => map[]
  }

  /** A text's characters, each a one-character text. */
  function Chars(s: string): (r: seq<Value>)
    ensures |r| == |s| && forall i :: 0 <= i < |s| ==> r[i] == Text([s[i]])
  {
    if s == [] then [] else Chars(s[..|s| - 1]) + [Text([s[|s| - 1]])]
  }

  /** The index keys of a sequence: item `i` under the decimal text of `i`. */
  function Indexed(xs: seq<Value>): (r: Object)
    ensures forall k :: k in r ==> AllDigits(k)
    ensures forall i :: 0 <= i < |xs| ==> NatToString(i) in r && r[NatToString(i)] == xs[i]
  {
    if xs == [] then map[]
    else
      var n := |xs| - 1;
      var r := Indexed(xs[..n])[NatToString(n) := xs[n]];
      assert forall i :: 0 <= i < n ==> NatToString(i) != NatToString(n) by {
        forall i | 0 <= i < n ensures NatToString(i) != NatToString(n) {
          NatToStringValue(i);
          NatToStringValue(n);
        }
      }
      r
  }

  /** The settings at start: `{ ...DEFAULT_SETTINGS, ...JSON.parse(saved) }`;
      the defaults alone when nothing (or an empty text) is saved or the text
      does not parse. A saved array or text adds its index keys "0", "1", ...
      and a saved number, boolean or `null` adds nothing. */
  function Initial(saved: Option<string>, parse: string -> Option<Value>): (r: Object)
    ensures (forall k :: k in Defaults() ==> k in r)
  {
    if saved.None? || saved.value == "" then Defaults()
    else match parse(saved.value)
      case None => Defaults()
      case Some(v) => Spread(Defaults(), SpreadSource(v))
  }

  /** No default key is an index: each begins with a letter. */
  lemma DefaultKeysNotIndices()
    ensures forall k :: k in Keys ==> !AllDigits(k)
  {
    forall i | 0 <= i < |Keys| ensures !IsDigit(Keys[i][0]) {}
  }

  /** A saved object wins on every key it has, and the defaults fill in the
      rest; a saved value of any other kind leaves every default setting as
      it is and at most adds index keys; without usable saved text the
      settings are the defaults. */
  lemma InitialSpec(saved: Option<string>, parse: string -> Option<Value>)
    ensures var r := Initial(saved, parse);
      (saved.Some? && saved.value != "" && parse(saved.value).Some? && parse(saved.value).value.Obj? ==>
        var o := parse(saved.value).value.fields;
        (forall k :: k in o ==> r[k] == o[k])
        && (forall k :: k in Defaults() && k !in o ==> r[k] == Defaults()[k])
        && r.Keys == Defaults().Keys + o.Keys)
      && (saved.Some? && saved.value != "" && parse(saved.value).Some? && !parse(saved.value).value.Obj? ==>
        (forall k :: k in Defaults() ==> r[k] == Defaults()[k])
        && (forall k :: k in r && k !in Defaults() ==> AllDigits(k)))
      && (saved.None? || saved == Some("") || parse(saved.value).None? ==> r == Defaults())
  {
    if saved.Some? && saved.value != "" && parse(saved.value).Some? && !parse(saved.value).value.Obj? {
      DefaultKeysNotIndices();
    }
  }

  /** Loading `{ batterySize: 75, theme: 'dark', carModel: 'BYD Seal' }` gives
      those three values and keeps the four default charger types. */
  lemma LoadExample(parse: string -> Option<Value>, text: string)
    requires text != ""
    requires parse(text) == Some(Obj(map["batterySize" := Number(75.0), "theme" := Text("dark"),
                                         "carModel" := Text("BYD Seal")]))
    ensures var r := Initial(Some(text), parse);
      r["batterySize"] == Number(75.0) && r["theme"] == Text("dark") && r["carModel"] == Text("BYD Seal")
      && r["chargerTypes"] == List(DefaultChargerTypes) && |DefaultChargerTypes| == 4
  {
    var o := parse(text).value.fields;
    assert Initial(Some(text), parse) == Spread(Defaults(), o);
    assert "chargerTypes" !in o;
  }

  /** A saved JSON text such as `"ab"` spreads its characters under "0" and
      "1" beside the default settings, which it leaves as they are. */
  lemma LoadTextExample(parse: string -> Option<Value>, text: string)
    requires text != "" && parse(text) == Some(Text("ab"))
    ensures var r := Initial(Some(text), parse);
      r["0"] == Text("a") && r["1"] == Text("b") && r["theme"] == Text("auto")
  {
    var src := SpreadSource(Text("ab"));
    assert NatToString(0) == "0" && NatToString(1) == "1";
    assert src["0"] == Text("a") && src["1"] == Text("b");
    InitialSpec(Some(text), parse);
  }

  // ------------------------------------------------------------ update

  /** `x ?? y`: `y` when `x` is `null` or `undefined`. */
  function Coalesce(o: Object, k: string, fallback: Value): (r: Value)
    ensures k in o && o[k] != Null ==> r == o[k]
    ensures !(k in o && o[k] != Null) ==> r == fallback
  {
    if k in o && o[k] != Null then o[k] else fallback
  }

  /** The `validated` object: for each of the twelve fields, the update's
      value, else the previous one, else the default. */
  function Validated(prev: Object, updated: Object): (r: Object)
  {
    map k | k in Keys :: Coalesce(updated, k, Coalesce(prev, k, Defaults()[k]))
  }

  /** What `updateSettings` is given: a value, or a function of the previous
      settings. */
  datatype Update = Direct(v: Value) | Updater(f: Object -> Value)

  /** `setSettings(prev => …)` with `updateSettings`'s reducer: a value that
      is not an object (`null`, a text, a number, an array…) is ignored. */
  function Updated(prev: Object, u: Update): Object {
    var updated := match u case Direct(v) => v case Updater(f) => f(prev);
    if updated.Obj? then Validated(prev, updated.fields) else prev
  }

  /** An accepted update leaves exactly the twelve fields, none of them
      `null`: each takes the update's value when it has one that is not
      `null`, else the previous value when it is not, else the default; other
      keys of the update or of the previous settings are dropped. */
  lemma ValidatedSpec(prev: Object, updated: Object)
    ensures var r := Validated(prev, updated);
      r.Keys == set k | k in Keys
      && (forall k :: k in r ==> r[k] != Null)
      && (forall k :: k in r && k in updated && updated[k] != Null ==> r[k] == updated[k])
      && (forall k :: k in r && !(k in updated && updated[k] != Null) && k in prev && prev[k] != Null ==> r[k] == prev[k])
      && (forall k :: k in r && !(k in updated && updated[k] != Null) && !(k in prev && prev[k] != Null) ==>
            r[k] == Defaults()[k])
  {
  }

  /** An update that is not an object leaves the settings as they were. */
  lemma RejectedUpdate(prev: Object, u: Update)
    requires u.Direct? && !u.v.Obj?
    ensures Updated(prev, u) == prev
  {
  }

  /** Applying the same object twice is the same as applying it once. */
  lemma ValidatedIdempotent(prev: Object, updated: Object)
    ensures Validated(Validated(prev, updated), updated) == Validated(prev, updated)
  {
    var once := Validated(prev, updated);
    ValidatedSpec(prev, updated);
    ValidatedSpec(once, updated);
  }

  /** From the defaults, updating only `batterySize` to 100 keeps the default
      theme and the four default charger types. */
  lemma PartialUpdateExample()
    ensures var r := Updated(Defaults(), Direct(Obj(map["batterySize" := Number(100.0)])));
      r["batterySize"] == Number(100.0) && r["theme"] == Text("auto")
      && r["chargerTypes"] == List(DefaultChargerTypes)
  {
    ValidatedSpec(Defaults(), map["batterySize" := Number(100.0)]);
  }

  // ------------------------------------------------------------ theme

  /** The class the page gets for a theme: 'auto' and 'system' follow the
      system's dark preference, any other theme names its own class. */
  function ThemeClass(theme: string, systemDark: bool): (r: string)
    ensures (theme == "auto" || theme == "system") ==> r == (if systemDark then "dark" else "light")
    ensures !(theme == "auto" || theme == "system") ==> r == theme
  {
    if theme == "system" || theme == "auto" then (if systemDark then "dark" else "light") else theme
  }

  /** The provider's settings. */
  class Provider {
    var settings: Object

    constructor (saved: Option<string>, parse: string -> Option<Value>)
      ensures settings == Initial(saved, parse)
    {
      settings := Initial(saved, parse);
    }

    /** `updateSettings(newSettings)`. */
    method UpdateSettings(u: Update)
      modifies this
      ensures settings == Updated(old(settings), u)
    {
      var updated := match u case Direct(v) => v case Updater(f) => f(settings);
      if updated.Obj? {
        settings := Validated(settings, updated.fields);
      }
    }
  }
}
