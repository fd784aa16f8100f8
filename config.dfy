/** `updateConfig` of src/utils/config.js: the restaurant's prompt settings
    file is validated against the update's `restaurantId` and its `settings`
    and `operatingHours` sections are merged one level deep. The file is a
    field of `ConfigFile`; reading, parsing and writing its text are left
    out. */
module Config {
  import opened Common

  /** A JSON value as `JSON.parse` produces it. Numbers are integers here. */
  datatype Json =
    | JNull
    | JBool(b: bool)
    | JNum(n: int)
    | JStr(s: string)
    | JArr(items: seq<Json>)
    | JObj(fields: map<string, Json>)

  type Object = map<string, Json>

  const RestaurantIdKey: string := "restaurantId"
  const SettingsKey: string := "settings"
  const HoursKey: string := "operatingHours"
  const MissingIdError: string := "Missing required field: restaurantId"

  /** `obj[key]`: None is `undefined`. */
  function Get(obj: Object, key: string): Option<Json> {
    if key in obj then Some(obj[key]) else None
  }

  /** `if (v)` on a JSON value. */
  predicate Truthy(v: Option<Json>) {
    match v
    case None => false
    case Some(j) =>
      match j
      case JNull => false
      case JBool(b) => b
      case JNum(n) => n != 0
      case JStr(s) => s != ""
      case JArr(_) => true
      case JObj(_) => true
  }

  /** `a !== b` negated, for a value from the request and one from the file:
      objects and arrays parsed separately are never the same object. */
  predicate StrictEquals(a: Option<Json>, b: Option<Json>) {
    match (a, b)
    case (None, None) => true
    case (Some(x), Some(y)) => !x.JArr? && !x.JObj? && x == y
    case _ => false
  }

  /** `${v}` in a template literal. */
  function JsText(v: Option<Json>): string {
    match v
    case None => "undefined"
    case Some(j) => JsonText(j)
  }

  function JsonText(j: Json): string
    decreases j
  {
    match j
    case JNull => "null"
    case JBool(b) => if b then "true" else "false"
    case JNum(n) => IntToDecimal(n)
    case JStr(s) => s
    case JObj(_) => "[object Object]"
    case JArr(items) =>
      // `Array.prototype.join`: null elements print as empty
      JoinWithCommas(seq(|items|, i requires 0 <= i < |items| =>
                          if items[i].JNull? then "" else JsonText(items[i])))
  }

  function JoinWithCommas(parts: seq<string>): string {
    if |parts| == 0 then ""
    else if |parts| == 1 then parts[0]
    else parts[0] + "," + JoinWithCommas(parts[1..])
  }

  function InvalidIdError(expected: Option<Json>, received: Option<Json>): string {
    "Invalid restaurantId. Expected: " + JsText(expected) + ", Received: " + JsText(received)
  }

  /** The own enumerable properties `...v` contributes to an object literal:
      an object's fields, an array's elements or a string's characters under
      their decimal indices, and nothing for null, undefined, booleans and
      numbers. */
  function Spread(v: Option<Json>): (r: Object)
    ensures v.Some? && v.value.JObj? ==> r == v.value.fields
    ensures v.Some? && v.value.JArr? ==> r == ByIndex(v.value.items)
    ensures v.Some? && v.value.JStr? ==> r == ByIndex(Characters(v.value.s))
    ensures v.None? || v.value.JNull? || v.value.JBool? || v.value.JNum? ==> r == map[]
  {
    match v
    case Some(JObj(fields)) => fields
    case Some(JArr(items)) => ByIndex(items)
    case Some(JStr(s)) => ByIndex(Characters(s))
    case _ => map[]
  }

  /** A string's characters, each as a one-character string value. */
  function Characters(s: string): (r: seq<Json>)
    ensures |r| == |s| && forall i :: 0 <= i < |s| ==> r[i] == JStr([s[i]])
  {
    seq(|s|, i requires 0 <= i < |s| => JStr([s[i]]))
  }

  /** An array-like value's entries, keyed by index. */
  function ByIndex(items: seq<Json>): (r: Object)
    ensures forall i :: 0 <= i < |items| ==> NatToDecimal(i) in r && r[NatToDecimal(i)] == items[i]
    ensures forall k :: k in r ==> exists i :: 0 <= i < |items| && k == NatToDecimal(i)
    ensures |r.Keys| == |items|
  {
    DecimalKeysDistinct();
    var r := map i | 0 <= i < |items| :: NatToDecimal(i) := items[i];
    IndexKeyCount(|items|);
    assert r.Keys == IndexKeys(|items|);
    r
  }

  lemma DecimalKeysDistinct()
    ensures forall a: nat, b: nat :: NatToDecimal(a) == NatToDecimal(b) ==> a == b
  {
    forall a: nat, b: nat | NatToDecimal(a) == NatToDecimal(b) ensures a == b {
      NatToDecimalInjective(a, b);
    }
  }

  ghost function IndexKeys(n: nat): set<string> {
    set i | 0 <= i < n :: NatToDecimal(i)
  }

  lemma {:induction false} IndexKeyCount(n: nat)
    ensures |IndexKeys(n)| == n
  {
    if n > 0 {
      IndexKeyCount(n - 1);
      DecimalKeysDistinct();
      assert IndexKeys(n) == IndexKeys(n - 1) + {NatToDecimal(n - 1)};
      assert NatToDecimal(n - 1) !in IndexKeys(n - 1);
    } else {
      assert IndexKeys(n) == {};
    }
  }

  /** `{ ...current[key], ...updates[key] }` stored under `key`, when the
      update's section is truthy. */
  function MergeSection(current: Object, updates: Object, key: string): (r: Object)
    ensures !Truthy(Get(updates, key)) ==> r == current
    ensures Truthy(Get(updates, key)) ==> r == current[key := JObj(Spread(Get(current, key)) + Spread(Get(updates, key)))]
  {
    if Truthy(Get(updates, key)) then
      current[key := JObj(Spread(Get(current, key)) + Spread(Get(updates, key)))]
    else current
  }

  /** What `updateConfig` returns (and writes) or the error it throws. */
  function UpdateConfig(current: Object, updates: Object): (r: Result<Object>)
    ensures r.Ok? <==> Truthy(Get(updates, RestaurantIdKey))
                       && StrictEquals(Get(updates, RestaurantIdKey), Get(current, RestaurantIdKey))
    ensures !Truthy(Get(updates, RestaurantIdKey)) ==> r == Err(MissingIdError)
  {
    var id := Get(updates, RestaurantIdKey);
    if !Truthy(id) then Err(MissingIdError)
    else if !StrictEquals(id, Get(current, RestaurantIdKey)) then
      Err(InvalidIdError(Get(current, RestaurantIdKey), id))
    else Ok(MergeSection(MergeSection(current, updates, SettingsKey), updates, HoursKey))
  }

  /** A mismatching id is reported with both values. */
  lemma MismatchReported(current: Object, updates: Object)
    requires Truthy(Get(updates, RestaurantIdKey))
    requires !StrictEquals(Get(updates, RestaurantIdKey), Get(current, RestaurantIdKey))
    ensures UpdateConfig(current, updates)
         == Err(InvalidIdError(Get(current, RestaurantIdKey), Get(updates, RestaurantIdKey)))
  {
  }

  /** For a truthy section in the update, every key of the update's section
      takes the update's value (a nested object is replaced, not merged),
      every other key of the old section keeps its value, and no other key
      appears. */
  lemma SectionMergedKeyByKey(current: Object, updates: Object, key: string)
    requires key == SettingsKey || key == HoursKey
    requires Truthy(Get(updates, RestaurantIdKey))
    requires StrictEquals(Get(updates, RestaurantIdKey), Get(current, RestaurantIdKey))
    requires Truthy(Get(updates, key))
    ensures var r := UpdateConfig(current, updates).value;
            var old_ := Spread(Get(current, key));
            var upd := Spread(Get(updates, key));
            && key in r && r[key].JObj?
            && (forall k :: k in r[key].fields <==> k in old_ || k in upd)
            && (forall k :: k in upd ==> r[key].fields[k] == upd[k])
            && (forall k :: k in old_ && k !in upd ==> r[key].fields[k] == old_[k])
  {
  }

  /** A section the update leaves falsy, and every other top-level field,
      keeps its old value, and no top-level field is added but the merged
      sections. */
  lemma OtherFieldsUnchanged(current: Object, updates: Object, key: string)
    requires Truthy(Get(updates, RestaurantIdKey))
    requires StrictEquals(Get(updates, RestaurantIdKey), Get(current, RestaurantIdKey))
    requires key != SettingsKey && key != HoursKey
    ensures var r := UpdateConfig(current, updates).value;
            && (key in r <==> key in current)
            && (key in current ==> r[key] == current[key])
            && (!Truthy(Get(updates, SettingsKey)) ==> Get(r, SettingsKey) == Get(current, SettingsKey))
            && (!Truthy(Get(updates, HoursKey)) ==> Get(r, HoursKey) == Get(current, HoursKey))
  {
  }

  /** The id is never changed by an update, even one that carries other
      top-level fields. */
  lemma RestaurantIdKept(current: Object, updates: Object)
    requires Truthy(Get(updates, RestaurantIdKey))
    requires StrictEquals(Get(updates, RestaurantIdKey), Get(current, RestaurantIdKey))
    ensures Get(UpdateConfig(current, updates).value, RestaurantIdKey) == Get(current, RestaurantIdKey)
  {
  }

  /** Merging into an object the same fields again changes nothing. */
  lemma MergeAgain(a: Object, u: Object)
    ensures (a + u) + u == a + u
  {
  }

  /** Merging the same section of the same update a second time changes
      nothing. */
  lemma SectionMergedTwice(x: Object, updates: Object, key: string)
    ensures MergeSection(MergeSection(x, updates, key), updates, key) == MergeSection(x, updates, key)
  {
    if Truthy(Get(updates, key)) {
      var merged := Spread(Get(x, key)) + Spread(Get(updates, key));
      MergeAgain(Spread(Get(x, key)), Spread(Get(updates, key)));
      assert Spread(Get(MergeSection(x, updates, key), key)) == merged;
    }
  }

  /** Merging two different sections gives the same object in either
      order. */
  lemma SectionsMergeInEitherOrder(x: Object, updates: Object, k1: string, k2: string)
    requires k1 != k2
    ensures MergeSection(MergeSection(x, updates, k1), updates, k2)
         == MergeSection(MergeSection(x, updates, k2), updates, k1)
  {
  }

  /** Sending the same update twice leaves the file as sending it once. */
  lemma UpdateIdempotent(current: Object, updates: Object)
    requires Truthy(Get(updates, RestaurantIdKey))
    requires StrictEquals(Get(updates, RestaurantIdKey), Get(current, RestaurantIdKey))
    ensures UpdateConfig(UpdateConfig(current, updates).value, updates) == UpdateConfig(current, updates)
  {
    var mid := MergeSection(current, updates, SettingsKey);
    var once := MergeSection(mid, updates, HoursKey);
    assert UpdateConfig(current, updates) == Ok(once);
    RestaurantIdKept(current, updates);
    SectionsMergeInEitherOrder(mid, updates, HoursKey, SettingsKey);
    SectionMergedTwice(current, updates, SettingsKey);
    assert MergeSection(once, updates, SettingsKey) == once;
    SectionMergedTwice(mid, updates, HoursKey);
  }

  /** The configuration file, held as its parsed contents. */
  class ConfigFile {
    var contents: Object

    constructor (initial: Object)
      ensures contents == initial
    {
      contents := initial;
    }

    /** `updateConfig(updates)`: on success the merged configuration is
        written and returned; on a validation error nothing is written. */
    method Update(updates: Object) returns (r: Result<Object>)
      modifies this
      ensures r == UpdateConfig(old(contents), updates)
      ensures r.Ok? ==> contents == r.value
      ensures r.Err? ==> contents == old(contents)
    {
      var currentConfig := contents;
      var id := Get(updates, RestaurantIdKey);
      if !Truthy(id) {
        return Err(MissingIdError);
      }
      if !StrictEquals(id, Get(currentConfig, RestaurantIdKey)) {
        return Err(InvalidIdError(Get(currentConfig, RestaurantIdKey), id));
      }
      if Truthy(Get(updates, SettingsKey)) {
        currentConfig := currentConfig[SettingsKey := JObj(Spread(Get(currentConfig, SettingsKey)) + Spread(Get(updates, SettingsKey)))];
      }
      if Truthy(Get(updates, HoursKey)) {
        currentConfig := currentConfig[HoursKey := JObj(Spread(Get(currentConfig, HoursKey)) + Spread(Get(updates, HoursKey)))];
      }
      contents := currentConfig;
      return Ok(currentConfig);
    }
  }
}
