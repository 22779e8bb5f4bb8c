/**
 * `reverseGeocode` (geocoding.js): turns a Nominatim reverse-geocoding
 * response into the address record stored with each report, or null.
 *
 * The HTTP request is not modelled: its outcome is an input, either a
 * rejected `fetch` or a response with its `ok` flag and parsed body.
 */
module Geocoding {
  import opened Optional
  import opened Documents

  /** The `address` object of a Nominatim response: component name to text. */
  type NominatimAddress = map<string, string>

  /** What `response.json()` yields. */
  datatype Body =
    | NotJson                                                            // `json()` rejects
    | JsonNull
    | JsonObject(address: Option<NominatimAddress>, displayName: Option<string>)

  /** The outcome of the `fetch`. */
  datatype FetchOutcome = Rejected | Response(ok: bool, body: Body)

  /** `address.k` is truthy. */
  predicate Given(a: NominatimAddress, k: string) {
    k in a && a[k] != ""
  }

  /** `address.k1 || address.k2 || ... || ''`: the first non-empty component named, else `''`. */
  function FirstNonEmpty(a: NominatimAddress, keys: seq<string>): (r: string)
    ensures r == "" <==> forall i :: 0 <= i < |keys| ==> !Given(a, keys[i])
    ensures r != "" ==> exists i :: 0 <= i < |keys| && Given(a, keys[i]) && a[keys[i]] == r
                                  && forall j :: 0 <= j < i ==> !Given(a, keys[j])
  {
    if keys == [] then ""
    else if Given(a, keys[0]) then a[keys[0]]
    else
      var r := FirstNonEmpty(a, keys[1..]);
      assert r != "" ==> exists i :: 1 <= i < |keys| && Given(a, keys[i]) && a[keys[i]] == r
                                   && forall j :: 0 <= j < i ==> !Given(a, keys[j]) by {
        if r != "" {
          var i :| 0 <= i < |keys[1..]| && Given(a, keys[1..][i]) && a[keys[1..][i]] == r
                  && forall j :: 0 <= j < i ==> !Given(a, keys[1..][j]);
          assert forall j :: 0 <= j < i + 1 ==> !Given(a, keys[j]) by {
            forall j | 0 <= j < i + 1 ensures !Given(a, keys[j]) {
              if j > 0 { assert keys[j] == keys[1..][j - 1]; }
            }
          }
          assert Given(a, keys[i + 1]) && a[keys[i + 1]] == r;
        }
      }
      r
  }

  const StreetKeys: seq<string> := ["road", "pedestrian", "street"]
  const NumberKeys: seq<string> := ["house_number"]
  const NeighborhoodKeys: seq<string> := ["suburb", "quarter", "village", "city_district"]
  const CityKeys: seq<string> := ["city", "town", "village", "municipality"]
  const StateKeys: seq<string> := ["state"]
  const PostcodeKeys: seq<string> := ["postcode"]

  /** The component chain each field of the record is filled from (`display_name` is not). */
  function KeysFor(f: Field): seq<string>
    requires f != DisplayName
  {
    match f
    case Street => StreetKeys
    case Number => NumberKeys
    case Neighborhood => NeighborhoodKeys
    case City => CityKeys
    case State => StateKeys
    case Postcode => PostcodeKeys
  }

  /**
   * The record before cleanup: every field present, each the first
   * non-empty component of its chain (or `''`), and `display_name` copied
   * from the response, `undefined` when the response had none.
   */
  function Mapped(a: NominatimAddress, displayName: Option<string>): (r: Address)
    ensures forall f :: f in r
    ensures forall f :: f != DisplayName ==> r[f] == Str(FirstNonEmpty(a, KeysFor(f)))
    ensures r[DisplayName] == if displayName.Some? then Str(displayName.value) else Undefined
  {
    var r := map[
      Street := Str(FirstNonEmpty(a, StreetKeys)),
      Number := Str(FirstNonEmpty(a, NumberKeys)),
      Neighborhood := Str(FirstNonEmpty(a, NeighborhoodKeys)),
      City := Str(FirstNonEmpty(a, CityKeys)),
      State := Str(FirstNonEmpty(a, StateKeys)),
      Postcode := Str(FirstNonEmpty(a, PostcodeKeys)),
      DisplayName := if displayName.Some? then Str(displayName.value) else Undefined];
    assert forall f :: f in r by {
      forall f: Field ensures f in r {
        FieldOrderListsEveryField(f);
      }
    }
    r
  }

  /** The record with every property equal to `''` deleted and every other property kept as it was. */
  function Cleaned(r: Address): (c: Address)
    ensures forall f :: f in c ==> c[f] != Str("")
    ensures forall f :: f in r && r[f] != Str("") ==> f in c && c[f] == r[f]
    ensures forall f :: f in c ==> f in r && c[f] == r[f]
  {
    map f | f in r && r[f] != Str("") :: r[f]
  }

  /** `Object.keys(result).forEach(key => result[key] === '' && delete result[key])`. */
  method RemoveEmptyFields(result: Address) returns (cleaned: Address)
    ensures cleaned == Cleaned(result)
  {
    cleaned := result;
    var i := 0;
    while i < |FieldOrder|
      invariant 0 <= i <= |FieldOrder|
      invariant forall f :: f in cleaned ==> f in result && cleaned[f] == result[f]
      invariant forall f :: f in result ==> (f in cleaned <==> !(f in FieldOrder[..i] && result[f] == Str("")))
    {
      var key := FieldOrder[i];
      if key in cleaned && cleaned[key] == Str("") {
        cleaned := cleaned - {key};
      }
      assert FieldOrder[..i + 1] == FieldOrder[..i] + [key];
      i := i + 1;
    }
    forall f | f in result
      ensures f in cleaned <==> result[f] != Str("")
    {
      FieldOrderListsEveryField(f);
      assert FieldOrder[..i] == FieldOrder;
    }
  }

  /**
   * The result of `reverseGeocode`: null when the fetch fails, the status is
   * not ok, the body is not JSON, or it carries no `address`; otherwise the
   * cleaned record.
   */
  function Geocoded(response: FetchOutcome): (r: Option<Address>)
    ensures r.Some? <==>
      response.Response? && response.ok && response.body.JsonObject? && response.body.address.Some?
    ensures r.Some? ==> r.value == Cleaned(Mapped(response.body.address.value, response.body.displayName))
  {
    match response
    case Rejected => None
    case Response(ok, body) =>
      if !ok then None
      else match body
        case JsonObject(Some(a), displayName) => Some(Cleaned(Mapped(a, displayName)))
        case _ => None
  }

  /** `reverseGeocode` with the fetch outcome passed in. */
  method ReverseGeocode(response: FetchOutcome) returns (r: Option<Address>)
    ensures r == Geocoded(response)
  {
    if response.Rejected? || !response.ok {
      return None;
    }
    match response.body
    case JsonObject(Some(a), displayName) =>
      var result := Mapped(a, displayName);
      var cleaned := RemoveEmptyFields(result);
      return Some(cleaned);
    case _ =>
      return None;
  }

  /** A geocoded field is present exactly when its chain found a non-empty component, and then holds it. */
  lemma GeocodedField(a: NominatimAddress, displayName: Option<string>, f: Field)
    requires f != DisplayName
    ensures var r := Cleaned(Mapped(a, displayName));
            (f in r <==> FirstNonEmpty(a, KeysFor(f)) != "")
            && (f in r ==> r[f] == Str(FirstNonEmpty(a, KeysFor(f))))
  {
  }

  /** `display_name` is kept as received (even `undefined`) unless it is the empty string. */
  lemma GeocodedDisplayName(a: NominatimAddress, displayName: Option<string>)
    ensures var r := Cleaned(Mapped(a, displayName));
            (DisplayName in r <==> displayName != Some(""))
            && (DisplayName in r ==> r[DisplayName] == if displayName.Some? then Str(displayName.value) else Undefined)
  {
  }

  /**
   * A `village` with no suburb, quarter, city or town before it in the
   * chains fills both the neighbourhood and the city.
   */
  lemma VillageFillsNeighborhoodAndCity(a: NominatimAddress, displayName: Option<string>)
    requires Given(a, "village")
    requires !Given(a, "suburb") && !Given(a, "quarter") && !Given(a, "city") && !Given(a, "town")
    ensures var r := Cleaned(Mapped(a, displayName));
            Neighborhood in r && City in r && r[Neighborhood] == r[City] == Str(a["village"])
  {
    assert NeighborhoodKeys[2] == "village" && CityKeys[2] == "village";
    assert FirstNonEmpty(a, NeighborhoodKeys) == a["village"];
    assert FirstNonEmpty(a, CityKeys) == a["village"];
    GeocodedField(a, displayName, Neighborhood);
    GeocodedField(a, displayName, City);
  }

  /**
   * The record comes out with no properties only when every chain is empty
   * and `display_name` is the empty string: a response without
   * `display_name` still leaves the key, holding `undefined`.
   */
  lemma GeocodedIsEmptyOnlyWhenNothingResolved(a: NominatimAddress, displayName: Option<string>)
    ensures |Cleaned(Mapped(a, displayName))| == 0 <==>
      displayName == Some("") && forall f :: f != DisplayName ==> FirstNonEmpty(a, KeysFor(f)) == ""
  {
  }
}
