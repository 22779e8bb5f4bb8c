/**
 * The records the two pages exchange through browser storage: session
 * metadata, location reports and the address details inside a report.
 *
 * JSON serialisation is modelled as the identity. A stored entry either holds
 * a document that `JSON.stringify` produced, or raw text that `JSON.parse`
 * rejects (the empty string among them).
 */
module Documents {
  import opened Optional

  /** A coordinate pair as the map widget takes it: `[latitude, longitude]`. */
  datatype LatLng = LatLng(lat: real, lng: real)

  /** The properties of the address record built from a reverse-geocoding response. */
  datatype Field = Street | Number | Neighborhood | City | State | Postcode | DisplayName

  /** The order in which the address record declares its properties (what `Object.keys` lists). */
  const FieldOrder: seq<Field> := [Street, Number, Neighborhood, City, State, Postcode, DisplayName]

  lemma FieldOrderListsEveryField(f: Field)
    ensures f in FieldOrder
  {
  }

  /** A property value: a string, or `undefined` (a `display_name` copied from a response that had none). */
  datatype Value = Str(s: string) | Undefined

  /** An address record: the properties it has, with their values. `{}` is `map[]`. */
  type Address = map<Field, Value>

  /** JavaScript truthiness of `address.f`: the property is present and a non-empty string. */
  predicate Truthy(a: Address, f: Field) {
    f in a && a[f].Str? && a[f].s != ""
  }

  /** A location report as the submitter writes it and the tracker reads it. */
  datatype LocationReport = LocationReport(
    sessionId: string,
    latitude: real,
    longitude: real,
    accuracy: real,
    timestamp: int,
    address: Option<Address>)

  /** A parsed JSON document as the pages find it in storage. */
  datatype Doc =
    | NullDoc                                              // the JSON text `null`
    | MetaDoc(created: Option<int>, expires: Option<int>)  // an object without coordinates
    | ReportDoc(report: LocationReport)

  /** A stored string: JSON text of a document, or text `JSON.parse` rejects. */
  datatype Entry = Json(doc: Doc) | Raw(text: string)

  /** JavaScript truthiness of the string `getItem` returned: only the empty string is falsy. */
  predicate NonEmpty(e: Entry) {
    e != Raw("")
  }

  /** `JSON.stringify`. */
  function Stringify(d: Doc): Entry {
    Json(d)
  }

  /** `JSON.parse`; None where it throws. */
  function Parse(e: Entry): Option<Doc> {
    match e
    case Json(d) => Some(d)
    case Raw(_) => None
  }
}
