/**
 * The display rules both pages apply to an address record (tracker.js
 * `updateMap`, and the same expressions again in submitter.js
 * `sendLocation`): street with optional number, city with optional state,
 * and "N/A" for whatever is missing.
 */
module AddressText {
  import opened Documents

  const NotAvailable: string := "N/A"

  /** `address.f || 'N/A'`. */
  function OrNotAvailable(a: Address, f: Field): (r: string)
    ensures Truthy(a, f) ==> r == a[f].s
    ensures !Truthy(a, f) ==> r == NotAvailable
    ensures r != ""
  {
    if Truthy(a, f) then a[f].s else NotAvailable
  }

  /**
   * `street ? street + (number ? ', ' + number : '') : 'N/A'`: the number
   * is shown only after a street, never on its own.
   */
  function StreetInfo(a: Address): (r: string)
    ensures !Truthy(a, Street) ==> r == NotAvailable
    ensures Truthy(a, Street) ==> |a[Street].s| <= |r| && r[..|a[Street].s|] == a[Street].s
    ensures Truthy(a, Street) && Truthy(a, Number) ==> r == a[Street].s + ", " + a[Number].s
    ensures Truthy(a, Street) && !Truthy(a, Number) ==> r == a[Street].s
    ensures r != ""
  {
    if Truthy(a, Street) then
      var number := if Truthy(a, Number) then ", " + a[Number].s else "";
      a[Street].s + number
    else NotAvailable
  }

  /**
   * `city && state ? city + ' - ' + state : city || state || 'N/A'`:
   * both when both are present, whichever is present otherwise.
   */
  function CityStateInfo(a: Address): (r: string)
    ensures Truthy(a, City) && Truthy(a, State) ==> r == a[City].s + " - " + a[State].s
    ensures Truthy(a, City) && !Truthy(a, State) ==> r == a[City].s
    ensures !Truthy(a, City) && Truthy(a, State) ==> r == a[State].s
    ensures !Truthy(a, City) && !Truthy(a, State) ==> r == NotAvailable
    ensures r != ""
  {
    if Truthy(a, City) && Truthy(a, State) then a[City].s + " - " + a[State].s
    else if Truthy(a, City) then a[City].s
    else if Truthy(a, State) then a[State].s
    else NotAvailable
  }
}
