/**
 * `getUrlParameter` (app.js): the query-string scan that picks the value of
 * a named parameter out of `location.search` with the regular expression
 * `[?&]name=([^&#]*)`, turns `+` into a space and percent-decodes the result.
 *
 * The parameter name is matched literally (the page only asks for
 * `session`). `decodeURIComponent` is a parameter of the model: it returns
 * None where the browser's function throws `URIError`.
 */
module UrlParameter {
  import opened Optional

  /** `s` begins with `p`. */
  predicate StartsWith(s: string, p: string) {
    |p| <= |s| && s[..|p|] == p
  }

  /** The pattern `[?&]name=` matches at index `i` of `search`. */
  predicate MatchesAt(search: string, name: string, i: int) {
    0 <= i < |search| && (search[i] == '?' || search[i] == '&') && StartsWith(search[i + 1..], name + "=")
  }

  /** The leftmost index at or after `from` where the pattern matches, as `RegExp.exec` finds it. */
  function FirstMatch(search: string, name: string, from: nat): (r: Option<nat>)
    decreases |search| - from
    ensures r.None? <==> forall i :: from <= i < |search| ==> !MatchesAt(search, name, i)
    ensures r.Some? ==> from <= r.value < |search| && MatchesAt(search, name, r.value)
    ensures r.Some? ==> forall i :: from <= i < r.value ==> !MatchesAt(search, name, i)
  {
    if from >= |search| then None
    else if MatchesAt(search, name, from) then Some(from)
    else FirstMatch(search, name, from + 1)
  }

  /** The characters the group `([^&#]*)` stops at. */
  predicate IsDelimiter(c: char) {
    c == '&' || c == '#'
  }

  /** What the group `([^&#]*)` captures at the start of `s`: the longest prefix free of `&` and `#`. */
  function Capture(s: string): (r: string)
    ensures |r| <= |s| && r == s[..|r|]
    ensures forall i :: 0 <= i < |r| ==> !IsDelimiter(r[i])
    ensures |r| < |s| ==> IsDelimiter(s[|r|])
  {
    if s == [] || IsDelimiter(s[0]) then []
    else
      var rest := Capture(s[1..]);
      assert s[1..][..|rest|] == s[1..|rest| + 1];
      [s[0]] + rest
  }

  /** `replace(/\+/g, ' ')`. */
  function PlusToSpace(s: string): (r: string)
    ensures |r| == |s|
    ensures forall i :: 0 <= i < |s| ==> r[i] == (if s[i] == '+' then ' ' else s[i])
  {
    if s == [] then [] else [if s[0] == '+' then ' ' else s[0]] + PlusToSpace(s[1..])
  }

  /**
   * The parameter's value before percent-decoding: None when the pattern
   * occurs nowhere; otherwise the capture after the leftmost occurrence,
   * which holds no `&`, `#` or `+`.
   */
  function RawValue(search: string, name: string): (r: Option<string>)
    ensures r.None? <==> forall i :: 0 <= i < |search| ==> !MatchesAt(search, name, i)
    ensures r.Some? ==> forall k :: 0 <= k < |r.value| ==> r.value[k] != '&' && r.value[k] != '#' && r.value[k] != '+'
  {
    match FirstMatch(search, name, 0)
    case None => None
    case Some(i) =>
      var captured := Capture(search[i + |name| + 2..]);
      var value := PlusToSpace(captured);
      assert forall k :: 0 <= k < |value| ==> value[k] != '&' && value[k] != '#' && value[k] != '+' by {
        forall k | 0 <= k < |value| ensures value[k] != '&' && value[k] != '#' && value[k] != '+' {
          assert !IsDelimiter(captured[k]);
        }
      }
      Some(value)
  }

  /**
   * Where the leftmost occurrence of `[?&]name=` is at `i`, the value is what
   * follows `name=` up to the next `&` or `#`, with `+` read as a space.
   */
  lemma RawValueAt(search: string, name: string, i: nat)
    requires MatchesAt(search, name, i)
    requires forall j :: 0 <= j < i ==> !MatchesAt(search, name, j)
    ensures i + |name| + 2 <= |search|
    ensures RawValue(search, name) == Some(PlusToSpace(Capture(search[i + |name| + 2..])))
  {
  }

  /**
   * `getUrlParameter(name)` with `location.search` passed in: `''` when the
   * parameter is absent, otherwise the decoded value; None where decoding throws.
   */
  function GetUrlParameter(search: string, name: string, decode: string -> Option<string>): (r: Option<string>)
    ensures (forall i :: 0 <= i < |search| ==> !MatchesAt(search, name, i)) ==> r == Some("")
    ensures (exists i :: MatchesAt(search, name, i)) ==> r == decode(RawValue(search, name).value)
  {
    match RawValue(search, name)
    case None => Some("")
    case Some(raw) => decode(raw)
  }

  /** `decodeURIComponent` leaves text without `%` as it is. */
  ghost predicate DecodesPlainText(decode: string -> Option<string>) {
    forall s :: '%' !in s ==> decode(s) == Some(s)
  }

  /** A string free of the characters the scan treats specially. */
  predicate LinkSafe(id: string) {
    forall k :: 0 <= k < |id| ==> id[k] != '&' && id[k] != '#' && id[k] != '+'
  }

  /** Scanning `?name=<id>` for `name` gives back `id` before decoding. */
  lemma {:induction false} QueryRoundTrip(name: string, id: string)
    requires LinkSafe(id)
    ensures RawValue("?" + name + "=" + id, name) == Some(PlusToSpace(Capture(id)))
    ensures RawValue("?" + name + "=" + id, name) == Some(id)
  {
    var search := "?" + name + "=" + id;
    assert search[1..][..|name + "="|] == name + "=";
    assert MatchesAt(search, name, 0);
    assert FirstMatch(search, name, 0) == Some(0);
    assert search[|name| + 2..] == id;
    var c := Capture(id);
    assert |c| < |id| ==> !IsDelimiter(id[|c|]);
    assert c == id;
    assert PlusToSpace(id) == id;
  }

  /** With a decoder that leaves plain text alone, `getUrlParameter` returns `id` itself. */
  lemma QueryRoundTripDecoded(name: string, id: string, decode: string -> Option<string>)
    requires LinkSafe(id) && '%' !in id
    requires DecodesPlainText(decode)
    ensures GetUrlParameter("?" + name + "=" + id, name, decode) == Some(id)
  {
    QueryRoundTrip(name, id);
  }
}
