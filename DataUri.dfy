/**
 * Base64 data URIs of the form `data:<media type>;base64,<payload>` (RFC 2397),
 * built and parsed. Building is what the client does to every image; parsing is
 * its inverse, used to state what the built URL carries.
 */
module DataUri {
  import opened Wrappers

  const Scheme := "data:"
  const Base64Marker := ";base64,"

  /** The URI that declares `mediaType` and carries the base64 text `payload`. */
  function Build(mediaType: string, payload: string): string
  {
    Scheme + mediaType + Base64Marker + payload
  }

  /** The index of the first `c` in `s`, or `|s|` when there is none. */
  function IndexOf(s: string, c: char): (k: nat)
    ensures k <= |s|
    ensures k < |s| ==> s[k] == c
    ensures forall j :: 0 <= j < k ==> s[j] != c
  {
    if s == [] then 0
    else if s[0] == c then 0
    else 1 + IndexOf(s[1..], c)
  }

  /**
   * Splits a base64 data URI into its media type and its payload; the media type
   * ends at the first `;`, which must open the `;base64,` marker. Only media
   * types without parameters are accepted: a URI such as
   * `data:text/plain;charset=utf-8;base64,...`, which RFC 2397 allows, gives
   * `None`.
   */
  function Parse(uri: string): Option<(string, string)>
  {
    if |uri| < |Scheme| || uri[..|Scheme|] != Scheme then None
    else
      var rest := uri[|Scheme|..];
      var k := IndexOf(rest, ';');
      if k + |Base64Marker| <= |rest| && rest[k..k + |Base64Marker|] == Base64Marker
      then Some((rest[..k], rest[k + |Base64Marker|..]))
      else None
  }

  /** In `s + t`, a character that `s` lacks is first found where `t` begins. */
  lemma IndexOfPastPrefix(s: string, t: string, c: char)
    requires c !in s && |t| > 0 && t[0] == c
    ensures IndexOf(s + t, c) == |s|
  {
    assert (s + t)[|s|] == c;
    assert forall j :: 0 <= j < |s| ==> (s + t)[j] == s[j] && s[j] in s;
  }

  /** Parsing recovers the media type and the payload a URI was built from. */
  lemma ParseBuild(mediaType: string, payload: string)
    requires ';' !in mediaType
    ensures Parse(Build(mediaType, payload)) == Some((mediaType, payload))
  {
    var uri := Build(mediaType, payload);
    var rest := mediaType + (Base64Marker + payload);
    assert uri == Scheme + rest;
    assert uri[..|Scheme|] == Scheme;
    assert uri[|Scheme|..] == rest;
    IndexOfPastPrefix(mediaType, Base64Marker + payload, ';');
    var k := |mediaType|;
    assert rest[..k] == mediaType;
    assert rest[k..k + |Base64Marker|] == Base64Marker;
    assert rest[k + |Base64Marker|..] == payload;
  }

  /** Every URI that parses is the one built from the parts it parses into. */
  lemma BuildParse(uri: string)
    requires Parse(uri).Some?
    ensures ';' !in Parse(uri).value.0
    ensures Build(Parse(uri).value.0, Parse(uri).value.1) == uri
  {
  }
}
