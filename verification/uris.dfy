/**
  The URI gate of the socket client.

  The platform's URI parser is not modelled: a parser is a parameter that maps
  the raw string to the parsed URI, or to None when the trimmed string is not
  a well-formed absolute URI. Only the two components the gate inspects are
  kept: the canonical scheme and the fragment (None stands for null).
 */
module Uris {

  datatype Option<+T> = None | Some(value: T)

  datatype Uri = Uri(scheme: string, fragment: Option<string>)

  /** Trimming and parsing as an absolute URI, as one opaque step. */
  type UriParser = string -> Option<Uri>

  /** The endpoint string SendMessage builds from the host and port. */
  function EndpointString(hostName: string, portNumber: string): (s: string)
    ensures |s| == 6 + |hostName| + |portNumber|
    ensures s[..5] == "ws://"
    ensures s[5 + |hostName|] == ':'
    ensures s[5..5 + |hostName|] == hostName && s[6 + |hostName|..] == portNumber
  {
    "ws://" + hostName + ":" + portNumber
  }

  predicate IsNullOrEmpty(s: Option<string>) {
    s.None? || s.value == ""
  }

  /** The check: returns whether the string is a usable WebSocket URI, and the
      parsed URI in that case; the out value is null (None) on every false
      return. */
  function TryGetUri(uriString: string, tryCreate: UriParser): (r: (bool, Option<Uri>))
    ensures r.0 <==> tryCreate(uriString).Some?
                     && IsNullOrEmpty(tryCreate(uriString).value.fragment)
                     && tryCreate(uriString).value.scheme in {"ws", "wss"}
    ensures r.0 ==> r.1 == tryCreate(uriString)
    ensures !r.0 ==> r.1 == None
  {
    var parsed := tryCreate(uriString);
    if parsed.None? then
      (false, None)
    else if !IsNullOrEmpty(parsed.value.fragment) then
      (false, None)
    else if parsed.value.scheme != "ws" && parsed.value.scheme != "wss" then
      (false, None)
    else
      (true, parsed)
  }

  /** Whatever the host and port, the string SendMessage builds never
      starts with "wss://", so the secure scheme the check accepts is never
      requested through that path. */
  lemma EndpointNeverWss(hostName: string, portNumber: string)
    ensures var s := EndpointString(hostName, portNumber);
            |s| >= 6 && s[..6] != "wss://"
  {
    var s := EndpointString(hostName, portNumber);
    assert s[2] == "ws://"[2] != "wss://"[2];
  }
}
