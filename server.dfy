/** The relay side of the garden (server.js): choosing the serial port to open,
    and forwarding every line read from it to the browsers. */
module Server {
  import opened Wrappers
  import opened Strings

  /** One entry of the serial port listing; a field the listing leaves out is None. */
  datatype PortInfo = PortInfo(path: string, manufacturer: Option<string>, vendorId: Option<string>)

  const FallbackPath: string := "/dev/tty.usbmodem11101"
  const ArduinoVendorId: string := "2341"
  const ArduinoWord: string := "arduino"

  /** A string field tests true in JavaScript when it is present and not empty:
      an absent field and an empty one both test false. */
  predicate Truthy(field: Option<string>)
    ensures Truthy(field) <==> field.Some? && |field.value| > 0
  {
    match field
    case None => false
    case Some(s) => s != ""
  }

  /** The test applied to each listed port: a manufacturer must be given, and it
      must mention "arduino" in any letter case, or the vendor id must be 2341.
      Given a manufacturer, the vendor id 2341 suffices; without that vendor id,
      only the manufacturer's text can make a port pass. */
  predicate IsArduino(p: PortInfo)
    ensures Truthy(p.manufacturer) && p.vendorId == Some(ArduinoVendorId) ==> IsArduino(p)
    ensures IsArduino(p) && p.vendorId != Some(ArduinoVendorId) ==>
      p.manufacturer.Some? && Contains(ToLowerAscii(p.manufacturer.value), ArduinoWord)
  {
    Truthy(p.manufacturer) &&
    (Contains(ToLowerAscii(p.manufacturer.value), ArduinoWord) ||
     (Truthy(p.vendorId) && p.vendorId.value == ArduinoVendorId))
  }

  /** None of the first `n` ports passes the test. */
  ghost predicate NoneMatchBefore(ports: seq<PortInfo>, n: int)
    requires 0 <= n <= |ports|
  {
    forall j :: 0 <= j < n ==> !IsArduino(ports[j])
  }

  /** findArduinoPort over a given listing: the path of the first port in list
      order that passes the test, or the fallback path when none does (in
      particular when the list is empty). */
  method FindArduinoPort(ports: seq<PortInfo>) returns (path: string)
    ensures (exists i :: 0 <= i < |ports| && IsArduino(ports[i]) && NoneMatchBefore(ports, i) &&
               path == ports[i].path) ||
            (NoneMatchBefore(ports, |ports|) && path == FallbackPath)
    ensures path == FallbackPath || exists p :: p in ports && p.path == path
  {
    for k := 0 to |ports|
      invariant NoneMatchBefore(ports, k)
    {
      if IsArduino(ports[k]) {
        return ports[k].path;
      }
    }
    return FallbackPath;
  }

  /** A vendor id of 2341 is not enough on its own: without a manufacturer the port is skipped. */
  lemma VendorIdNeedsManufacturer(p: PortInfo)
    requires !Truthy(p.manufacturer)
    ensures !IsArduino(p)
  {
  }

  /** Any manufacturer text containing the word in any ASCII letter case passes. */
  lemma ManufacturerMentioningArduino(path: string, pre: string, word: string, post: string,
                                      vendorId: Option<string>)
    requires ToLowerAscii(word) == ArduinoWord
    ensures IsArduino(PortInfo(path, Some(pre + word + post), vendorId))
  {
    var m := pre + word + post;
    var lower := ToLowerAscii(m);
    assert lower[|pre|..|pre| + |word|] == ToLowerAscii(word) by {
      forall i | 0 <= i < |word|
        ensures lower[|pre| + i] == ToLowerAscii(word)[i]
      {
        assert m[|pre| + i] == word[i];
      }
    }
    assert OccursAt(lower, ArduinoWord, |pre|);
  }

  // ---------------------------------------------------------------------------
  // Forwarding
  // ---------------------------------------------------------------------------

  const RelayEvent: string := "arduinoData"

  /** A message broadcast to every connected browser. */
  datatype Emission = Emission(event: string, payload: string)

  /** The serial parser's data handler: every line, whatever it holds, is trimmed
      and broadcast under the same event name; nothing is validated or dropped. */
  function Relay(data: string): (e: Emission)
    ensures e.event == RelayEvent && IsTrimmed(e.payload) && |e.payload| <= |data|
  {
    Emission(RelayEvent, Trim(data))
  }

  /** The payload is the line with its surrounding whitespace removed and nothing else changed. */
  lemma RelayKeepsText(data: string)
    ensures var p := Relay(data).payload; var k := LeadingSpace(data);
      k + |p| <= |data| && p == data[k..k + |p|] && SpaceIn(data, 0, k) && SpaceIn(data, k + |p|, |data|)
  {
    TrimShape(data);
  }

  /** The browser trims each payload again on receipt; that second trim changes nothing. */
  lemma RelayedPayloadStaysTrimmed(data: string)
    ensures Trim(Relay(data).payload) == Relay(data).payload
  {
    TrimIdempotent(data);
  }
}
