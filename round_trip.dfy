/**
 * The two relays disagree on the image convention: the serverless function
 * adds a JPEG data-URL prefix to a bare payload, the Express route removes
 * one. These lemmas relate the two conventions.
 */
module RoundTrip {
  import opened Common
  import Relay
  import VertexRoute

  /** The prefix the serverless function adds is one the Express pattern matches, with subtype `jpeg`. */
  lemma JpegPrefixMatches(b: string)
    ensures VertexRoute.MatchesPrefix(Relay.JpegDataUrlPrefix + b, 4)
    ensures VertexRoute.PatternLength(4) == |Relay.JpegDataUrlPrefix|
  {
    var s := Relay.JpegDataUrlPrefix + b;
    assert s[..11] == VertexRoute.DataImagePrefix;
    assert s[11..15] == "jpeg";
    assert s[15..23] == VertexRoute.Base64Marker;
  }

  /** Stripping the normalised form of a bare payload gives the payload back. */
  lemma StripUndoesNormalise(b: string)
    requires !StartsWith(b, "data:")
    ensures VertexRoute.StripDataUrlPrefix(Relay.NormaliseImageUrl(b)) == b
  {
    assert Relay.JpegDataUrlPrefix == VertexRoute.DataImagePrefix + "jpeg" + VertexRoute.Base64Marker;
    VertexRoute.StripRemovesOnePrefix("jpeg", b);
  }

  /**
   * A data URL of the form the Express route emits for an image part
   * (`data:image/<subtype>;base64,<data>`) is left unchanged by the serverless
   * normalisation and stripped back to its data by the route.
   */
  lemma ReturnedImageRoundTrip(subtype: string, data: string)
    requires |subtype| >= 1
    requires forall i :: 0 <= i < |subtype| ==> VertexRoute.IsWordChar(subtype[i])
    ensures var url := VertexRoute.DataUrl("image/" + subtype, data);
            && Relay.NormaliseImageUrl(url) == url
            && VertexRoute.StripDataUrlPrefix(url) == data
  {
    var url := VertexRoute.DataUrl("image/" + subtype, data);
    assert url == VertexRoute.DataImagePrefix + subtype + VertexRoute.Base64Marker + data;
    assert url[..5] == "data:";
    VertexRoute.StripRemovesOnePrefix(subtype, data);
  }
}
