/**
 * The Express route `POST /api/generate-tryon`: strip the data-URL prefix from
 * the posted image, send a two-part request (text, then inline JPEG data) to
 * the generative model, and relay the first image part of the answer, or a
 * placeholder and the model's text when it answered without an image.
 *
 * The SDK call `model.generateContent(request)` is the parameter `generate`:
 * `None` stands for a rejected call, `Some(response)` for the resolved response.
 */
module VertexRoute {
  import opened Common
  import opened Js

  const DataImagePrefix := "data:image/"
  const Base64Marker := ";base64,"
  const ProcessingError := "Failed to process with Vertex AI"
  const PlaceholderUrl := "https://via.placeholder.com/600x800?text=Model+Returned+Text+Only"
  const DefaultMimeType := "image/png"

  // ---------------------------------------------------------------------------
  // The prefix strip `imageBase64.replace(/^data:image\/\w+;base64,/, "")`.

  /** The regular-expression class `\w`. */
  predicate IsWordChar(c: char) {
    ('a' <= c <= 'z') || ('A' <= c <= 'Z') || ('0' <= c <= '9') || c == '_'
  }

  /** `\w` holds ASCII letters, digits and `_`, and no separator of a data URL. */
  lemma WordCharClass(c: char)
    ensures IsWordChar(c) ==> c as int < 128
    ensures c == '_' ==> IsWordChar(c)
    ensures c in {':', '/', ';', ',', '+', '-', '.', '='} ==> !IsWordChar(c)
  {
  }

  /**
   * The anchored pattern matches the first `PatternLength(m)` characters of `s`,
   * with a media subtype of `m` word characters. This is the pattern's meaning,
   * stated independently of how `StripDataUrlPrefix` finds the match.
   */
  predicate MatchesPrefix(s: string, m: nat) {
    && 1 <= m
    && PatternLength(m) <= |s|
    && StartsWith(s, DataImagePrefix)
    && (forall i :: |DataImagePrefix| <= i < |DataImagePrefix| + m ==> IsWordChar(s[i]))
    && s[|DataImagePrefix| + m..PatternLength(m)] == Base64Marker
  }

  /** A match is at least 20 characters long, its subtype run is followed by `;`, and it ends with `,`. */
  lemma MatchShape(s: string, m: nat)
    requires MatchesPrefix(s, m)
    ensures 20 <= PatternLength(m) <= |s|
    ensures s[|DataImagePrefix| + m] == ';' && s[PatternLength(m) - 1] == ','
  {
    assert s[|DataImagePrefix| + m..PatternLength(m)][0] == ';';
    assert s[|DataImagePrefix| + m..PatternLength(m)][7] == ',';
  }

  function PatternLength(m: nat): nat {
    |DataImagePrefix| + m + |Base64Marker|
  }

  /** The length of the longest run of word characters at the start of `s`. */
  function WordRun(s: string): (n: nat)
    ensures n <= |s|
    ensures forall i :: 0 <= i < n ==> IsWordChar(s[i])
    ensures n < |s| ==> !IsWordChar(s[n])
  {
    if s != [] && IsWordChar(s[0]) then 1 + WordRun(s[1..]) else 0
  }

  /** A run of word characters followed by a non-word character, or by nothing, is a maximal run. */
  lemma {:induction false} WordRunOf(w: string, rest: string)
    requires forall i :: 0 <= i < |w| ==> IsWordChar(w[i])
    requires rest == [] || !IsWordChar(rest[0])
    ensures WordRun(w + rest) == |w|
  {
    if w == [] {
      assert w + rest == rest;
    } else {
      assert (w + rest)[0] == w[0];
      assert (w + rest)[1..] == w[1..] + rest;
      WordRunOf(w[1..], rest);
    }
  }

  /**
   * Since `;` is not a word character, the pattern matches with one subtype
   * length at most: the maximal word run after `data:image/`.
   */
  lemma MatchCharacterised(s: string, m: nat)
    ensures MatchesPrefix(s, m) <==>
      && StartsWith(s, DataImagePrefix)
      && m == WordRun(s[|DataImagePrefix|..])
      && 1 <= m
      && StartsWith(s[|DataImagePrefix|..][m..], Base64Marker)
  {
    if StartsWith(s, DataImagePrefix) && m + |DataImagePrefix| <= |s| {
      var rest := s[|DataImagePrefix|..];
      assert rest == rest[..m] + rest[m..];
      if PatternLength(m) <= |s| {
        assert s[|DataImagePrefix| + m..PatternLength(m)] == rest[m..][..|Base64Marker|];
      }
      if MatchesPrefix(s, m) {
        forall i | 0 <= i < m ensures IsWordChar(rest[..m][i]) {
          assert rest[..m][i] == s[|DataImagePrefix| + i];
        }
        assert rest[m..][0] == ';';
        WordRunOf(rest[..m], rest[m..]);
      }
      if m == WordRun(rest) && 1 <= m && StartsWith(rest[m..], Base64Marker) {
        forall i | |DataImagePrefix| <= i < |DataImagePrefix| + m ensures IsWordChar(s[i]) {
          assert s[i] == rest[i - |DataImagePrefix|];
        }
      }
    }
  }

  function StripDataUrlPrefix(s: string): (r: string)
    ensures IsSuffix(r, s)
    ensures forall m :: MatchesPrefix(s, m) ==> r == s[PatternLength(m)..]
    ensures (forall m :: !MatchesPrefix(s, m)) ==> r == s
  {
    assert forall m: nat :: MatchesPrefix(s, m) <==>
      && StartsWith(s, DataImagePrefix)
      && m == WordRun(s[|DataImagePrefix|..])
      && 1 <= m
      && StartsWith(s[|DataImagePrefix|..][m..], Base64Marker)
    by {
      forall m: nat {
        MatchCharacterised(s, m);
      }
    }
    if StartsWith(s, DataImagePrefix) then
      var rest := s[|DataImagePrefix|..];
      var m := WordRun(rest);
      if 1 <= m && StartsWith(rest[m..], Base64Marker) then s[PatternLength(m)..] else s
    else
      s
  }

  /** `data:image/<word characters>;base64,` in front of `b` is removed, and only that one prefix. */
  lemma StripRemovesOnePrefix(subtype: string, b: string)
    requires |subtype| >= 1
    requires forall i :: 0 <= i < |subtype| ==> IsWordChar(subtype[i])
    ensures StripDataUrlPrefix(DataImagePrefix + subtype + Base64Marker + b) == b
  {
    var s := DataImagePrefix + subtype + Base64Marker + b;
    assert s[|DataImagePrefix|..] == subtype + (Base64Marker + b);
    WordRunOf(subtype, Base64Marker + b);
    assert s[PatternLength(|subtype|)..] == b;
    assert s[|DataImagePrefix| + |subtype|..PatternLength(|subtype|)] == Base64Marker;
    assert MatchesPrefix(s, |subtype|);
  }

  /** A string that does not start with `data:image/` is left as it is. */
  lemma StripKeepsUnprefixed(s: string)
    requires !StartsWith(s, DataImagePrefix)
    ensures StripDataUrlPrefix(s) == s
  {
  }

  /** Two prefixes in a row: the second one survives, the pattern is applied once. */
  lemma StripAppliesOnce(b: string)
    ensures StripDataUrlPrefix("data:image/png;base64," + "data:image/png;base64," + b)
            == "data:image/png;base64," + b
  {
    assert "data:image/png;base64," == DataImagePrefix + "png" + Base64Marker;
    StripRemovesOnePrefix("png", "data:image/png;base64," + b);
    assert "data:image/png;base64," + "data:image/png;base64," + b
        == DataImagePrefix + "png" + Base64Marker + ("data:image/png;base64," + b);
  }

  /** `svg+xml` is not a run of word characters, so an SVG data URL is sent unchanged. */
  lemma StripKeepsSvg(b: string)
    ensures StripDataUrlPrefix("data:image/svg+xml;base64," + b) == "data:image/svg+xml;base64," + b
  {
    var s := "data:image/svg+xml;base64," + b;
    var rest := s[|DataImagePrefix|..];
    assert rest == "svg" + ("+xml;base64," + b);
    WordRunOf("svg", "+xml;base64," + b);
    assert WordRun(rest) == 3;
    assert rest[3..][0] == '+' != Base64Marker[0];
    assert !StartsWith(rest[3..], Base64Marker);
  }

  // ---------------------------------------------------------------------------
  // The outgoing request.

  datatype RequestPart = TextPart(text: string) | InlineDataPart(mimeType: string, data: string)
  datatype Content = Content(role: string, parts: seq<RequestPart>)
  datatype GenerateRequest = GenerateRequest(contents: seq<Content>)

  const InstructionLead := "Act as a virtual try-on assistant. Category: "
  /** The template literal continues on the next source line, keeping its break and indentation. */
  const InstructionTail := " \n                   Return the result as a generated image."

  /** The text part: the fixed lead, the category, `. `, the prompt, and the closing request. */
  function InstructionText(category: Value, prompt: Value): (r: string)
    ensures StartsWith(r, InstructionLead)
    ensures OccursAt(r, Interpolate(category), |InstructionLead|)
    ensures OccursAt(r, ". ", |InstructionLead| + |Interpolate(category)|)
    ensures OccursAt(r, Interpolate(prompt), |InstructionLead| + |Interpolate(category)| + 2)
    ensures IsSuffix(InstructionTail, r)
    ensures |r| == |InstructionLead| + |Interpolate(category)| + 2 + |Interpolate(prompt)| + |InstructionTail|
  {
    FivePieces(InstructionLead, Interpolate(category), ". ", Interpolate(prompt), InstructionTail);
    InstructionLead + Interpolate(category) + ". " + Interpolate(prompt) + InstructionTail
  }

  function BuildRequest(base64Data: string, category: Value, prompt: Value): (r: GenerateRequest)
    ensures |r.contents| == 1 && r.contents[0].role == "user"
    ensures |r.contents[0].parts| == 2
    ensures r.contents[0].parts[0] == TextPart(InstructionText(category, prompt))
    ensures Contains(r.contents[0].parts[0].text, Interpolate(category))
    ensures Contains(r.contents[0].parts[0].text, Interpolate(prompt))
    ensures r.contents[0].parts[1] == InlineDataPart("image/jpeg", base64Data)
  {
    var text := InstructionText(category, prompt);
    var k1: nat := |InstructionLead|;
    var k2: nat := |InstructionLead| + |Interpolate(category)| + 2;
    assert OccursAt(text, Interpolate(category), k1);
    assert OccursAt(text, Interpolate(prompt), k2);
    GenerateRequest([Content("user", [TextPart(text), InlineDataPart("image/jpeg", base64Data)])])
  }

  // ---------------------------------------------------------------------------
  // The model's response and the route's reply.

  datatype InlineData = InlineData(mimeType: Option<string>, data: string)
  datatype ResponsePart = ResponsePart(inlineData: Option<InlineData>, text: Option<string>)
  /** A candidate; `content: None` stands for a candidate without `content.parts`. */
  datatype Candidate = Candidate(content: Option<seq<ResponsePart>>)
  datatype GenerateResponse = GenerateResponse(candidates: seq<Candidate>)

  /**
   * `{ generatedImageUrl, status: 'success' }`, `{ generatedImageUrl, message }`
   * (with `message` dropped from the JSON when undefined), or a status with `{ error }`.
   */
  datatype RouteReply =
    | ImageReply(generatedImageUrl: string)
    | TextOnlyReply(generatedImageUrl: string, message: Option<string>)
    | ErrorReply(status: nat, error: string)

  /** The first index whose element satisfies `p`, as `Array.prototype.find` scans. */
  function FindFirst<T>(s: seq<T>, p: T -> bool): (r: Option<nat>)
    ensures r.Some? ==> r.value < |s| && p(s[r.value])
    ensures r.Some? ==> forall j :: 0 <= j < r.value ==> !p(s[j])
    ensures r.None? ==> forall j :: 0 <= j < |s| ==> !p(s[j])
  {
    if s == [] then None
    else if p(s[0]) then Some(0)
    else match FindFirst(s[1..], p)
      case None => None
      case Some(k) => Some(k + 1)
  }

  /** `part => part.inlineData`: an object is always truthy, whatever its fields hold. */
  predicate HasInlineData(part: ResponsePart): (b: bool)
    ensures b <==> part.inlineData != None
  {
    part.inlineData.Some?
  }

  /** `part => part.text`: an absent or empty text is falsy. */
  predicate HasText(part: ResponsePart): (b: bool)
    ensures b ==> part.text.Some? && |part.text.value| >= 1
    ensures part.text == Some("") || part.text.None? ==> !b
  {
    part.text.Some? && part.text.value != ""
  }

  /** `inlineData.mimeType || 'image/png'`: an absent or empty mime type falls back to PNG. */
  function MimeTypeOrDefault(mimeType: Option<string>): (r: string)
    ensures r != ""
    ensures mimeType.None? || mimeType == Some("") ==> r == DefaultMimeType
    ensures mimeType.Some? && mimeType.value != "" ==> r == mimeType.value
  {
    if mimeType.Some? && mimeType.value != "" then mimeType.value else DefaultMimeType
  }

  /** `data:${mimeType};base64,${data}`. */
  function DataUrl(mimeType: string, data: string): (r: string)
    ensures StartsWith(r, "data:")
    ensures OccursAt(r, mimeType, 5)
    ensures IsSuffix(Base64Marker + data, r)
    ensures |r| == 5 + |mimeType| + |Base64Marker| + |data|
  {
    "data:" + mimeType + (Base64Marker + data)
  }

  /** How the route answers once it holds the first candidate's parts. */
  function SelectReply(parts: seq<ResponsePart>): (r: RouteReply)
    ensures r.ImageReply? <==> exists j :: 0 <= j < |parts| && HasInlineData(parts[j])
    ensures r.TextOnlyReply? ==> r.generatedImageUrl == PlaceholderUrl
    ensures !r.ErrorReply?
  {
    match FindFirst(parts, HasInlineData)
    case Some(k) =>
      var image := parts[k].inlineData.value;
      ImageReply(DataUrl(MimeTypeOrDefault(image.mimeType), image.data))
    case None =>
      var message := match FindFirst(parts, HasText)
        case Some(j) => Some(parts[j].text.value)
        case None => None;
      TextOnlyReply(PlaceholderUrl, message)
  }

  /** The whole handler; every thrown error ends in the same 500 reply. */
  function Handle(body: RequestBody, generate: GenerateRequest -> Option<GenerateResponse>): (r: RouteReply)
    ensures r.ErrorReply? ==> r == ErrorReply(500, ProcessingError)
    ensures !body.imageBase64.Str? ==> r == ErrorReply(500, ProcessingError)
  {
    if !body.imageBase64.Str? then ErrorReply(500, ProcessingError)
    else
      var request := BuildRequest(StripDataUrlPrefix(body.imageBase64.s), body.category, body.prompt);
      match generate(request)
      case None => ErrorReply(500, ProcessingError)
      case Some(response) =>
        if |response.candidates| == 0 then ErrorReply(500, ProcessingError)
        else match response.candidates[0].content
          case None => ErrorReply(500, ProcessingError)
          case Some(parts) => SelectReply(parts)
  }

  // ---------------------------------------------------------------------------
  // Properties of the reply selection.

  /** The first part with inline data is the one relayed, as a data URL of its own mime type and data. */
  lemma FirstImagePartWins(parts: seq<ResponsePart>, k: nat)
    requires k < |parts| && HasInlineData(parts[k])
    requires forall j :: 0 <= j < k ==> !HasInlineData(parts[j])
    ensures var image := parts[k].inlineData.value;
            SelectReply(parts) == ImageReply(DataUrl(MimeTypeOrDefault(image.mimeType), image.data))
  {
  }

  /** A chosen image part without a mime type is relayed as PNG. */
  lemma MissingMimeIsPng(parts: seq<ResponsePart>, k: nat)
    requires k < |parts| && HasInlineData(parts[k]) && parts[k].inlineData.value.mimeType.None?
    requires forall j :: 0 <= j < k ==> !HasInlineData(parts[j])
    ensures SelectReply(parts) == ImageReply(DataUrl("image/png", parts[k].inlineData.value.data))
  {
    FirstImagePartWins(parts, k);
  }

  /**
   * Without any inline-data part the reply is the placeholder, with the text of
   * the first part whose text is non-empty, or without a message when there is none.
   */
  lemma TextOnlyFallback(parts: seq<ResponsePart>)
    requires forall j :: 0 <= j < |parts| ==> !HasInlineData(parts[j])
    ensures SelectReply(parts).TextOnlyReply?
    ensures SelectReply(parts).generatedImageUrl == PlaceholderUrl
    ensures var m := SelectReply(parts).message;
            && (m.None? <==> forall j :: 0 <= j < |parts| ==> !HasText(parts[j]))
            && (m.Some? ==> exists j :: 0 <= j < |parts| && HasText(parts[j]) && m.value == parts[j].text.value
                                        && forall i :: 0 <= i < j ==> !HasText(parts[i]))
  {
    assert FindFirst(parts, HasInlineData).None?;
  }

  /**
   * The request sent for a posted string carries, in this order, the text part
   * and the stripped image as JPEG inline data; the reply then follows the first candidate.
   */
  lemma RequestSent(image: string, category: Value, prompt: Value,
                    generate: GenerateRequest -> Option<GenerateResponse>)
    ensures var request := BuildRequest(StripDataUrlPrefix(image), category, prompt);
            && request.contents[0].parts[1] == InlineDataPart("image/jpeg", StripDataUrlPrefix(image))
            && (generate(request).None? ==>
                  Handle(RequestBody(Str(image), prompt, category), generate) == ErrorReply(500, ProcessingError))
            && (generate(request).Some? && |generate(request).value.candidates| > 0
                && generate(request).value.candidates[0].content.Some? ==>
                  Handle(RequestBody(Str(image), prompt, category), generate)
                  == SelectReply(generate(request).value.candidates[0].content.value))
  {
  }

  /**
   * A response without a candidate, or whose first candidate has no
   * `content.parts`, makes `response.candidates[0].content.parts` throw: 500.
   */
  lemma MissingPartsFail(image: string, category: Value, prompt: Value,
                         generate: GenerateRequest -> Option<GenerateResponse>)
    requires var request := BuildRequest(StripDataUrlPrefix(image), category, prompt);
             && generate(request).Some?
             && (|generate(request).value.candidates| == 0 || generate(request).value.candidates[0].content.None?)
    ensures Handle(RequestBody(Str(image), prompt, category), generate) == ErrorReply(500, ProcessingError)
  {
  }

  /** A missing image makes `.replace` throw: 500, whatever the model would have said. */
  lemma MissingImageFails(body: RequestBody, g1: GenerateRequest -> Option<GenerateResponse>,
                          g2: GenerateRequest -> Option<GenerateResponse>)
    requires body.imageBase64 == Undefined || body.imageBase64 == Null
    ensures Handle(body, g1) == ErrorReply(500, ProcessingError)
    ensures Handle(body, g1) == Handle(body, g2)
  {
  }
}
