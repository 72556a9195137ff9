/**
 * The serverless relay `generate-tryon`: validate the posted body, choose the
 * instruction text for the category, normalise the image into a data URL,
 * forward both to the AI gateway, and turn the gateway's reply into a response.
 *
 * The gateway call itself is the parameter `gateway`: a function from the
 * outgoing request to the reply it gets, or to the message of the error the
 * `fetch` rejects with. A response that does not depend on `gateway` is one
 * produced without calling it.
 */
module Relay {
  import opened Common
  import opened Js

  /** The response the function sends: 200 with `{ generatedImageUrl, instructions }`, or an error body. */
  datatype Outcome = Ok(url: string, instructions: string) | Err(status: nat, message: string)

  const MissingFieldsError := "Missing required fields: imageBase64 and prompt are required"
  const MissingKeyError := "LOVABLE_API_KEY is not configured"
  const RateLimitError := "Rate limit exceeded. Please try again later."
  // Split in two: the verifier reasons about the characters of short literals only.
  const UsageLimitError := "Usage limit reached. " + "Please add credits to continue."
  const GatewayErrorPrefix := "AI gateway error: "
  const NoImageError := "No image generated"

  /** What the relay puts in front of a bare base64 payload. */
  const JpegDataUrlPrefix := "data:image/jpeg;base64,"

  // ---------------------------------------------------------------------------
  // Instruction templates: the prompt is placed between `lead` and `tail`.

  datatype Template = Template(lead: string, tail: string)

  const MakeupTemplate := Template(
    "Apply makeup to the person in this image: ",
    ". Keep the same pose, gender, clothes, and age. Do not modify face shape, iris, or make them look older. Generate the edited image.")
  const ClothesTemplate := Template(
    "Dress the person in this image with: ",
    ". Keep the same pose, gender, face, and age. Generate the edited image.")
  const StyleAdviseTemplate := Template(
    "Style the person in this image according to: ",
    ". Keep the same person and adjust their overall appearance accordingly. Generate the edited image.")
  const GenericTemplate := Template(
    "Edit this image: ",
    ". Generate the edited image.")

  /** The if/else chain on `category`: three exact matches and a generic default. */
  function SelectTemplate(category: Value): (t: Template)
    ensures t == MakeupTemplate <==> category == Str("makeup")
    ensures t == ClothesTemplate <==> category == Str("clothes")
    ensures t == StyleAdviseTemplate <==> category == Str("style-advise")
    ensures t == GenericTemplate <==>
      category != Str("makeup") && category != Str("clothes") && category != Str("style-advise")
  {
    if category == Str("makeup") then MakeupTemplate
    else if category == Str("clothes") then ClothesTemplate
    else if category == Str("style-advise") then StyleAdviseTemplate
    else GenericTemplate
  }

  /** The instruction text: the prompt framed by the selected template. */
  function Instructions(category: Value, prompt: string): (r: string)
    ensures StartsWith(r, SelectTemplate(category).lead)
    ensures IsSuffix(SelectTemplate(category).tail, r)
    ensures |r| == |SelectTemplate(category).lead| + |prompt| + |SelectTemplate(category).tail|
  {
    var t := SelectTemplate(category);
    t.lead + prompt + t.tail
  }

  /** Every instruction text carries the user's prompt verbatim, right after the template's lead. */
  lemma InstructionsContainPrompt(category: Value, prompt: string)
    ensures OccursAt(Instructions(category, prompt), prompt, |SelectTemplate(category).lead|)
    ensures Contains(Instructions(category, prompt), prompt)
  {
    var t := SelectTemplate(category);
    MiddleOccurs(t.lead, prompt, t.tail);
  }

  /** For a fixed category the instruction text determines the prompt. */
  lemma InstructionsDeterminePrompt(category: Value, p1: string, p2: string)
    requires Instructions(category, p1) == Instructions(category, p2)
    ensures p1 == p2
  {
    var t := SelectTemplate(category);
    var a, b := Instructions(category, p1), Instructions(category, p2);
    assert |p1| == |p2|;
    calc {
      p1;
      { assert OccursAt(a, p1, |t.lead|); }
      a[|t.lead|..|t.lead| + |p1|];
      b[|t.lead|..|t.lead| + |p2|];
      { assert OccursAt(b, p2, |t.lead|); }
      p2;
    }
  }

  // ---------------------------------------------------------------------------
  // Image URL normalisation.

  function NormaliseImageUrl(image: string): (url: string)
    ensures StartsWith(url, "data:")
    ensures StartsWith(image, "data:") ==> url == image
    ensures !StartsWith(image, "data:") ==> url == JpegDataUrlPrefix + image
  {
    if StartsWith(image, "data:") then image else JpegDataUrlPrefix + image
  }

  /** Normalising twice is normalising once. */
  lemma NormaliseIdempotent(image: string)
    ensures NormaliseImageUrl(NormaliseImageUrl(image)) == NormaliseImageUrl(image)
  {
  }

  /** A bare payload and the same payload already carrying the JPEG prefix normalise alike. */
  lemma NormaliseCanonical(b: string)
    requires !StartsWith(b, "data:")
    ensures NormaliseImageUrl(JpegDataUrlPrefix + b) == NormaliseImageUrl(b)
  {
    assert (JpegDataUrlPrefix + b)[..5] == "data:";
  }

  // ---------------------------------------------------------------------------
  // The gateway exchange.

  /** The two-part user message: the instruction text, then the image URL. */
  datatype GatewayRequest = GatewayRequest(instructions: string, imageUrl: string)

  /** The reply's JSON, down the path `choices[0].message.images[0].image_url.url`. */
  datatype ImageUrlField = ImageUrlField(url: Value)
  datatype GatewayImage = GatewayImage(imageUrl: Option<ImageUrlField>)
  datatype GatewayMessage = GatewayMessage(images: Option<seq<GatewayImage>>)
  datatype Choice = Choice(message: Option<GatewayMessage>)
  datatype GatewayReply = GatewayReply(status: nat, choices: Option<seq<Choice>>)

  /** `response.ok`: the status is in the 2xx range. */
  predicate IsOk(status: nat): (b: bool)
    ensures b ==> status != 402 && status != 429 && status != 500
    ensures status == 200 ==> b
  {
    200 <= status <= 299
  }

  /** Every link of `choices[0].message.images[0].image_url` is present. */
  predicate HasImagePath(reply: GatewayReply) {
    && reply.choices.Some? && |reply.choices.value| > 0
    && reply.choices.value[0].message.Some?
    && reply.choices.value[0].message.value.images.Some?
    && |reply.choices.value[0].message.value.images.value| > 0
    && reply.choices.value[0].message.value.images.value[0].imageUrl.Some?
  }

  /** The `url` field at the end of that path. */
  function PathUrl(reply: GatewayReply): Value
    requires HasImagePath(reply)
  {
    reply.choices.value[0].message.value.images.value[0].imageUrl.value.url
  }

  /**
   * `data.choices?.[0]?.message?.images?.[0]?.image_url?.url`: every missing
   * link, and an index past the end of a list, gives `undefined`.
   */
  function ExtractImageUrl(reply: GatewayReply): (v: Value)
    ensures HasImagePath(reply) ==> v == PathUrl(reply)
    ensures !HasImagePath(reply) ==> v == Undefined
  {
    match reply.choices
    case None => Undefined
    case Some(choices) =>
      if |choices| == 0 then Undefined
      else match choices[0].message
        case None => Undefined
        case Some(message) =>
          match message.images
          case None => Undefined
          case Some(images) =>
            if |images| == 0 then Undefined
            else match images[0].imageUrl
              case None => Undefined
              case Some(field) => field.url
  }

  /** The response for a reply that is not ok: 429 and 402 are passed on, anything else is a 500. */
  function UpstreamFailure(status: nat): (o: Outcome)
    ensures o.Err?
    ensures o.status == 429 <==> status == 429
    ensures o.status == 402 <==> status == 402
    ensures o.status == 500 <==> status != 429 && status != 402
    ensures status == 429 ==> o.message == RateLimitError
    ensures status == 402 ==> o.message == UsageLimitError
    ensures status != 429 && status != 402 ==> o.message == GatewayErrorPrefix + Decimal(status)
  {
    if status == 429 then Err(429, RateLimitError)
    else if status == 402 then Err(402, UsageLimitError)
    else Err(500, GatewayErrorPrefix + Decimal(status))
  }

  /** What the function answers once the gateway has replied. */
  function Respond(instructions: string, reply: GatewayReply): (o: Outcome)
    ensures o.Ok? ==> o.instructions == instructions && o.url != ""
    ensures o.Ok? <==> IsOk(reply.status) && Truthy(ExtractImageUrl(reply))
  {
    if !IsOk(reply.status) then UpstreamFailure(reply.status)
    else
      var url := ExtractImageUrl(reply);
      if Truthy(url) then Ok(url.s, instructions) else Err(500, NoImageError)
  }

  /**
   * Everything before the gateway call: the field check, the API-key check,
   * the instruction text and the image URL.
   */
  function Prepare(body: RequestBody, apiKeyConfigured: bool): (r: Result<GatewayRequest, Outcome>)
    ensures r.Success? <==> Truthy(body.imageBase64) && Truthy(body.prompt) && apiKeyConfigured
    ensures !Truthy(body.imageBase64) || !Truthy(body.prompt) ==>
      r == Failure(Err(400, MissingFieldsError))
    ensures Truthy(body.imageBase64) && Truthy(body.prompt) && !apiKeyConfigured ==>
      r == Failure(Err(500, MissingKeyError))
    ensures r.Success? ==>
      && StartsWith(r.value.imageUrl, "data:")
      && Contains(r.value.instructions, body.prompt.s)
  {
    if !Truthy(body.imageBase64) || !Truthy(body.prompt) then
      Failure(Err(400, MissingFieldsError))
    else if !apiKeyConfigured then
      Failure(Err(500, MissingKeyError))
    else
      InstructionsContainPrompt(body.category, body.prompt.s);
      Success(GatewayRequest(
        Instructions(body.category, body.prompt.s),
        NormaliseImageUrl(body.imageBase64.s)))
  }

  /** The gateway `fetch`: the reply, or the message of the error it rejects with. */
  type Gateway = GatewayRequest -> Result<GatewayReply, string>

  /**
   * The whole handler for a POST. A rejected `fetch` reaches the catch block,
   * which answers 500 with the error's message.
   */
  function Handle(body: RequestBody, apiKeyConfigured: bool, gateway: Gateway): (o: Outcome)
    ensures o.Ok? ==>
      && apiKeyConfigured && Truthy(body.imageBase64) && Truthy(body.prompt)
      && Contains(o.instructions, body.prompt.s) && o.url != ""
    ensures apiKeyConfigured && Truthy(body.imageBase64) && Truthy(body.prompt) ==>
      var request := GatewayRequest(Instructions(body.category, body.prompt.s), NormaliseImageUrl(body.imageBase64.s));
      gateway(request).Failure? ==> o == Err(500, gateway(request).error)
  {
    match Prepare(body, apiKeyConfigured)
    case Failure(o) => o
    case Success(request) =>
      match gateway(request)
      case Failure(message) => Err(500, message)
      case Success(reply) => Respond(request.instructions, reply)
  }

  // ---------------------------------------------------------------------------
  // Properties of the handler.

  /** A missing or empty image or prompt is answered with 400 without calling the gateway. */
  lemma MissingFieldsRejected(body: RequestBody, apiKeyConfigured: bool,
                              g1: Gateway, g2: Gateway)
    requires !Truthy(body.imageBase64) || !Truthy(body.prompt)
    ensures Handle(body, apiKeyConfigured, g1) == Err(400, MissingFieldsError)
    ensures Handle(body, apiKeyConfigured, g1) == Handle(body, apiKeyConfigured, g2)
  {
  }

  /**
   * On a valid body with a configured key the gateway receives the selected
   * instructions and the normalised image. A rejected call is a 500 with the
   * error's message; a 200 carries the reply's URL and those instructions.
   */
  lemma ValidBodyForwarded(body: RequestBody, gateway: Gateway)
    requires Truthy(body.imageBase64) && Truthy(body.prompt)
    ensures var request := GatewayRequest(
              Instructions(body.category, body.prompt.s), NormaliseImageUrl(body.imageBase64.s));
            var o := Handle(body, true, gateway);
            gateway(request).Failure? ==> o == Err(500, gateway(request).error)
    ensures var request := GatewayRequest(
              Instructions(body.category, body.prompt.s), NormaliseImageUrl(body.imageBase64.s));
            var o := Handle(body, true, gateway);
            gateway(request).Success? ==>
            var reply := gateway(request).value;
            && (o.Ok? <==> IsOk(reply.status) && Truthy(ExtractImageUrl(reply)))
            && (o.Ok? ==> o == Ok(ExtractImageUrl(reply).s, request.instructions))
            && (!IsOk(reply.status) ==> o == UpstreamFailure(reply.status))
            && (IsOk(reply.status) && !Truthy(ExtractImageUrl(reply)) ==> o == Err(500, NoImageError))
  {
  }

  /**
   * Every error response uses one of the four statuses 400, 402, 429 and 500,
   * and each status other than 500 comes with its own fixed message.
   */
  lemma ErrorStatuses(body: RequestBody, apiKeyConfigured: bool, gateway: Gateway)
    ensures var o := Handle(body, apiKeyConfigured, gateway);
            o.Err? ==> o.status in {400, 402, 429, 500}
    ensures var o := Handle(body, apiKeyConfigured, gateway);
            && (o.Err? && o.status == 400 ==> o.message == MissingFieldsError)
            && (o.Err? && o.status == 402 ==> o.message == UsageLimitError)
            && (o.Err? && o.status == 429 ==> o.message == RateLimitError)
  {
  }

  /** The three upstream error messages are distinct, so a caller can tell the causes apart. */
  lemma UpstreamFailuresDistinct(status: nat)
    requires status != 429 && status != 402
    ensures UpstreamFailure(status).message != RateLimitError
    ensures UpstreamFailure(status).message != UsageLimitError
  {
    var m := UpstreamFailure(status).message;
    assert m[0] == GatewayErrorPrefix[0] == 'A';
    assert RateLimitError[0] == 'R';
    assert UsageLimitError[0] == 'U';
  }
}
