/** The generation client (services/geminiService.ts): the two exported operations, the
    prompt choice, the measurement summary, the order of the request parts and the scan of
    the reply for its first inline image. The hosted model itself is an opaque oracle: a
    function from the request to a reply or a thrown exception. */
module GeminiService {
  import opened Outcomes
  import opened Types
  import opened DataUri

  const ModelName: string := "gemini-2.5-flash-image-preview"
  const NoImageMessage: string := "AI did not return an image. Please try again."
  const NotProvided: string := "not provided"

  /** The prompt text, abstracted to the choice of template and what it embeds. */
  datatype Prompt =
    | PhotoshootPrompt                                   // the Hyperrealistic template
    | StylizedAvatarPrompt(styleName: string)            // "... a full-body ${style} avatar ..."
    | TryOnPrompt(measurementText: string, details: ClothingDetails)

  datatype Modality = ImageModality | TextModality

  datatype RequestPart = ImagePart(inlineData: InlineData) | TextPart(prompt: Prompt)

  datatype Request = Request(model: string, parts: seq<RequestPart>, responseModalities: seq<Modality>)

  /** The reply, with every level the source reaches through `?.` optional. */
  datatype Part = Part(inlineData: Option<InlineData>)
  datatype Content = Content(parts: Option<seq<Part>>)
  datatype Candidate = Candidate(content: Option<Content>)
  datatype Response = Response(candidates: Option<seq<Candidate>>)

  /** The remote call: it answers a request with a reply, or throws. */
  type Oracle = Request -> Result<Response>

  // ---------------------------------------------------------------------------
  // Prompts

  /** `generateAvatar`'s template choice. */
  function AvatarPrompt(style: AvatarStyle): (p: Prompt)
    ensures p == PhotoshootPrompt <==> style == Hyperrealistic
    ensures style != Hyperrealistic ==> p == StylizedAvatarPrompt(StyleName(style))
  {
    if style == Hyperrealistic then PhotoshootPrompt else StylizedAvatarPrompt(StyleName(style))
  }

  /** Different styles never produce the same prompt. */
  lemma AvatarPromptInjective(a: AvatarStyle, b: AvatarStyle)
    ensures AvatarPrompt(a) == AvatarPrompt(b) ==> a == b
  {
  }

  /** `${v || 'not provided'}` */
  function Shown(v: string): string {
    if v == "" then NotProvided else v
  }

  /** One entry of the summary: caption, the shown value, the unit, then the rest. */
  function Entry(caption: string, v: string, unit: string, rest: string): string {
    caption + (Shown(v) + (unit + rest))
  }

  /** `measurementText`: height, weight, chest, waist and hips, in that order, each with its
      unit, and `not provided` in place of an empty field. */
  function MeasurementText(m: Measurements): (t: string)
    ensures t == "Height: " + (Shown(m.height) + (" cm, " + ("Weight: " + (Shown(m.weight) + (" kg, " +
                 ("Chest: " + (Shown(m.chest) + (" cm, " + ("Waist: " + (Shown(m.waist) + (" cm, " +
                 ("Hips: " + (Shown(m.hips) + " cm.")))))))))))))
  {
    Entry("Height: ", m.height, " cm, ",
    Entry("Weight: ", m.weight, " kg, ",
    Entry("Chest: ", m.chest, " cm, ",
    Entry("Waist: ", m.waist, " cm, ",
    Entry("Hips: ", m.hips, " cm.", "")))))
  }

  /** What a number input can hold: the empty string or a numeral. */
  predicate IsNumberInput(v: string) {
    forall i :: 0 <= i < |v| ==> v[i] in "0123456789+-.eE"
  }

  lemma {:induction false} CancelPrefix(p: string, a: string, b: string)
    requires p + a == p + b
    ensures a == b
  {
    assert a == (p + a)[|p|..];
    assert b == (p + b)[|p|..];
  }

  /** A shown value ends at the first space of a numeral, and `not provided` starts with a
      letter no numeral has, so the value and what follows it can be told apart. */
  lemma {:induction false} ShownSplits(v1: string, r1: string, v2: string, r2: string)
    requires IsNumberInput(v1) && IsNumberInput(v2)
    requires |r1| > 0 && r1[0] == ' ' && |r2| > 0 && r2[0] == ' '
    requires Shown(v1) + r1 == Shown(v2) + r2
    ensures v1 == v2 && r1 == r2
  {
    var t := Shown(v1) + r1;
    assert t == Shown(v2) + r2;
    // `not provided` starts with 'n', a numeral never does
    assert t[0] == Shown(v1)[0] && t[0] == Shown(v2)[0];
    assert v1 == "" <==> v2 == "";
    if v1 == "" {
      CancelPrefix(NotProvided, r1, r2);
    } else {
      // both are numerals: each ends at the first space of t
      assert t[|v1|] == ' ' && t[|v2|] == ' ';
      assert forall i :: 0 <= i < |v1| ==> t[i] == v1[i] != ' ';
      assert forall i :: 0 <= i < |v2| ==> t[i] == v2[i] != ' ';
      assert v1 == t[..|v1|] == v2;
      CancelPrefix(v1, r1, r2);
    }
  }

  lemma {:induction false} EntryInjective(caption: string, unit: string, v1: string, r1: string, v2: string, r2: string)
    requires IsNumberInput(v1) && IsNumberInput(v2)
    requires |unit| > 0 && unit[0] == ' '
    requires Entry(caption, v1, unit, r1) == Entry(caption, v2, unit, r2)
    ensures v1 == v2 && r1 == r2
  {
    CancelPrefix(caption, Shown(v1) + (unit + r1), Shown(v2) + (unit + r2));
    ShownSplits(v1, unit + r1, v2, unit + r2);
    CancelPrefix(unit, r1, r2);
  }

  /** The summary loses nothing: for values a number input can hold, two forms with the same
      summary are the same form; in particular an empty field, shown as `not provided`, is
      never confused with an entered value. */
  lemma {:induction false} MeasurementTextInjective(m1: Measurements, m2: Measurements)
    requires IsNumberInput(m1.height) && IsNumberInput(m1.weight) && IsNumberInput(m1.chest)
    requires IsNumberInput(m1.waist) && IsNumberInput(m1.hips)
    requires IsNumberInput(m2.height) && IsNumberInput(m2.weight) && IsNumberInput(m2.chest)
    requires IsNumberInput(m2.waist) && IsNumberInput(m2.hips)
    requires MeasurementText(m1) == MeasurementText(m2)
    ensures m1 == m2
  {
    var h5 := Entry("Hips: ", m1.hips, " cm.", "");
    var h5' := Entry("Hips: ", m2.hips, " cm.", "");
    var w4 := Entry("Waist: ", m1.waist, " cm, ", h5);
    var w4' := Entry("Waist: ", m2.waist, " cm, ", h5');
    var c3 := Entry("Chest: ", m1.chest, " cm, ", w4);
    var c3' := Entry("Chest: ", m2.chest, " cm, ", w4');
    var w2 := Entry("Weight: ", m1.weight, " kg, ", c3);
    var w2' := Entry("Weight: ", m2.weight, " kg, ", c3');
    EntryInjective("Height: ", " cm, ", m1.height, w2, m2.height, w2');
    EntryInjective("Weight: ", " kg, ", m1.weight, c3, m2.weight, c3');
    EntryInjective("Chest: ", " cm, ", m1.chest, w4, m2.chest, w4');
    EntryInjective("Waist: ", " cm, ", m1.waist, h5, m2.waist, h5');
    EntryInjective("Hips: ", " cm.", m1.hips, "", m2.hips, "");
  }

  // ---------------------------------------------------------------------------
  // Requests

  /** The avatar request: the uploaded photo, then the prompt. */
  function AvatarRequest(photo: InlineData, style: AvatarStyle): (r: Request)
    ensures r.model == ModelName && r.responseModalities == [ImageModality, TextModality]
    ensures |r.parts| == 2
    ensures r.parts[0] == ImagePart(photo)
    ensures r.parts[1] == TextPart(AvatarPrompt(style))
  {
    Request(ModelName, [ImagePart(photo), TextPart(AvatarPrompt(style))], [ImageModality, TextModality])
  }

  /** The try-on request: the avatar first, the clothing images in their given order, the
      prompt last. */
  function TryOnRequest(avatar: InlineData, clothing: seq<InlineData>, details: ClothingDetails, m: Measurements): (r: Request)
    ensures r.model == ModelName && r.responseModalities == [ImageModality, TextModality]
    ensures |r.parts| == |clothing| + 2
    ensures r.parts[0] == ImagePart(avatar)
    ensures forall i :: 0 <= i < |clothing| ==> r.parts[i + 1] == ImagePart(clothing[i])
    ensures r.parts[|clothing| + 1] == TextPart(TryOnPrompt(MeasurementText(m), details))
  {
    var clothingParts := seq(|clothing|, i requires 0 <= i < |clothing| => ImagePart(clothing[i]));
    Request(ModelName, [ImagePart(avatar)] + clothingParts + [TextPart(TryOnPrompt(MeasurementText(m), details))],
            [ImageModality, TextModality])
  }

  /** `base64ClothingImages.map(fileToGenerativePart)`: every image parsed, in order, or the
      exception of the first one that does not parse. */
  function ParseAll(images: seq<string>): (r: Result<seq<InlineData>>)
    ensures r.Ok? <==> forall i :: 0 <= i < |images| ==> Parse(images[i]).Ok?
    ensures r.Ok? ==> |r.value| == |images|
    ensures r.Ok? ==> forall i :: 0 <= i < |images| ==> r.value[i] == Parse(images[i]).value
    ensures r.Err? ==> r.error == Error(InvalidImageMessage)
  {
    if |images| == 0 then Ok([])
    else
      match Parse(images[0])
      case Err(e) => Err(e)
      case Ok(d) =>
        match ParseAll(images[1..])
        case Err(e) => Err(e)
        case Ok(ds) => Ok([d] + ds)
  }

  // ---------------------------------------------------------------------------
  // Replies

  /** `response.candidates?.[0]?.content?.parts || []` */
  function ResponseParts(resp: Response): (ps: seq<Part>)
    ensures resp.candidates.Some? && |resp.candidates.value| > 0
            && resp.candidates.value[0].content.Some? && resp.candidates.value[0].content.value.parts.Some?
            ==> ps == resp.candidates.value[0].content.value.parts.value
    ensures |ps| > 0 ==> resp.candidates.Some? && |resp.candidates.value| > 0
                         && resp.candidates.value[0].content.Some?
                         && resp.candidates.value[0].content.value.parts.Some?
  {
    if resp.candidates.Some? && |resp.candidates.value| > 0
       && resp.candidates.value[0].content.Some? && resp.candidates.value[0].content.value.parts.Some?
    then resp.candidates.value[0].content.value.parts.value
    else []
  }

  /** The first part carrying inline data, as a data URI, or the no-image exception. */
  function ExtractImage(parts: seq<Part>): (r: Result<string>)
    ensures r.Ok? ==> "data:" <= r.value
    ensures r.Err? ==> r.error == Error(NoImageMessage)
  {
    if |parts| == 0 then Err(Error(NoImageMessage))
    else if parts[0].inlineData.Some? then Ok(Format(parts[0].inlineData.value))
    else ExtractImage(parts[1..])
  }

  /** The first inline-image part wins, and only a reply without one fails. */
  lemma {:induction false} ExtractImageIsFirst(parts: seq<Part>)
    ensures forall k :: (0 <= k < |parts| && parts[k].inlineData.Some?
                         && (forall j :: 0 <= j < k ==> parts[j].inlineData.None?))
                        ==> ExtractImage(parts) == Ok(Format(parts[k].inlineData.value))
    ensures (forall j :: 0 <= j < |parts| ==> parts[j].inlineData.None?)
      ==> ExtractImage(parts) == Err(Error(NoImageMessage))
  {
    if |parts| > 0 {
      ExtractImageIsFirst(parts[1..]);
      assert forall j :: 1 <= j < |parts| ==> parts[1..][j - 1] == parts[j];
    }
  }

  /** Parts after the first image do not matter. */
  lemma {:induction false} ExtractImageIgnoresLaterParts(parts: seq<Part>, later: seq<Part>)
    requires ExtractImage(parts).Ok?
    ensures ExtractImage(parts + later) == ExtractImage(parts)
  {
    if parts[0].inlineData.None? {
      assert (parts + later)[1..] == parts[1..] + later;
      ExtractImageIgnoresLaterParts(parts[1..], later);
    }
  }

  /** The loop of both exported operations: return on the first part with inline data,
      throw when the loop runs out. */
  method FirstInlineImage(parts: seq<Part>) returns (r: Result<string>)
    ensures r == ExtractImage(parts)
  {
    for i := 0 to |parts|
      invariant ExtractImage(parts[i..]) == ExtractImage(parts)
    {
      assert parts[i..][1..] == parts[i + 1..];
      if parts[i].inlineData.Some? {
        return Ok(Format(parts[i].inlineData.value));
      }
    }
    return Err(Error(NoImageMessage));
  }

  /** What the caller gets once the remote call has returned or thrown. */
  function HandleReply(reply: Result<Response>): (r: Result<string>)
    ensures reply.Err? ==> r == Err(reply.error)
    ensures r.Ok? ==> "data:" <= r.value
  {
    match reply
    case Err(e) => Err(e)
    case Ok(resp) => ExtractImage(ResponseParts(resp))
  }

  /** A reply without a first candidate, content or parts list is a reply without an image. */
  lemma MissingPartsMeanNoImage(resp: Response)
    requires resp.candidates.None? || |resp.candidates.value| == 0
      || resp.candidates.value[0].content.None? || resp.candidates.value[0].content.value.parts.None?
    ensures HandleReply(Ok(resp)) == Err(Error(NoImageMessage))
  {
  }

  // ---------------------------------------------------------------------------
  // The two exported operations

  /** `generateAvatar`, as a value: an unparsable photo throws before the call is made. */
  function AvatarOutcome(photo: string, style: AvatarStyle, oracle: Oracle): (r: Result<string>)
    ensures Parse(photo).Err? ==> r == Err(Error(InvalidImageMessage))
    ensures Parse(photo).Ok? ==> r == HandleReply(oracle(AvatarRequest(Parse(photo).value, style)))
  {
    match Parse(photo)
    case Err(e) => Err(e)
    case Ok(d) => HandleReply(oracle(AvatarRequest(d, style)))
  }

  /** `performTryOn`, as a value: an unparsable avatar or clothing image throws before the
      call is made. */
  function TryOnOutcome(avatar: string, clothing: seq<string>, details: ClothingDetails, m: Measurements,
                        oracle: Oracle): (r: Result<string>)
    ensures Parse(avatar).Err? || ParseAll(clothing).Err? ==> r == Err(Error(InvalidImageMessage))
    ensures Parse(avatar).Ok? && ParseAll(clothing).Ok?
      ==> r == HandleReply(oracle(TryOnRequest(Parse(avatar).value, ParseAll(clothing).value, details, m)))
  {
    match ParseAll(clothing)
    case Err(e) => Err(e)
    case Ok(parts) =>
      match Parse(avatar)
      case Err(e) => Err(e)
      case Ok(a) => HandleReply(oracle(TryOnRequest(a, parts, details, m)))
  }

  /** A successful outcome is the data URI of the first inline image of the reply; when that
      image has an `image/<letters>` type and a single-line payload, it parses back to exactly
      that image, so an avatar can be sent again as the input of a try-on. */
  lemma {:induction false} SuccessIsFirstReplyImage(reply: Result<Response>, k: nat)
    requires reply.Ok?
    requires k < |ResponseParts(reply.value)|
    requires ResponseParts(reply.value)[k].inlineData.Some?
    requires forall j :: 0 <= j < k ==> ResponseParts(reply.value)[j].inlineData.None?
    ensures HandleReply(reply) == Ok(Format(ResponseParts(reply.value)[k].inlineData.value))
    ensures IsImageMimeType(ResponseParts(reply.value)[k].inlineData.value.mimeType)
      && NoLineBreak(ResponseParts(reply.value)[k].inlineData.value.data)
      ==> Parse(HandleReply(reply).value) == Ok(ResponseParts(reply.value)[k].inlineData.value)
  {
    var parts := ResponseParts(reply.value);
    ExtractImageIsFirst(parts);
    var d := parts[k].inlineData.value;
    if IsImageMimeType(d.mimeType) && NoLineBreak(d.data) {
      ParseFormat(d);
    }
  }

  method GenerateAvatar(photo: string, style: AvatarStyle, oracle: Oracle) returns (r: Result<string>)
    ensures r == AvatarOutcome(photo, style, oracle)
  {
    var parsed := Parse(photo);
    if parsed.Err? {
      return Err(parsed.error);
    }
    var reply := oracle(AvatarRequest(parsed.value, style));
    if reply.Err? {
      return Err(reply.error);
    }
    r := FirstInlineImage(ResponseParts(reply.value));
  }

  method PerformTryOn(avatar: string, clothing: seq<string>, details: ClothingDetails, m: Measurements,
                      oracle: Oracle) returns (r: Result<string>)
    ensures r == TryOnOutcome(avatar, clothing, details, m, oracle)
  {
    var clothingParts := ParseAll(clothing);
    if clothingParts.Err? {
      return Err(clothingParts.error);
    }
    var avatarPart := Parse(avatar);
    if avatarPart.Err? {
      return Err(avatarPart.error);
    }
    var reply := oracle(TryOnRequest(avatarPart.value, clothingParts.value, details, m));
    if reply.Err? {
      return Err(reply.error);
    }
    r := FirstInlineImage(ResponseParts(reply.value));
  }
}
