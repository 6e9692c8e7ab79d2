/** The HTTP handlers for generated brooches: prompt synthesis, the generate flow
    (validate, prompt, provider, store) and the two read endpoints. The image
    provider is a parameter: a total function from prompt to the returned base64
    payload, `None` when the response carried no image. */
module Routes {
  import opened Wrappers
  import opened Text
  import opened OrderedMaps
  import opened Schema
  import opened Storage

  // ----- Prompt synthesis -----

  /** The phrase for one colour token: a `#` token is quoted as a colour code, a known
      id becomes its option's lower-cased name, anything else is used verbatim. */
  function DescribeColor(token: string): string {
    if StartsWith(token, "#") then "color " + token
    else match FindColor(token)
      case Some(c) => Lower(c.name)
      case None => token
  }

  /** Since every colour name lower-cases to its own id, the phrase of any token not
      starting with `#` is the token itself, known id or not; a `#` token gains the
      `color ` prefix and nothing else. */
  lemma DescribeColorMeaning(token: string)
    ensures StartsWith(token, "#") ==> DescribeColor(token) == "color " + token
    ensures !StartsWith(token, "#") ==> DescribeColor(token) == token
  {
    if !StartsWith(token, "#") && FindColor(token).Some? {
      ColorNamesLowerToIds();
    }
  }

  function DescribeColors(colors: seq<string>): (r: seq<string>)
    ensures |r| == |colors|
    ensures forall i :: 0 <= i < |colors| ==> r[i] == DescribeColor(colors[i])
  {
    seq(|colors|, i requires 0 <= i < |colors| => DescribeColor(colors[i]))
  }

  /** The colour phrases joined with ", " in request order. */
  function ColorDescriptions(colors: seq<string>): string {
    Join(DescribeColors(colors), ", ")
  }

  /** Colour phrases keep request order: one more token adds its phrase at the end. */
  lemma ColorDescriptionsInOrder(colors: seq<string>, token: string)
    ensures ColorDescriptions(colors + [token]) ==
      if colors == [] then DescribeColor(token)
      else ColorDescriptions(colors) + ", " + DescribeColor(token)
  {
    assert DescribeColors(colors + [token]) == DescribeColors(colors) + [DescribeColor(token)];
    JoinSnoc(DescribeColors(colors), DescribeColor(token), ", ");
  }

  /** The closed size table. */
  function SizeDescription(size: Size): string {
    match size
    case S => "small, delicate, 3cm"
    case M => "medium, 5cm"
    case L => "large, statement piece, 7cm"
    case XL => "extra large, dramatic, 10cm"
  }

  /** Distinct sizes get distinct phrases, so the prompt tells the sizes apart. */
  lemma SizeDescriptionInjective(a: Size, b: Size)
    ensures SizeDescription(a) == SizeDescription(b) ==> a == b
  {
  }

  const PromptLead := "Photorealistic image of a handmade "
      + "beaded brooch in the shape of a "
  const SizeLabel := ". \nSize: "
  const ColorsLabel := ". \nPrimary colors: "
  const StyleLabel := ". \nStyle: "
  const PromptTail :=
    ". \nThe brooch is made of tiny glass "
        + "beads, intricate beadwork, artisanal "
        + "craftsmanship. \n"
    + "Professional jewelry photography, white "
        + "background, sharp focus, high detail, "
        + "luxury product photography.\n"
    + "The beads should be clearly visible, "
        + "showing the texture and craftsmanship "
        + "of handmade beadwork."

  /** The fixed template with shape, size phrase, colour phrases and description
      interpolated. */
  function BuildPrompt(req: GenerateRequest): string {
    PromptLead + req.shape + SizeLabel + SizeDescription(req.size) + ColorsLabel
      + ColorDescriptions(req.colors) + StyleLabel + req.description + PromptTail
  }

  /** The prompt carries the shape, the size phrase, the colour phrases and the
      description verbatim, between the fixed lead and the fixed directives.
      `PromptLabels` places the labels in front of them. */
  lemma PromptContainsFields(req: GenerateRequest)
    ensures var p := BuildPrompt(req);
      var sizeAt := |PromptLead| + |req.shape| + |SizeLabel|;
      var colorsAt := sizeAt + |SizeDescription(req.size)| + |ColorsLabel|;
      var styleAt := colorsAt + |ColorDescriptions(req.colors)| + |StyleLabel|;
      && StartsWith(p, PromptLead)
      && OccursAt(p, req.shape, |PromptLead|)
      && OccursAt(p, SizeDescription(req.size), sizeAt)
      && OccursAt(p, ColorDescriptions(req.colors), colorsAt)
      && OccursAt(p, req.description, styleAt)
      && OccursAt(p, PromptTail, styleAt + |req.description|)
      && |p| == styleAt + |req.description| + |PromptTail|
  {
    Interpolated(PromptLead, req.shape, SizeLabel, SizeDescription(req.size), ColorsLabel,
                 ColorDescriptions(req.colors), StyleLabel, req.description, PromptTail);
  }

  /** Each field of the prompt comes right after its fixed label: the size label
      follows the shape, the colours label follows the size phrase, and the style
      label follows the colour phrases. */
  lemma PromptLabels(req: GenerateRequest)
    ensures OccursAt(BuildPrompt(req), SizeLabel, |PromptLead| + |req.shape|)
    ensures OccursAt(BuildPrompt(req), ColorsLabel,
                     |PromptLead| + |req.shape| + |SizeLabel| + |SizeDescription(req.size)|)
    ensures OccursAt(BuildPrompt(req), StyleLabel,
                     |PromptLead| + |req.shape| + |SizeLabel| + |SizeDescription(req.size)|
                     + |ColorsLabel| + |ColorDescriptions(req.colors)|)
  {
    SizeLabelAt(req);
    ColorsLabelAt(req);
    StyleLabelAt(req);
  }

  lemma SizeLabelAt(req: GenerateRequest)
    ensures OccursAt(BuildPrompt(req), SizeLabel, |PromptLead| + |req.shape|)
  {
    InterpolatedLabels(PromptLead, req.shape, SizeLabel, SizeDescription(req.size), ColorsLabel,
                       ColorDescriptions(req.colors), StyleLabel, req.description, PromptTail);
  }

  lemma ColorsLabelAt(req: GenerateRequest)
    ensures OccursAt(BuildPrompt(req), ColorsLabel,
                     |PromptLead| + |req.shape| + |SizeLabel| + |SizeDescription(req.size)|)
  {
    InterpolatedLabels(PromptLead, req.shape, SizeLabel, SizeDescription(req.size), ColorsLabel,
                       ColorDescriptions(req.colors), StyleLabel, req.description, PromptTail);
  }

  lemma StyleLabelAt(req: GenerateRequest)
    ensures OccursAt(BuildPrompt(req), StyleLabel,
                     |PromptLead| + |req.shape| + |SizeLabel| + |SizeDescription(req.size)|
                     + |ColorsLabel| + |ColorDescriptions(req.colors)|)
  {
    var pre := PromptLead + req.shape + SizeLabel + SizeDescription(req.size) + ColorsLabel
      + ColorDescriptions(req.colors);
    assert BuildPrompt(req) == pre + StyleLabel + req.description + PromptTail;
    assert (pre + StyleLabel + req.description + PromptTail)[|pre|..|pre| + |StyleLabel|] == StyleLabel;
  }

  /** Where each field of a nine-piece concatenation starts. */
  lemma Interpolated(a: string, b: string, c: string, d: string, e: string, f: string, g: string, h: string, t: string)
    ensures var p := a + b + c + d + e + f + g + h + t;
      var k := |a| + |b| + |c|;
      var m := k + |d| + |e| + |f| + |g|;
      && StartsWith(p, a)
      && OccursAt(p, b, |a|)
      && OccursAt(p, d, k)
      && OccursAt(p, f, k + |d| + |e|)
      && OccursAt(p, h, m)
      && OccursAt(p, t, m + |h|)
      && |p| == m + |h| + |t|
  {
    var p := a + b + c + d + e + f + g + h + t;
    var k := |a| + |b| + |c|;
    var m := k + |d| + |e| + |f| + |g|;
    assert p[..|a|] == a;
    assert p[|a|..|a| + |b|] == b;
    assert p[k..k + |d|] == d;
    assert p[k + |d| + |e|..k + |d| + |e| + |f|] == f;
    assert p[m..m + |h|] == h;
    assert p[m + |h|..m + |h| + |t|] == t;
  }

  /** Where the third and fifth pieces of a nine-piece concatenation start: the
      first two labels between the fields that `Interpolated` places. Each piece is
      placed where it is appended and stays there as more pieces follow. */
  lemma InterpolatedLabels(a: string, b: string, c: string, d: string, e: string, f: string, g: string, h: string, t: string)
    ensures var p := a + b + c + d + e + f + g + h + t;
      && OccursAt(p, c, |a| + |b|)
      && OccursAt(p, e, |a| + |b| + |c| + |d|)
  {
    AppendedAt(a + b, c);
    StaysAt(a + b + c, c, |a| + |b|, d);
    StaysAt(a + b + c + d, c, |a| + |b|, e);
    AppendedAt(a + b + c + d, e);
    StaysAt(a + b + c + d + e, c, |a| + |b|, f);
    StaysAt(a + b + c + d + e, e, |a| + |b| + |c| + |d|, f);
    StaysAt(a + b + c + d + e + f, c, |a| + |b|, g);
    StaysAt(a + b + c + d + e + f, e, |a| + |b| + |c| + |d|, g);
    StaysAt(a + b + c + d + e + f + g, c, |a| + |b|, h);
    StaysAt(a + b + c + d + e + f + g, e, |a| + |b| + |c| + |d|, h);
    StaysAt(a + b + c + d + e + f + g + h, c, |a| + |b|, t);
    StaysAt(a + b + c + d + e + f + g + h, e, |a| + |b| + |c| + |d|, t);
  }

  /** A piece appended at the end occurs right after what precedes it. */
  lemma AppendedAt(s: string, x: string)
    ensures OccursAt(s + x, x, |s|)
  {
    assert (s + x)[|s|..|s| + |x|] == x;
  }

  /** An occurrence stays where it is when more text is appended. */
  lemma StaysAt(s: string, x: string, i: int, y: string)
    requires OccursAt(s, x, i)
    ensures OccursAt(s + y, x, i)
  {
    assert (s + y)[i..i + |x|] == s[i..i + |x|];
  }

  // ----- POST /api/generate -----

  /** 200 with the record, 400 with the issues, or 500. */
  datatype GenerateResponse =
    | Generated(brooch: GeneratedBrooch)
    | InvalidRequest(issues: seq<Issue>)
    | GenerationFailed

  /** The response, the store afterwards, and the prompts sent to the provider. */
  datatype GenerateOutcome = GenerateOutcome(response: GenerateResponse, store: MemStorage, prompts: seq<string>)

  const DataUrlPrefix := "data:image/png;base64,"

  /** The provider's payload is usable only when present and non-empty (an empty
      string is falsy and counts as "no image data"). */
  predicate HasImageData(payload: Option<string>) {
    payload.Some? && payload.value != ""
  }

  /** The generate handler. `id` and `now` stand for `randomUUID()` and the clock. */
  function HandleGenerate(s: MemStorage, body: RawBody, provider: string -> Option<string>, id: string, now: string)
    : (o: GenerateOutcome)
    requires !HasKey(s.generatedBrooches, id)
    ensures !Acceptable(body) ==> o.response == InvalidRequest(Validate(body).error) && o.prompts == []
    ensures Acceptable(body) ==> o.prompts == [BuildPrompt(Validate(body).value)]
    ensures o.response.Generated? <==> Acceptable(body) && HasImageData(provider(o.prompts[0]))
    ensures Acceptable(body) && !HasImageData(provider(o.prompts[0])) ==> o.response == GenerationFailed
    ensures !o.response.Generated? ==> o.store == s
    ensures o.response.Generated? ==>
      var req := Validate(body).value;
      && o.response.brooch == GeneratedBrooch(id, DataUrlPrefix + provider(o.prompts[0]).value,
                                              req.size, req.shape, req.colors, req.description, now)
      && o.store.brooches == s.brooches
      && o.store.generatedBrooches == s.generatedBrooches + [Entry(id, o.response.brooch)]
  {
    match Validate(body)
    case Failure(issues) => GenerateOutcome(InvalidRequest(issues), s, [])
    case Success(req) =>
      var prompt := BuildPrompt(req);
      var payload := provider(prompt);
      if !HasImageData(payload) then
        GenerateOutcome(GenerationFailed, s, [prompt])
      else
        var imageUrl := DataUrlPrefix + payload.value;
        var (record, s') := SaveGeneratedBrooch(s, NewGeneratedBrooch(imageUrl, req.size, req.shape, req.colors, req.description), id, now);
        GenerateOutcome(Generated(record), s', [prompt])
  }

  // ----- GET /api/generated/:id and /api/generated/:id/image -----

  datatype RecordResponse = RecordFound(brooch: GeneratedBrooch) | RecordNotFound

  function HandleGetGenerated(s: MemStorage, id: string): (r: RecordResponse)
    ensures r.RecordNotFound? <==> !HasKey(s.generatedBrooches, id)
    ensures r.RecordFound? ==> GetGeneratedBrooch(s, id) == Some(r.brooch)
  {
    match GetGeneratedBrooch(s, id)
    case Some(b) => RecordFound(b)
    case None => RecordNotFound
  }

  /** `imageUrl.replace(/^data:image\/png;base64,/, '')`: the anchored prefix is removed
      once, if present. */
  function StripDataUrlPrefix(url: string): string {
    if StartsWith(url, DataUrlPrefix) then url[|DataUrlPrefix|..] else url
  }

  /** Stripping undoes the prefixing done when the record was saved; a URL without the
      prefix is served as it is. */
  lemma StripUndoesPrefix(b64: string, url: string)
    ensures StripDataUrlPrefix(DataUrlPrefix + b64) == b64
    ensures !StartsWith(url, DataUrlPrefix) ==> StripDataUrlPrefix(url) == url
  {
    assert (DataUrlPrefix + b64)[..|DataUrlPrefix|] == DataUrlPrefix;
  }

  /** The base64 text behind the image endpoint; decoding it to bytes is left to the
      runtime. */
  datatype ImageResponse = ImageBase64(data: string) | ImageNotFound

  function HandleGetImage(s: MemStorage, id: string): (r: ImageResponse)
    ensures r.ImageNotFound? <==> !HasKey(s.generatedBrooches, id)
    ensures r.ImageBase64? ==>
      && GetGeneratedBrooch(s, id).Some?
      && r.data == StripDataUrlPrefix(GetGeneratedBrooch(s, id).value.imageUrl)
  {
    match GetGeneratedBrooch(s, id)
    case Some(b) => ImageBase64(StripDataUrlPrefix(b.imageUrl))
    case None => ImageNotFound
  }

  /** End to end: after a successful generate, both read endpoints find the new id,
      the record comes back unchanged and the image endpoint yields exactly the
      provider's base64 payload. */
  lemma GenerateThenRead(s: MemStorage, body: RawBody, provider: string -> Option<string>, id: string, now: string)
    requires !HasKey(s.generatedBrooches, id)
    requires HandleGenerate(s, body, provider, id, now).response.Generated?
    ensures var o := HandleGenerate(s, body, provider, id, now);
      && HandleGetGenerated(o.store, id) == RecordFound(o.response.brooch)
      && HandleGetImage(o.store, id) == ImageBase64(provider(o.prompts[0]).value)
  {
    var o := HandleGenerate(s, body, provider, id, now);
    var req := Validate(body).value;
    var b := NewGeneratedBrooch(o.response.brooch.imageUrl, req.size, req.shape, req.colors, req.description);
    SaveThenGet(s, b, id, now, id);
    StripUndoesPrefix(provider(o.prompts[0]).value, "");
  }

  /** A worked example: the prompt for a medium bee in gold contains "bee",
      "medium, 5cm", "color #D4AF37" and the description. */
  lemma BeePromptExample()
    ensures var req := GenerateRequest(M, "bee", ["#D4AF37"], "A shimmering golden bee.");
      var p := BuildPrompt(req);
      && OccursAt(p, "bee", |PromptLead|)
      && OccursAt(p, "medium, 5cm", |PromptLead| + 3 + |SizeLabel|)
      && OccursAt(p, "color #D4AF37", |PromptLead| + 3 + |SizeLabel| + 11 + |ColorsLabel|)
      && OccursAt(p, "A shimmering golden bee.", |PromptLead| + 3 + |SizeLabel| + 11 + |ColorsLabel| + 13 + |StyleLabel|)
  {
    var req := GenerateRequest(M, "bee", ["#D4AF37"], "A shimmering golden bee.");
    assert StartsWith("#D4AF37", "#");
    DescribeColorMeaning("#D4AF37");
    assert "color " + "#D4AF37" == "color #D4AF37";
    var ds := DescribeColors(req.colors);
    assert |ds| == 1 && ds[0] == "color #D4AF37";
    assert ds == ["color #D4AF37"];
    assert ColorDescriptions(req.colors) == "color #D4AF37";
    PromptContainsFields(req);
  }
}
