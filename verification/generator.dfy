/** The generator page's own logic: the colour toggle, the checks run before a
    request is sent, and the colour list of the order email. */
module Generator {
  import opened Wrappers
  import opened Seqs
  import opened Text
  import opened Schema
  import opened I18n

  const MaxSelectedColors := 4

  /** The test `c !== x` of the toggle's filter. */
  function Other(x: string): string -> bool {
    y => y != x
  }

  /** `xs.filter(c => c !== x)` */
  function RemoveAll(xs: seq<string>, x: string): (r: seq<string>)
    ensures forall y :: y in r <==> y in xs && y != x
    ensures |r| <= |xs|
  {
    Filter(xs, Other(x))
  }

  /** The filter keeps the other ids where they were: it works part by part, and a
      single id stays exactly when it is not the one removed. So order and
      multiplicity of the remaining ids are kept, and no duplicate is introduced. */
  lemma RemoveAllKeepsOrder(xs: seq<string>, ys: seq<string>, x: string, y: string)
    ensures RemoveAll(xs + ys, x) == RemoveAll(xs, x) + RemoveAll(ys, x)
    ensures RemoveAll([y], x) == if y == x then [] else [y]
    ensures Distinct(xs) ==> Distinct(RemoveAll(xs, x))
  {
    FilterDistributes(xs, ys, Other(x));
    FilterSingle(y, Other(x));
    if Distinct(xs) {
      FilterKeepsDistinct(xs, Other(x));
    }
  }

  /** `handleColorToggle`: a selected id is removed; an unselected one is appended
      unless four are already selected. */
  function ToggleColor(selected: seq<string>, colorId: string): seq<string> {
    if colorId in selected then RemoveAll(selected, colorId)
    else if |selected| >= MaxSelectedColors then selected
    else selected + [colorId]
  }

  /** What a click does: a selected id leaves (and only it); an unselected id joins
      at the end when there is room and is ignored when there is not. */
  lemma ToggleMeaning(selected: seq<string>, colorId: string)
    ensures var r := ToggleColor(selected, colorId);
      && (colorId in selected ==> colorId !in r && forall c :: c != colorId ==> (c in r <==> c in selected))
      && (colorId !in selected && |selected| >= MaxSelectedColors ==> r == selected)
      && (colorId !in selected && |selected| < MaxSelectedColors ==> r == selected + [colorId])
  {
  }

  /** Removing a selected id closes the gap: the ids before and after it keep their
      order, so the request's colours and the e-mail list follow the click order. */
  lemma ToggleRemovesInPlace(before: seq<string>, colorId: string, after: seq<string>)
    requires colorId !in before && colorId !in after
    ensures ToggleColor(before + [colorId] + after, colorId) == before + after
  {
    var selected := before + [colorId] + after;
    assert selected[|before|] == colorId;
    RemoveAllKeepsOrder(before + [colorId], after, colorId, colorId);
    RemoveAllKeepsOrder(before, [colorId], colorId, colorId);
    RemoveAllAbsent(before, colorId);
    RemoveAllAbsent(after, colorId);
    assert before + [] == before;
  }

  lemma RemoveAllAbsent(xs: seq<string>, x: string)
    requires x !in xs
    ensures RemoveAll(xs, x) == xs
  {
    FilterKeepsAllAndIdempotent(xs, Other(x));
  }

  /** A click keeps the selection within four colours and free of duplicates. */
  lemma ToggleKeepsSelectionValid(selected: seq<string>, colorId: string)
    requires |selected| <= MaxSelectedColors && Distinct(selected)
    ensures |ToggleColor(selected, colorId)| <= MaxSelectedColors
    ensures Distinct(ToggleColor(selected, colorId))
  {
    if colorId in selected {
      RemoveAllKeepsOrder(selected, [], colorId, colorId);
    }
  }

  /** The selection after a series of clicks, starting from `selected`. */
  function ToggleAll(selected: seq<string>, clicks: seq<string>): seq<string>
    decreases |clicks|
  {
    if clicks == [] then selected else ToggleAll(ToggleColor(selected, clicks[0]), clicks[1..])
  }

  /** However the user clicks, starting from the empty selection the page never holds
      more than four colours or the same colour twice. */
  lemma {:induction false} ClicksKeepSelectionValid(selected: seq<string>, clicks: seq<string>)
    requires |selected| <= MaxSelectedColors && Distinct(selected)
    ensures |ToggleAll(selected, clicks)| <= MaxSelectedColors
    ensures Distinct(ToggleAll(selected, clicks))
    decreases |clicks|
  {
    if clicks != [] {
      ToggleKeepsSelectionValid(selected, clicks[0]);
      ClicksKeepSelectionValid(ToggleColor(selected, clicks[0]), clicks[1..]);
    }
  }

  /** Clicking an unselected colour twice, with room for it, restores the selection. */
  lemma ToggleTwiceRestores(selected: seq<string>, colorId: string)
    requires colorId !in selected && |selected| < MaxSelectedColors
    ensures ToggleColor(ToggleColor(selected, colorId), colorId) == selected
  {
    RemoveAllKeepsOrder(selected, [colorId], colorId, colorId);
    RemoveAllAbsent(selected, colorId);
    assert selected + [] == selected;
  }

  // ----- Checks before sending -----

  datatype GuardResult = NeedShape | NeedColors | NeedDescription | Send

  /** `handleGenerate`: shape, then colours, then description length; the request
      is sent only if all three pass. */
  function CheckBeforeGenerate(shape: string, selected: seq<string>, description: string): GuardResult {
    if shape == "" then NeedShape
    else if |selected| == 0 then NeedColors
    else if |description| < MinDescription then NeedDescription
    else Send
  }

  /** The first failing check is the one reported; a request goes out exactly when all pass. */
  lemma GuardOrder(shape: string, selected: seq<string>, description: string)
    ensures var g := CheckBeforeGenerate(shape, selected, description);
      && (g == Send <==> shape != "" && |selected| > 0 && |description| >= MinDescription)
      && (g == NeedShape <==> shape == "")
      && (g == NeedColors <==> shape != "" && |selected| == 0)
      && (g == NeedDescription <==> shape != "" && |selected| > 0 && |description| < MinDescription)
  {
  }

  /** The body the page posts. */
  function RequestBody(size: Size, shape: string, selected: seq<string>, description: string): RawBody {
    Object(Some(SizeName(size)), Some(shape), Some(selected), Some(description))
  }

  /** A request that passes the page's checks, with a selection built by clicks, is
      accepted by the server whenever the description is at most 500 characters. */
  lemma SentRequestsValidate(size: Size, shape: string, selected: seq<string>, description: string)
    requires CheckBeforeGenerate(shape, selected, description) == Send
    requires |selected| <= MaxSelectedColors
    requires |description| <= MaxDescription
    ensures Validate(RequestBody(size, shape, selected, description))
      == Success(GenerateRequest(size, shape, selected, description))
  {
    var body := RequestBody(size, shape, selected, description);
    SizeRoundTrip(size, SizeName(size));
    var r := Validate(body);
    assert r.Success?;
    SizeRoundTrip(r.value.size, SizeName(size));
  }

  /** The page checks only the lower bound: a 501-character description passes its
      checks and is then refused by the server. */
  lemma LongDescriptionPassesPageChecks()
    ensures var d := seq(501, _ => 'a');
      && CheckBeforeGenerate("bee", ["gold"], d) == Send
      && Validate(RequestBody(M, "bee", ["gold"], d)).Failure?
  {
  }

  // ----- The order email -----

  /** The name shown for a selected id: the option's name in the page language, or
      the id itself when it is not a known option. */
  function ColorName(id: string, language: Language): string {
    match FindColor(id)
    case Some(c) => if language == De then c.nameDE else c.name
    case None => id
  }

  /** Every known id is shown under its own option's localised name, and an unknown
      id as itself. */
  lemma ColorNameMeaning(id: string, language: Language)
    ensures forall i :: 0 <= i < |ColorOptions| && ColorOptions[i].id == id ==>
      ColorName(id, language) == (if language == De then ColorOptions[i].nameDE else ColorOptions[i].name)
    ensures id !in Ids(ColorOptions) ==> ColorName(id, language) == id
  {
    ColorLookupUnambiguous();
  }

  function ColorNamesOf(selected: seq<string>, language: Language): (r: seq<string>)
    ensures |r| == |selected|
    ensures forall i :: 0 <= i < |selected| ==> r[i] == ColorName(selected[i], language)
  {
    seq(|selected|, i requires 0 <= i < |selected| => ColorName(selected[i], language))
  }

  /** `colorNames` in `handleOrderEmail`: the names joined with ", ". */
  function ColorNames(selected: seq<string>, language: Language): string {
    Join(ColorNamesOf(selected, language), ", ")
  }

  /** The names follow selection order: one more selected id adds its name at the end. */
  lemma ColorNamesInOrder(selected: seq<string>, id: string, language: Language)
    ensures ColorNames(selected + [id], language) ==
      if selected == [] then ColorName(id, language)
      else ColorNames(selected, language) + ", " + ColorName(id, language)
  {
    assert ColorNamesOf(selected + [id], language) == ColorNamesOf(selected, language) + [ColorName(id, language)];
    JoinSnoc(ColorNamesOf(selected, language), ColorName(id, language), ", ");
  }
}
