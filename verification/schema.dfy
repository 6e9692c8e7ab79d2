/** The shared data model: catalog items, generator options, the generate request
    and its validation, and the record of a generated brooch. */
module Schema {
  import opened Wrappers
  import opened Text
  import opened Seqs

  /** A catalog item. */
  datatype Brooch = Brooch(
    id: string,
    name: string,
    nameDE: string,
    price: int,
    imageUrl: string,
    description: string,
    descriptionDE: string,
    available: bool)

  // ----- Generator options -----

  datatype Size = S | M | L | XL

  const SizeOptions: seq<Size> := [S, M, L, XL]

  /** The wire spelling of a size. */
  function SizeName(s: Size): string {
    match s
    case S => "S"
    case M => "M"
    case L => "L"
    case XL => "XL"
  }

  /** `z.enum(sizeOptions)` on a string: exactly the four spellings are accepted. */
  function ParseSize(t: string): (r: Option<Size>)
    ensures r.Some? <==> t in ["S", "M", "L", "XL"]
  {
    if t == "S" then Some(S)
    else if t == "M" then Some(M)
    else if t == "L" then Some(L)
    else if t == "XL" then Some(XL)
    else None
  }

  /** Parsing and printing a size are inverse to each other. */
  lemma SizeRoundTrip(s: Size, t: string)
    ensures ParseSize(SizeName(s)) == Some(s)
    ensures ParseSize(t) == Some(s) ==> SizeName(s) == t
  {
  }

  datatype ShapeCategory = ShapeCategory(name: string, shapes: seq<string>)

  const ShapeCategories: seq<ShapeCategory> := [
    ShapeCategory("insects", ["butterfly", "bee", "dragonfly", "beetle", "moth"]),
    ShapeCategory("animals", ["bird", "fish", "cat", "fox", "rabbit"]),
    ShapeCategory("abstract", ["geometric", "spiral", "wave", "starburst", "organic"]),
    ShapeCategory("botanical", ["flower", "leaf", "vine", "mushroom", "tree"])
  ]

  /** Every shape offered by the generator, category by category. */
  function AllShapes(cats: seq<ShapeCategory>): seq<string> {
    if cats == [] then [] else cats[0].shapes + AllShapes(cats[1..])
  }

  /** The catalogue flattened, in source order. */
  lemma AllShapesListed()
    ensures AllShapes(ShapeCategories) == [
      "butterfly", "bee", "dragonfly", "beetle", "moth",
      "bird", "fish", "cat", "fox", "rabbit",
      "geometric", "spiral", "wave", "starburst", "organic",
      "flower", "leaf", "vine", "mushroom", "tree"]
  {
    var cs := ShapeCategories;
    assert AllShapes(cs[4..]) == [];
    assert AllShapes(cs[3..]) == cs[3].shapes by { assert cs[3..][1..] == cs[4..]; }
    assert AllShapes(cs[2..]) == cs[2].shapes + cs[3].shapes by { assert cs[2..][1..] == cs[3..]; }
    assert AllShapes(cs[1..]) == cs[1].shapes + cs[2].shapes + cs[3].shapes by { assert cs[1..][1..] == cs[2..]; }
  }

  /** Four categories of five shapes each, twenty shapes in all. */
  lemma ShapeCatalogue()
    ensures |ShapeCategories| == 4
    ensures forall c :: c in ShapeCategories ==> |c.shapes| == 5
    ensures |AllShapes(ShapeCategories)| == 20
  {
    AllShapesListed();
  }

  datatype ColorOption = ColorOption(id: string, hex: string, name: string, nameDE: string)

  const ColorOptions: seq<ColorOption> := [
    ColorOption("black", "#000000", "Black", "Schwarz"),
    ColorOption("white", "#FFFFFF", "White", "Weiß"),
    ColorOption("gold", "#D4AF37", "Gold", "Gold"),
    ColorOption("silver", "#C0C0C0", "Silver", "Silber"),
    ColorOption("red", "#DC143C", "Red", "Rot"),
    ColorOption("blue", "#1E3A5F", "Blue", "Blau"),
    ColorOption("green", "#2D5A27", "Green", "Grün"),
    ColorOption("purple", "#6B3FA0", "Purple", "Lila"),
    ColorOption("coral", "#FF6B6B", "Coral", "Koralle"),
    ColorOption("turquoise", "#40E0D0", "Turquoise", "Türkis")
  ]

  function Ids(opts: seq<ColorOption>): (r: seq<string>)
    ensures |r| == |opts|
    ensures forall i :: 0 <= i < |opts| ==> r[i] == opts[i].id
  {
    seq(|opts|, i requires 0 <= i < |opts| => opts[i].id)
  }

  /** `opts.find(c => c.id === id)`: the first option with that id, if any. */
  function FindById(opts: seq<ColorOption>, id: string): (r: Option<ColorOption>)
    ensures r.Some? ==> r.value in opts && r.value.id == id
    ensures r.None? <==> id !in Ids(opts)
  {
    if opts == [] then None
    else if opts[0].id == id then Some(opts[0])
    else
      assert Ids(opts) == [opts[0].id] + Ids(opts[1..]);
      FindById(opts[1..], id)
  }

  /** Lookup in the fixed colour table. */
  function FindColor(id: string): (r: Option<ColorOption>)
    ensures r.Some? ==> r.value in ColorOptions && r.value.id == id
    ensures r.None? <==> id !in Ids(ColorOptions)
  {
    FindById(ColorOptions, id)
  }

  /** The colour ids are pairwise distinct, so lookup by id finds the one option
      carrying it. */
  lemma ColorLookupUnambiguous()
    ensures Distinct(Ids(ColorOptions))
    ensures forall i :: 0 <= i < |ColorOptions| ==> FindColor(ColorOptions[i].id) == Some(ColorOptions[i])
  {
    ColorIdsDistinct();
    forall i | 0 <= i < |ColorOptions| ensures FindColor(ColorOptions[i].id) == Some(ColorOptions[i]) {
      FindUnique(ColorOptions, i);
    }
  }

  /** No two colour ids share both their first letter and their length. */
  lemma ColorIdsDistinct()
    ensures Distinct(Ids(ColorOptions))
  {
    var ids := Ids(ColorOptions);
    assert ids == ["black", "white", "gold", "silver", "red", "blue", "green", "purple", "coral", "turquoise"];
    forall i, j | 0 <= i < j < |ids| ensures ids[i] != ids[j] {
      assert ids[i][0] != ids[j][0] || |ids[i]| != |ids[j]|;
    }
  }

  /** In a table with distinct ids, looking up an entry's id finds that entry. */
  lemma {:induction false} FindUnique(opts: seq<ColorOption>, i: int)
    requires Distinct(Ids(opts))
    requires 0 <= i < |opts|
    ensures FindById(opts, opts[i].id) == Some(opts[i])
    decreases i
  {
    var ids := Ids(opts);
    if i > 0 {
      assert ids[0] != ids[i];
      assert Ids(opts[1..]) == ids[1..];
      FindUnique(opts[1..], i - 1);
    }
  }

  /** Every colour name lower-cases to the option's own id. */
  lemma ColorNamesLowerToIds()
    ensures forall c :: c in ColorOptions ==> Lower(c.name) == c.id
  {
    NamesLowerBetween(0, 5);
    NamesLowerBetween(5, 10);
  }

  lemma NamesLowerBetween(lo: nat, hi: nat)
    requires lo <= hi <= |ColorOptions| && hi - lo <= 5
    ensures forall i :: lo <= i < hi ==> Lower(ColorOptions[i].name) == ColorOptions[i].id
  {
  }

  // ----- The generate request -----

  /** A request that passed validation. */
  datatype GenerateRequest = GenerateRequest(size: Size, shape: string, colors: seq<string>, description: string)

  /** An incoming JSON body. A field is `None` when it is absent or not of the JSON
      type the schema expects (not a string, not an array of strings). */
  datatype RawBody =
    | NonObject
    | Object(size: Option<string>, shape: Option<string>, colors: Option<seq<string>>, description: Option<string>)

  /** The issue paths, in the order the schema declares its fields. */
  datatype Field = Root | SizeField | ShapeField | ColorsField | DescriptionField

  datatype IssueCode = InvalidType | InvalidEnumValue | TooSmall | TooBig

  datatype Issue = Issue(path: Field, code: IssueCode)

  const MinColors := 1
  const MaxColors := 4
  const MinDescription := 10
  const MaxDescription := 500

  /** Field `f` of the body breaks the schema. A non-object body fails only at its root. */
  predicate Violated(body: RawBody, f: Field) {
    match f
    case Root => body.NonObject?
    case SizeField => body.Object? && (body.size.None? || ParseSize(body.size.value).None?)
    case ShapeField => body.Object? && body.shape.None?
    case ColorsField =>
      body.Object? && (body.colors.None? || !(MinColors <= |body.colors.value| <= MaxColors))
    case DescriptionField =>
      body.Object? && (body.description.None? || !(MinDescription <= |body.description.value| <= MaxDescription))
  }

  /** The schema's acceptance condition, field by field. The shape may be any string,
      the empty one included, and colour tokens may be any strings. */
  predicate Acceptable(body: RawBody) {
    && !Violated(body, Root)
    && !Violated(body, SizeField)
    && !Violated(body, ShapeField)
    && !Violated(body, ColorsField)
    && !Violated(body, DescriptionField)
  }

  predicate HasIssueAt(issues: seq<Issue>, f: Field) {
    exists i :: 0 <= i < |issues| && issues[i].path == f
  }

  function SizeIssues(size: Option<string>): seq<Issue> {
    match size
    case None => [Issue(SizeField, InvalidType)]
    case Some(t) => if ParseSize(t).None? then [Issue(SizeField, InvalidEnumValue)] else []
  }

  function ShapeIssues(shape: Option<string>): seq<Issue> {
    if shape.None? then [Issue(ShapeField, InvalidType)] else []
  }

  function ColorsIssues(colors: Option<seq<string>>): seq<Issue> {
    match colors
    case None => [Issue(ColorsField, InvalidType)]
    case Some(cs) =>
      if |cs| < MinColors then [Issue(ColorsField, TooSmall)]
      else if |cs| > MaxColors then [Issue(ColorsField, TooBig)]
      else []
  }

  function DescriptionIssues(description: Option<string>): seq<Issue> {
    match description
    case None => [Issue(DescriptionField, InvalidType)]
    case Some(d) =>
      if |d| < MinDescription then [Issue(DescriptionField, TooSmall)]
      else if |d| > MaxDescription then [Issue(DescriptionField, TooBig)]
      else []
  }

  /** `generateBroochSchema.safeParse(body)`: every field is checked and every issue
      is reported (the parse does not stop at the first one). */
  function Validate(body: RawBody): (r: Result<GenerateRequest, seq<Issue>>)
    ensures r.Success? <==> Acceptable(body)
    ensures r.Success? ==>
      body == Object(Some(SizeName(r.value.size)), Some(r.value.shape), Some(r.value.colors), Some(r.value.description))
    ensures r.Failure? ==> r.error != [] && forall f :: HasIssueAt(r.error, f) <==> Violated(body, f)
  {
    match body
    case NonObject =>
      var issues := [Issue(Root, InvalidType)];
      assert forall f :: HasIssueAt(issues, f) <==> f == Root by {
        forall f ensures HasIssueAt(issues, f) <==> f == Root {
          assert issues[0].path == Root;
        }
      }
      Failure(issues)
    case Object(size, shape, colors, description) =>
      var a := SizeIssues(size);
      var b := ShapeIssues(shape);
      var c := ColorsIssues(colors);
      var d := DescriptionIssues(description);
      var issues := a + b + c + d;
      assert forall f :: HasIssueAt(issues, f) <==> Violated(body, f) by {
        forall f ensures HasIssueAt(issues, f) <==> Violated(body, f) {
          IssuesAt(a, b, c, d, f);
          SingleIssueAt(a, f);
          SingleIssueAt(b, f);
          SingleIssueAt(c, f);
          SingleIssueAt(d, f);
        }
      }
      if issues == [] then
        SizeRoundTrip(ParseSize(size.value).value, size.value);
        Success(GenerateRequest(ParseSize(size.value).value, shape.value, colors.value, description.value))
      else
        Failure(issues)
  }

  lemma IssuesAt(a: seq<Issue>, b: seq<Issue>, c: seq<Issue>, d: seq<Issue>, f: Field)
    ensures HasIssueAt(a + b + c + d, f) <==>
      HasIssueAt(a, f) || HasIssueAt(b, f) || HasIssueAt(c, f) || HasIssueAt(d, f)
  {
    var all := a + b + c + d;
    if HasIssueAt(all, f) {
      var i :| 0 <= i < |all| && all[i].path == f;
      if i < |a| { assert a[i].path == f; }
      else if i < |a| + |b| { assert b[i - |a|].path == f; }
      else if i < |a| + |b| + |c| { assert c[i - |a| - |b|].path == f; }
      else { assert d[i - |a| - |b| - |c|].path == f; }
    }
    if HasIssueAt(a, f) { var i :| 0 <= i < |a| && a[i].path == f; assert all[i] == a[i]; }
    if HasIssueAt(b, f) { var i :| 0 <= i < |b| && b[i].path == f; assert all[|a| + i] == b[i]; }
    if HasIssueAt(c, f) { var i :| 0 <= i < |c| && c[i].path == f; assert all[|a| + |b| + i] == c[i]; }
    if HasIssueAt(d, f) { var i :| 0 <= i < |d| && d[i].path == f; assert all[|a| + |b| + |c| + i] == d[i]; }
  }

  lemma SingleIssueAt(issues: seq<Issue>, f: Field)
    requires |issues| <= 1
    ensures HasIssueAt(issues, f) <==> issues != [] && issues[0].path == f
  {
  }

  /** The generated record, as returned by the server and kept in the store. */
  datatype GeneratedBrooch = GeneratedBrooch(
    id: string,
    imageUrl: string,
    size: Size,
    shape: string,
    colors: seq<string>,
    description: string,
    createdAt: string)

  /** The catalog the store is seeded with. */
  const SampleBrooches: seq<Brooch> := [
      Brooch(id := "1", name := "Midnight Butterfly", nameDE := "Mitternachts-Schmetterling", price := 85,
             imageUrl := "https://images.unsplash.com/"
                 + "photo-1611652022419-a9419f74343d"
                 + "?w=800&h=800&fit=crop",
             description := "Elegant butterfly brooch with intricate "
                 + "black and gold beadwork",
             descriptionDE := "Elegante Schmetterlingsbrosche mit "
                 + "filigraner schwarz-goldener "
                 + "Perlenarbeit",
             available := true),
      Brooch(id := "2", name := "Golden Beetle", nameDE := "Goldener Käfer", price := 95,
             imageUrl := "https://images.unsplash.com/"
                 + "photo-1535632066927-ab7c9ab60908"
                 + "?w=800&h=800&fit=crop",
             description := "Statement beetle brooch featuring "
                 + "golden and emerald beads",
             descriptionDE := "Auffällige Käferbrosche mit goldenen "
                 + "und smaragdfarbenen Perlen",
             available := true),
      Brooch(id := "3", name := "Crystal Dragonfly", nameDE := "Kristall-Libelle", price := 90,
             imageUrl := "https://images.unsplash.com/"
                 + "photo-1515562141207-7a88fb7ce338"
                 + "?w=800&h=800&fit=crop",
             description := "Delicate dragonfly with crystal-clear "
                 + "and silver beads",
             descriptionDE := "Zarte Libelle mit kristallklaren und "
                 + "silbernen Perlen",
             available := true),
      Brooch(id := "4", name := "Geometric Star", nameDE := "Geometrischer Stern", price := 80,
             imageUrl := "https://images.unsplash.com/"
                 + "photo-1599643478518-a784e5dc4c8f"
                 + "?w=800&h=800&fit=crop",
             description := "Modern geometric star pattern in black "
                 + "and white beads",
             descriptionDE := "Modernes geometrisches Sternmuster in "
                 + "schwarzen und weißen Perlen",
             available := true),
      Brooch(id := "5", name := "Royal Peacock", nameDE := "Königlicher Pfau", price := 100,
             imageUrl := "https://images.unsplash.com/"
                 + "photo-1573408301185-9146fe634ad0"
                 + "?w=800&h=800&fit=crop",
             description := "Luxurious peacock feather brooch with "
                 + "blue and green iridescent beads",
             descriptionDE := "Luxuriöse Pfauenfeder-Brosche mit "
                 + "blau-grünen schillernden Perlen",
             available := true),
      Brooch(id := "6", name := "Abstract Wave", nameDE := "Abstrakte Welle", price := 88,
             imageUrl := "https://images.unsplash.com/"
                 + "photo-1617038260897-41a1f14a8ca0"
                 + "?w=800&h=800&fit=crop",
             description := "Flowing abstract wave design in ocean "
                 + "blue and silver tones",
             descriptionDE := "Fließendes abstraktes Wellendesign in "
                 + "Ozeanblau und Silbertönen",
             available := true),
      Brooch(id := "7", name := "Coral Bloom", nameDE := "Korallenblüte", price := 92,
             imageUrl := "https://images.unsplash.com/"
                 + "photo-1602173574767-37ac01994b2a"
                 + "?w=800&h=800&fit=crop",
             description := "Vibrant floral brooch inspired by coral "
                 + "reef formations",
             descriptionDE := "Lebhafte Blumenbrosche inspiriert von "
                 + "Korallenriff-Formationen",
             available := true),
      Brooch(id := "8", name := "Noir Moth", nameDE := "Schwarze Motte", price := 87,
             imageUrl := "https://images.unsplash.com/"
                 + "photo-1608042314453-ae338d80c427"
                 + "?w=800&h=800&fit=crop",
             description := "Mysterious moth brooch in deep black "
                 + "with subtle silver accents",
             descriptionDE := "Geheimnisvolle Mottenbrosche in tiefem "
                 + "Schwarz mit dezenten Silberakzenten",
             available := true)
  ]

  /** The sample ids are "1" to "8", pairwise distinct. */
  lemma SampleIdsDistinct()
    ensures |SampleBrooches| == 8
    ensures forall i, j :: 0 <= i < j < |SampleBrooches| ==> SampleBrooches[i].id != SampleBrooches[j].id
  {
  }
}
