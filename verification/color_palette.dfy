/** The palette picker: twelve themed palettes of five colours each. Picking a
    palette sends its first four hexes as the selection; a palette is marked as
    selected when its colours are all in the selection. */
module ColorPalette {
  import opened Seqs

  datatype PaletteColor = PaletteColor(hex: string, id: string)

  datatype PaletteTheme = PaletteTheme(id: string, name: string, nameDE: string, colors: seq<PaletteColor>)

  const ColorPalettes: seq<PaletteTheme> := [
    PaletteTheme("ocean-breeze", "Ocean Breeze", "Meeresbrise", [
      PaletteColor("#1a5f7a", "deep-teal"),
      PaletteColor("#57c5b6", "turquoise"),
      PaletteColor("#159895", "sea-green"),
      PaletteColor("#002b5b", "navy"),
      PaletteColor("#8fe3cf", "mint")]),
    PaletteTheme("sunset-warmth", "Sunset Warmth", "Sonnenuntergang", [
      PaletteColor("#ff6b35", "coral"),
      PaletteColor("#f7c59f", "peach"),
      PaletteColor("#efa94a", "amber"),
      PaletteColor("#c4532d", "rust"),
      PaletteColor("#2e1f27", "burgundy")]),
    PaletteTheme("forest-moss", "Forest Moss", "Waldmoos", [
      PaletteColor("#2d5a27", "forest"),
      PaletteColor("#5f8d4e", "sage"),
      PaletteColor("#a4be7b", "olive"),
      PaletteColor("#285430", "pine"),
      PaletteColor("#e5d9b6", "cream")]),
    PaletteTheme("berry-dream", "Berry Dream", "Beerentraum", [
      PaletteColor("#9b2335", "berry"),
      PaletteColor("#c9a0dc", "lavender"),
      PaletteColor("#e8b4bc", "blush"),
      PaletteColor("#5c374c", "plum"),
      PaletteColor("#f8e8ee", "rose-white")]),
    PaletteTheme("midnight-gold", "Midnight Gold", "Mitternachtsgold", [
      PaletteColor("#1c1c1c", "black"),
      PaletteColor("#d4af37", "gold"),
      PaletteColor("#2c2c54", "midnight"),
      PaletteColor("#f1c40f", "yellow"),
      PaletteColor("#8b7355", "bronze")]),
    PaletteTheme("nordic-frost", "Nordic Frost", "Nordischer Frost", [
      PaletteColor("#e8e8e8", "silver"),
      PaletteColor("#7ec8e3", "ice-blue"),
      PaletteColor("#0077b6", "glacier"),
      PaletteColor("#ffffff", "white"),
      PaletteColor("#023e8a", "arctic")]),
    PaletteTheme("autumn-harvest", "Autumn Harvest", "Herbsternte", [
      PaletteColor("#b85c38", "terracotta"),
      PaletteColor("#e0c097", "wheat"),
      PaletteColor("#5c3d2e", "brown"),
      PaletteColor("#f5deb3", "sand"),
      PaletteColor("#8b4513", "sienna")]),
    PaletteTheme("tropical-paradise", "Tropical Paradise", "Tropisches Paradies", [
      PaletteColor("#ff6f61", "coral-pink"),
      PaletteColor("#6b5b95", "orchid"),
      PaletteColor("#88d8b0", "seafoam"),
      PaletteColor("#f7786b", "flamingo"),
      PaletteColor("#feb236", "mango")]),
    PaletteTheme("vintage-rose", "Vintage Rose", "Vintage Rose", [
      PaletteColor("#d4a5a5", "dusty-rose"),
      PaletteColor("#a67c52", "antique-brass"),
      PaletteColor("#6e4c4c", "wine"),
      PaletteColor("#f0ece2", "ivory"),
      PaletteColor("#b08968", "caramel")]),
    PaletteTheme("electric-neon", "Electric Neon", "Elektrisches Neon", [
      PaletteColor("#ff00ff", "magenta"),
      PaletteColor("#00ffff", "cyan"),
      PaletteColor("#39ff14", "neon-green"),
      PaletteColor("#ff073a", "neon-red"),
      PaletteColor("#1c1c1c", "jet-black")]),
    PaletteTheme("earthy-terracotta", "Earthy Terracotta", "Erdige Terrakotta", [
      PaletteColor("#c67b5c", "terra"),
      PaletteColor("#e4c59e", "bone"),
      PaletteColor("#8b5a2b", "sepia"),
      PaletteColor("#4a3728", "espresso"),
      PaletteColor("#d2b48c", "tan")]),
    PaletteTheme("royal-velvet", "Royal Velvet", "Königlicher Samt", [
      PaletteColor("#4b0082", "indigo"),
      PaletteColor("#800020", "burgundy-red"),
      PaletteColor("#d4af37", "royal-gold"),
      PaletteColor("#2c003e", "deep-purple"),
      PaletteColor("#c8a2c8", "lilac")])
  ]

  function Hexes(colors: seq<PaletteColor>): (r: seq<string>)
    ensures |r| == |colors|
    ensures forall i :: 0 <= i < |colors| ==> r[i] == colors[i].hex
  {
    seq(|colors|, i requires 0 <= i < |colors| => colors[i].hex)
  }

  /** `isColorSelected(hex)` */
  function IsColorSelected(selected: seq<string>, hex: string): bool {
    hex in selected
  }

  /** `isPaletteSelected`, as written: every one of the palette's hexes is selected. */
  function IsPaletteSelected(selected: seq<string>, p: PaletteTheme): bool {
    forall c :: c in p.colors ==> IsColorSelected(selected, c.hex)
  }

  /** The payload of a palette click: `palette.colors.slice(0, 4).map(c => c.hex)`. */
  function PaletteSelection(p: PaletteTheme): (r: seq<string>)
    ensures |r| == if |p.colors| < 4 then |p.colors| else 4
    ensures forall i :: 0 <= i < |r| ==> r[i] == p.colors[i].hex
  {
    Hexes(if |p.colors| < 4 then p.colors else p.colors[..4])
  }

  predicate WellFormed(p: PaletteTheme) {
    |p.colors| == 5 && Distinct(Hexes(p.colors))
  }

  lemma PaletteColoursDistinct()
    ensures forall i :: 0 <= i < |ColorPalettes| ==> WellFormed(ColorPalettes[i])
  {
  }

  lemma PaletteIdsDistinct()
    ensures forall i, j :: 0 <= i < j < |ColorPalettes| ==> ColorPalettes[i].id != ColorPalettes[j].id
  {
  }

  /** Every palette has five colours with distinct hexes, and palette ids are distinct. */
  lemma PalettesWellFormed()
    ensures |ColorPalettes| == 12
    ensures forall p :: p in ColorPalettes ==> WellFormed(p)
    ensures forall i, j :: 0 <= i < j < |ColorPalettes| ==> ColorPalettes[i].id != ColorPalettes[j].id
  {
    PaletteColoursDistinct();
    PaletteIdsDistinct();
  }

  /** A palette click sends exactly four hexes, inside the one-to-four bound the server
      enforces on a request's colours. */
  lemma PaletteSelectionFitsRequest(p: PaletteTheme)
    requires p in ColorPalettes
    ensures |PaletteSelection(p)| == 4
  {
    PalettesWellFormed();
  }

  /** As written, a palette click alone never marks that palette as selected: its
      fifth hex is not sent, so the all-colours test fails. */
  lemma PaletteClickNeverMarksPalette(p: PaletteTheme)
    requires WellFormed(p)
    ensures !IsPaletteSelected(PaletteSelection(p), p)
  {
    var sel := PaletteSelection(p);
    var fifth := p.colors[4];
    assert fifth in p.colors;
    forall i | 0 <= i < 4 ensures sel[i] != fifth.hex {
      assert Hexes(p.colors)[i] != Hexes(p.colors)[4];
    }
  }

  /** Whatever the page does with a click's payload, no selection the page can hold
      (at most four colours, the request's bound) marks a five-colour palette: its
      five distinct hexes cannot all fit in four places. */
  lemma NoSendableSelectionMarksPalette(p: PaletteTheme, selected: seq<string>)
    requires WellFormed(p) && |selected| <= 4
    ensures !IsPaletteSelected(selected, p)
  {
    if IsPaletteSelected(selected, p) {
      var hexes := Hexes(p.colors);
      assert Elements(hexes) <= Elements(selected) by {
        forall h | h in Elements(hexes) ensures h in Elements(selected) {
          var i :| 0 <= i < |hexes| && hexes[i] == h;
          assert p.colors[i] in p.colors;
        }
      }
      ElementsSize(hexes);
      ElementsSize(selected);
      SubsetSize(Elements(hexes), Elements(selected));
      assert false;
    }
  }

  /** The palette marker as evidently intended: the palette counts as selected when
      everything a click on it would send is selected. */
  function IsPaletteChosen(selected: seq<string>, p: PaletteTheme): bool {
    forall h :: h in PaletteSelection(p) ==> IsColorSelected(selected, h)
  }

  /** With the corrected marker, a palette click marks exactly that palette's sent
      colours as its selection; the marker never disagrees with the as-written one
      when a palette has four colours or fewer. */
  lemma PaletteClickMarksPalette(p: PaletteTheme, selected: seq<string>)
    ensures IsPaletteChosen(PaletteSelection(p), p)
    ensures IsPaletteSelected(selected, p) ==> IsPaletteChosen(selected, p)
    ensures |p.colors| <= 4 ==> (IsPaletteChosen(selected, p) <==> IsPaletteSelected(selected, p))
  {
    if IsPaletteSelected(selected, p) {
      forall h | h in PaletteSelection(p) ensures h in selected {
        var i :| 0 <= i < |PaletteSelection(p)| && PaletteSelection(p)[i] == h;
        assert p.colors[i] in p.colors;
      }
    }
    if |p.colors| <= 4 && IsPaletteChosen(selected, p) {
      forall c | c in p.colors ensures c.hex in selected {
        var i :| 0 <= i < |p.colors| && p.colors[i] == c;
        assert PaletteSelection(p)[i] == c.hex;
      }
    }
  }
}
