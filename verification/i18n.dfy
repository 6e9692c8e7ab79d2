/** Translation tables, lookup with fallback to the key, and `{key}` placeholder
    filling for the order emails. */
module I18n {
  import opened Wrappers
  import opened Text
  import Schema

  datatype Language = En | De

  /** A translation table in source order: (key, text) pairs, grouped by page. */
  type Table = seq<(string, string)>

  const EnHeader: Table := [
    ("nav.collection", "Collection"),
    ("nav.create", "Create"),
    ("nav.shipping", "Shipping"),
    ("nav.worldwide", "Worldwide Shipping")
  ]

  const EnHome: Table := [
    ("home.title", "ROUGHAN"),
    ("home.subtitle", "Handmade Beaded Brooches"),
    ("home.tagline", "Each piece is a unique work of art, "
        + "meticulously crafted by hand"),
    ("home.explore", "Explore Collection"),
    ("home.create", "Create Your Brooch"),
    ("home.cta", "Design Your Own"),
    ("home.collection", "The Collection"),
    ("home.view", "View Details")
  ]

  const EnProduct: Table := [
    ("product.orderEmail", "Order via Email"),
    ("product.backToCollection", "Back to Collection"),
    ("product.price", "Price"),
    ("product.available", "Available"),
    ("product.soldOut", "Sold Out"),
    ("product.emailSubject", "Order Inquiry: {name}"),
    ("product.emailBody", "Hello,\n\nI would like to order the "
        + "\"{name}\" brooch (EUR "
        + "{price}).\n\nPlease confirm "
        + "availability and provide shipping "
        + "details to:\n\n[Your Name]\n[Your "
        + "Address]\n[City, Postal "
        + "Code]\n[Country]\n\nThank you!")
  ]

  const EnGenerator: Table := [
    ("generator.title", "Create Your Brooch"),
    ("generator.subtitle", "Design a unique piece tailored to your vision"),
    ("generator.size", "Size"),
    ("generator.sizeDesc", "Select the dimensions of your brooch"),
    ("generator.shape", "Shape"),
    ("generator.shapeDesc", "Choose a silhouette for your design"),
    ("generator.colors", "Colors"),
    ("generator.colorsDesc", "Select up to 4 primary colors"),
    ("generator.description", "Description"),
    ("generator.descriptionPlaceholder", "Describe your dream brooch... What "
        + "mood, style, or special elements would "
        + "you like?"),
    ("generator.descriptionHint", "Be creative! Include details about "
        + "patterns, textures, or inspirations"),
    ("generator.generate", "Generate Design"),
    ("generator.generating", "Creating your brooch..."),
    ("generator.result", "Your Custom Brooch"),
    ("generator.order", "Order This Brooch"),
    ("generator.newDesign", "Create New Design"),
    ("generator.emailSubject", "Custom Brooch Order"),
    ("generator.emailBody", "Hello,\n\nI would like to order the "
        + "custom brooch design I "
        + "created:\n\nSize: {size}\nShape: "
        + "{shape}\nColors: {colors}\nDescription: "
        + "{description}\n\nGenerated image URL: "
        + "{imageUrl}\n\nPlease confirm the "
        + "production timeline and provide "
        + "shipping details to:\n\n[Your "
        + "Name]\n[Your Address]\n[City, Postal "
        + "Code]\n[Country]\n\nThank you!")
  ]

  const EnShapeCategories: Table := [
    ("shape.insects", "Insects"),
    ("shape.animals", "Animals"),
    ("shape.abstract", "Abstract"),
    ("shape.botanical", "Botanical")
  ]

  const EnShapes: Table := [
    ("shape.butterfly", "Butterfly"),
    ("shape.bee", "Bee"),
    ("shape.dragonfly", "Dragonfly"),
    ("shape.beetle", "Beetle"),
    ("shape.moth", "Moth"),
    ("shape.bird", "Bird"),
    ("shape.fish", "Fish"),
    ("shape.cat", "Cat"),
    ("shape.fox", "Fox"),
    ("shape.rabbit", "Rabbit"),
    ("shape.geometric", "Geometric"),
    ("shape.spiral", "Spiral"),
    ("shape.wave", "Wave"),
    ("shape.starburst", "Starburst"),
    ("shape.organic", "Organic"),
    ("shape.flower", "Flower"),
    ("shape.leaf", "Leaf"),
    ("shape.vine", "Vine"),
    ("shape.mushroom", "Mushroom"),
    ("shape.tree", "Tree")
  ]

  const EnShipping: Table := [
    ("shipping.title", "Shipping & Returns"),
    ("shipping.worldwide", "Worldwide Shipping"),
    ("shipping.worldwideDesc", "We ship our handmade brooches to every "
        + "corner of the world. Each piece is "
        + "carefully packaged to ensure it arrives "
        + "in perfect condition."),
    ("shipping.delivery", "Delivery Times"),
    ("shipping.europe", "Europe: 5-7 business days"),
    ("shipping.worldwide2", "Worldwide: 10-14 business days"),
    ("shipping.custom", "Custom orders: 2-4 weeks production + delivery"),
    ("shipping.costs", "Shipping Costs"),
    ("shipping.costsDesc", "Free shipping on all orders. Customs "
        + "fees may apply for international "
        + "orders."),
    ("shipping.returns", "Returns & Exchanges"),
    ("shipping.returnsDesc", "Due to the handmade nature of our "
        + "products, we offer returns within 14 "
        + "days of receipt if the item is unused "
        + "and in its original packaging. "
        + "Custom-designed brooches are "
        + "non-refundable."),
    ("shipping.contact", "Contact Us"),
    ("shipping.contactDesc", "For any questions about your order, "
        + "please reach out to us at:")
  ]

  const EnFooter: Table := [
    ("footer.handmade", "Handmade with care"),
    ("footer.rights", "All rights reserved")
  ]

  const EnCommon: Table := [
    ("common.loading", "Loading..."),
    ("common.error", "Something went wrong"),
    ("common.retry", "Try Again")
  ]

  const EnTranslations: Table :=
    EnHeader + EnHome + EnProduct + EnGenerator + EnShapeCategories + EnShapes + EnShipping + EnFooter + EnCommon

  const DeHeader: Table := [
    ("nav.collection", "Kollektion"),
    ("nav.create", "Gestalten"),
    ("nav.shipping", "Versand"),
    ("nav.worldwide", "Weltweiter Versand")
  ]

  const DeHome: Table := [
    ("home.title", "ROUGHAN"),
    ("home.subtitle", "Handgefertigte Perlen-Broschen"),
    ("home.tagline", "Jedes Stück ist ein einzigartiges "
        + "Kunstwerk, sorgfältig von Hand "
        + "gefertigt"),
    ("home.explore", "Kollektion entdecken"),
    ("home.create", "Brosche gestalten"),
    ("home.cta", "Eigene gestalten"),
    ("home.collection", "Die Kollektion"),
    ("home.view", "Details ansehen")
  ]

  const DeProduct: Table := [
    ("product.orderEmail", "Per E-Mail bestellen"),
    ("product.backToCollection", "Zurück zur Kollektion"),
    ("product.price", "Preis"),
    ("product.available", "Verfügbar"),
    ("product.soldOut", "Ausverkauft"),
    ("product.emailSubject", "Bestellanfrage: {name}"),
    ("product.emailBody", "Hallo,\n\nIch möchte die Brosche "
        + "\"{name}\" bestellen (EUR "
        + "{price}).\n\nBitte bestätigen Sie die "
        + "Verfügbarkeit und senden Sie mir die "
        + "Versanddetails an:\n\n[Ihr Name]\n[Ihre "
        + "Adresse]\n[Stadt, PLZ]\n[Land]\n\nVielen"
        + " Dank!")
  ]

  const DeGenerator: Table := [
    ("generator.title", "Brosche gestalten"),
    ("generator.subtitle", "Entwerfen Sie ein einzigartiges Stück "
        + "nach Ihrer Vorstellung"),
    ("generator.size", "Größe"),
    ("generator.sizeDesc", "Wählen Sie die Maße Ihrer Brosche"),
    ("generator.shape", "Form"),
    ("generator.shapeDesc", "Wählen Sie eine Silhouette für Ihr Design"),
    ("generator.colors", "Farben"),
    ("generator.colorsDesc", "Wählen Sie bis zu 4 Hauptfarben"),
    ("generator.description", "Beschreibung"),
    ("generator.descriptionPlaceholder", "Beschreiben Sie Ihre Traumbrosche... "
        + "Welche Stimmung, welchen Stil oder "
        + "welche besonderen Elemente wünschen "
        + "Sie?"),
    ("generator.descriptionHint", "Seien Sie kreativ! Fügen Sie Details zu "
        + "Mustern, Texturen oder Inspirationen "
        + "hinzu"),
    ("generator.generate", "Design erstellen"),
    ("generator.generating", "Ihre Brosche wird erstellt..."),
    ("generator.result", "Ihre individuelle Brosche"),
    ("generator.order", "Diese Brosche bestellen"),
    ("generator.newDesign", "Neues Design erstellen"),
    ("generator.emailSubject", "Individuelle Broschenbestellung"),
    ("generator.emailBody", "Hallo,\n\nIch möchte das individuelle "
        + "Broschen-Design bestellen, das ich "
        + "erstellt habe:\n\nGröße: {size}\nForm: "
        + "{shape}\nFarben: {colors}\nBeschreibung:"
        + " {description}\n\nURL des generierten "
        + "Bildes: {imageUrl}\n\nBitte bestätigen "
        + "Sie den Produktionszeitraum und senden "
        + "Sie mir die Versanddetails an:\n\n[Ihr "
        + "Name]\n[Ihre Adresse]\n[Stadt, "
        + "PLZ]\n[Land]\n\nVielen Dank!")
  ]

  const DeShapeCategories: Table := [
    ("shape.insects", "Insekten"),
    ("shape.animals", "Tiere"),
    ("shape.abstract", "Abstrakt"),
    ("shape.botanical", "Botanisch")
  ]

  const DeShapes: Table := [
    ("shape.butterfly", "Schmetterling"),
    ("shape.bee", "Biene"),
    ("shape.dragonfly", "Libelle"),
    ("shape.beetle", "Käfer"),
    ("shape.moth", "Motte"),
    ("shape.bird", "Vogel"),
    ("shape.fish", "Fisch"),
    ("shape.cat", "Katze"),
    ("shape.fox", "Fuchs"),
    ("shape.rabbit", "Hase"),
    ("shape.geometric", "Geometrisch"),
    ("shape.spiral", "Spirale"),
    ("shape.wave", "Welle"),
    ("shape.starburst", "Sternexplosion"),
    ("shape.organic", "Organisch"),
    ("shape.flower", "Blume"),
    ("shape.leaf", "Blatt"),
    ("shape.vine", "Ranke"),
    ("shape.mushroom", "Pilz"),
    ("shape.tree", "Baum")
  ]

  const DeShipping: Table := [
    ("shipping.title", "Versand & Rückgabe"),
    ("shipping.worldwide", "Weltweiter Versand"),
    ("shipping.worldwideDesc", "Wir versenden unsere handgefertigten "
        + "Broschen in jeden Winkel der Welt. "
        + "Jedes Stück wird sorgfältig verpackt, "
        + "um sicherzustellen, dass es in "
        + "einwandfreiem Zustand ankommt."),
    ("shipping.delivery", "Lieferzeiten"),
    ("shipping.europe", "Europa: 5-7 Werktage"),
    ("shipping.worldwide2", "Weltweit: 10-14 Werktage"),
    ("shipping.custom", "Sonderanfertigungen: 2-4 Wochen "
        + "Produktion + Lieferung"),
    ("shipping.costs", "Versandkosten"),
    ("shipping.costsDesc", "Kostenloser Versand bei allen "
        + "Bestellungen. Bei internationalen "
        + "Bestellungen können Zollgebühren "
        + "anfallen."),
    ("shipping.returns", "Rückgabe & Umtausch"),
    ("shipping.returnsDesc", "Aufgrund der handgefertigten Natur "
        + "unserer Produkte bieten wir Rückgaben "
        + "innerhalb von 14 Tagen nach Erhalt an, "
        + "wenn der Artikel unbenutzt und in "
        + "seiner Originalverpackung ist. "
        + "Individuell gestaltete Broschen sind "
        + "nicht erstattungsfähig."),
    ("shipping.contact", "Kontaktieren Sie uns"),
    ("shipping.contactDesc", "Bei Fragen zu Ihrer Bestellung "
        + "erreichen Sie uns unter:")
  ]

  const DeFooter: Table := [
    ("footer.handmade", "Mit Sorgfalt handgefertigt"),
    ("footer.rights", "Alle Rechte vorbehalten")
  ]

  const DeCommon: Table := [
    ("common.loading", "Lädt..."),
    ("common.error", "Etwas ist schief gelaufen"),
    ("common.retry", "Erneut versuchen")
  ]

  const DeTranslations: Table :=
    DeHeader + DeHome + DeProduct + DeGenerator + DeShapeCategories + DeShapes + DeShipping + DeFooter + DeCommon

  function Translations(language: Language): Table {
    match language
    case En => EnTranslations
    case De => DeTranslations
  }

  function KeysOf(t: Table): (ks: seq<string>)
    ensures |ks| == |t|
    ensures forall i :: 0 <= i < |t| ==> ks[i] == t[i].0
  {
    seq(|t|, i requires 0 <= i < |t| => t[i].0)
  }

  /** Property access on the object literal: the text of the last entry with that key
      (a later duplicate would override an earlier one), `undefined` if none. */
  function Lookup(t: Table, key: string): (r: Option<string>)
    ensures r.None? <==> key !in KeysOf(t)
    ensures r.Some? ==> exists i :: 0 <= i < |t| && t[i] == (key, r.value) && LastWithKey(t, key, i)
    decreases |t|
  {
    if t == [] then None
    else if t[|t| - 1].0 == key then Some(t[|t| - 1].1)
    else
      assert KeysOf(t) == KeysOf(t[..|t| - 1]) + [t[|t| - 1].0];
      var prefix := t[..|t| - 1];
      assert forall i :: 0 <= i < |prefix| ==> prefix[i] == t[i];
      assert forall i :: 0 <= i < |prefix| && LastWithKey(prefix, key, i) ==> LastWithKey(t, key, i);
      Lookup(prefix, key)
  }

  /** No entry after position `i` has the key `key`. */
  predicate LastWithKey(t: Table, key: string, i: nat) {
    forall j :: i < j < |t| ==> t[j].0 != key
  }

  /** `table[key] || key`: an entry that is missing or empty falls back to the key
      itself. */
  function Translate(t: Table, key: string): string {
    match Lookup(t, key)
    case Some(text) => if text != "" then text else key
    case None => key
  }

  /** `getTranslation`: `Translate` in the language's table. */
  function GetTranslation(language: Language, key: string): string {
    Translate(Translations(language), key)
  }

  predicate NoEmptyText(t: Table) {
    forall i :: 0 <= i < |t| ==> t[i].1 != ""
  }

  /** The two languages list the same keys in the same order, and no text is empty. */
  predicate SectionAgrees(en: Table, de: Table) {
    KeysOf(en) == KeysOf(de) && NoEmptyText(en) && NoEmptyText(de)
  }

  lemma HeaderSectionAgrees()
    ensures SectionAgrees(EnHeader, DeHeader)
  {
  }

  lemma HomeSectionAgrees()
    ensures SectionAgrees(EnHome, DeHome)
  {
  }

  lemma ProductSectionAgrees()
    ensures SectionAgrees(EnProduct, DeProduct)
  {
  }

  lemma GeneratorSectionAgrees()
    ensures SectionAgrees(EnGenerator, DeGenerator)
  {
  }

  lemma ShapeCategoriesSectionAgrees()
    ensures SectionAgrees(EnShapeCategories, DeShapeCategories)
  {
  }

  lemma ShapesSectionAgrees()
    ensures SectionAgrees(EnShapes, DeShapes)
  {
  }

  lemma ShippingSectionAgrees()
    ensures SectionAgrees(EnShipping, DeShipping)
  {
  }

  lemma FooterSectionAgrees()
    ensures SectionAgrees(EnFooter, DeFooter)
  {
  }

  lemma CommonSectionAgrees()
    ensures SectionAgrees(EnCommon, DeCommon)
  {
  }

  lemma AgreementConcatenates(en1: Table, de1: Table, en2: Table, de2: Table)
    requires SectionAgrees(en1, de1) && SectionAgrees(en2, de2)
    ensures SectionAgrees(en1 + en2, de1 + de2)
  {
    assert KeysOf(en1 + en2) == KeysOf(en1) + KeysOf(en2);
    assert KeysOf(de1 + de2) == KeysOf(de1) + KeysOf(de2);
  }

  /** The whole tables agree, section by section. */
  lemma TablesAgree()
    ensures SectionAgrees(EnTranslations, DeTranslations)
  {
    HeaderSectionAgrees();
    HomeSectionAgrees();
    ProductSectionAgrees();
    GeneratorSectionAgrees();
    ShapeCategoriesSectionAgrees();
    ShapesSectionAgrees();
    ShippingSectionAgrees();
    FooterSectionAgrees();
    CommonSectionAgrees();
    AgreementConcatenates(EnHeader, DeHeader, EnHome, DeHome);
    AgreementConcatenates(EnHeader + EnHome, DeHeader + DeHome, EnProduct, DeProduct);
    AgreementConcatenates(EnHeader + EnHome + EnProduct, DeHeader + DeHome + DeProduct, EnGenerator, DeGenerator);
    AgreementConcatenates(EnHeader + EnHome + EnProduct + EnGenerator, DeHeader + DeHome + DeProduct + DeGenerator,
                          EnShapeCategories, DeShapeCategories);
    AgreementConcatenates(EnHeader + EnHome + EnProduct + EnGenerator + EnShapeCategories,
                          DeHeader + DeHome + DeProduct + DeGenerator + DeShapeCategories,
                          EnShapes, DeShapes);
    AgreementConcatenates(EnHeader + EnHome + EnProduct + EnGenerator + EnShapeCategories + EnShapes,
                          DeHeader + DeHome + DeProduct + DeGenerator + DeShapeCategories + DeShapes,
                          EnShipping, DeShipping);
    AgreementConcatenates(EnHeader + EnHome + EnProduct + EnGenerator + EnShapeCategories + EnShapes + EnShipping,
                          DeHeader + DeHome + DeProduct + DeGenerator + DeShapeCategories + DeShapes + DeShipping,
                          EnFooter, DeFooter);
    AgreementConcatenates(EnHeader + EnHome + EnProduct + EnGenerator + EnShapeCategories + EnShapes + EnShipping + EnFooter,
                          DeHeader + DeHome + DeProduct + DeGenerator + DeShapeCategories + DeShapes + DeShipping + DeFooter,
                          EnCommon, DeCommon);
  }

  /** For any two tables with the same keys and no empty text: a key is translated
      in one exactly when it is in the other, to a non-empty text of its table, and a
      key with no entry comes back unchanged. */
  lemma AgreeingTablesTranslate(en: Table, de: Table, key: string)
    requires SectionAgrees(en, de)
    ensures key in KeysOf(en) <==> key in KeysOf(de)
    ensures key in KeysOf(en) ==> Lookup(en, key).Some? && Lookup(en, key).value != ""
    ensures key in KeysOf(de) ==> Lookup(de, key).Some? && Lookup(de, key).value != ""
    ensures key !in KeysOf(en) ==> Lookup(en, key).None? && Lookup(de, key).None?
  {
    if key in KeysOf(en) {
      var r := Lookup(en, key);
      var i :| 0 <= i < |en| && en[i] == (key, r.value);
      assert en[i].1 != "";
      var q := Lookup(de, key);
      var j :| 0 <= j < |de| && de[j] == (key, q.value);
      assert de[j].1 != "";
    }
  }

  /** The shipped tables: both languages translate the same keys, every defined key to
      a non-empty text from its own table, and an undefined key falls back to itself. */
  lemma TranslationFallback(language: Language, key: string)
    ensures KeysOf(EnTranslations) == KeysOf(DeTranslations)
    ensures key in KeysOf(Translations(language)) ==>
      && GetTranslation(language, key) == Lookup(Translations(language), key).value
      && GetTranslation(language, key) != ""
    ensures key !in KeysOf(EnTranslations) ==> GetTranslation(language, key) == key
  {
    TablesAgree();
    AgreeingTablesTranslate(EnTranslations, DeTranslations, key);
  }

  // ----- The gallery page's keys -----

  /** The keys the gallery page (MyBrooches.tsx) asks for. */
  const MyBroochesKeys := [
    "myBrooches.delete", "myBrooches.title", "myBrooches.subtitle", "myBrooches.remaining",
    "myBrooches.today", "myBrooches.empty", "myBrooches.createFirst", "myBrooches.createNew"
  ]

  /** Every key of the table starts with a letter other than `c`. */
  predicate NoKeyBeginsWith(t: Table, c: char) {
    forall i :: 0 <= i < |t| ==> t[i].0 != "" && t[i].0[0] != c
  }

  lemma NoKeyBeginsWithConcatenates(t1: Table, t2: Table, c: char)
    requires NoKeyBeginsWith(t1, c) && NoKeyBeginsWith(t2, c)
    ensures NoKeyBeginsWith(t1 + t2, c)
  {
    forall i | 0 <= i < |t1 + t2| ensures (t1 + t2)[i].0 != "" && (t1 + t2)[i].0[0] != c {
      if i >= |t1| {
        assert (t1 + t2)[i] == t2[i - |t1|];
      }
    }
  }

  /** Each English section's keys start with the section's own prefix, none with "m". */
  lemma EnglishSectionsAvoidM()
    ensures NoKeyBeginsWith(EnHeader, 'm') && NoKeyBeginsWith(EnHome, 'm')
    ensures NoKeyBeginsWith(EnProduct, 'm') && NoKeyBeginsWith(EnGenerator, 'm')
    ensures NoKeyBeginsWith(EnShapeCategories, 'm') && NoKeyBeginsWith(EnShapes, 'm')
    ensures NoKeyBeginsWith(EnShipping, 'm') && NoKeyBeginsWith(EnFooter, 'm')
    ensures NoKeyBeginsWith(EnCommon, 'm')
  {
  }

  /** No English key starts with "m", so no "myBrooches." key is among them. */
  lemma NoEnglishKeyBeginsWithM()
    ensures NoKeyBeginsWith(EnTranslations, 'm')
  {
    var c := 'm';
    EnglishSectionsAvoidM();
    NoKeyBeginsWithConcatenates(EnHeader, EnHome, c);
    NoKeyBeginsWithConcatenates(EnHeader + EnHome, EnProduct, c);
    NoKeyBeginsWithConcatenates(EnHeader + EnHome + EnProduct, EnGenerator, c);
    NoKeyBeginsWithConcatenates(EnHeader + EnHome + EnProduct + EnGenerator, EnShapeCategories, c);
    NoKeyBeginsWithConcatenates(EnHeader + EnHome + EnProduct + EnGenerator + EnShapeCategories, EnShapes, c);
    NoKeyBeginsWithConcatenates(EnHeader + EnHome + EnProduct + EnGenerator + EnShapeCategories + EnShapes,
                                EnShipping, c);
    NoKeyBeginsWithConcatenates(EnHeader + EnHome + EnProduct + EnGenerator + EnShapeCategories + EnShapes
                                + EnShipping, EnFooter, c);
    NoKeyBeginsWithConcatenates(EnHeader + EnHome + EnProduct + EnGenerator + EnShapeCategories + EnShapes
                                + EnShipping + EnFooter, EnCommon, c);
  }

  /** As written, the gallery page's keys have no entry in either table, so the
      page shows the raw keys ("myBrooches.title", ...) in both languages. */
  lemma MyBroochesKeysUntranslated(language: Language, key: string)
    requires key in MyBroochesKeys
    ensures key !in KeysOf(EnTranslations) && key !in KeysOf(DeTranslations)
    ensures GetTranslation(language, key) == key
  {
    NoEnglishKeyBeginsWithM();
    assert key[0] == 'm';
    TranslationFallback(language, key);
  }

  /** Corrected: the tables extended by a gallery section that lists the page's keys
      in both languages, with the same keys and no empty text, translate every one of
      them to a text of that section, in both languages. */
  lemma MyBroochesSectionTranslates(enPage: Table, dePage: Table, key: string)
    requires SectionAgrees(enPage, dePage) && KeysOf(enPage) == MyBroochesKeys
    requires key in MyBroochesKeys
    ensures Lookup(enPage, key).Some? && Lookup(dePage, key).Some?
    ensures Translate(EnTranslations + enPage, key) == Lookup(enPage, key).value
    ensures Translate(DeTranslations + dePage, key) == Lookup(dePage, key).value
    ensures Translate(EnTranslations + enPage, key) != "" && Translate(DeTranslations + dePage, key) != ""
  {
    TablesAgree();
    AgreementConcatenates(EnTranslations, DeTranslations, enPage, dePage);
    assert KeysOf(EnTranslations + enPage) == KeysOf(EnTranslations) + KeysOf(enPage);
    AgreeingTablesTranslate(EnTranslations + enPage, DeTranslations + dePage, key);
    LookupAppended(EnTranslations, enPage, key);
    LookupAppended(DeTranslations, dePage, key);
  }

  /** A key of the appended table is found there: later entries win. Both lookups
      return the last entry with the key, and that entry lies in the appended part. */
  lemma LookupAppended(t1: Table, t2: Table, key: string)
    requires key in KeysOf(t2)
    ensures Lookup(t1 + t2, key) == Lookup(t2, key)
  {
    var t := t1 + t2;
    var q := Lookup(t2, key);
    var j :| 0 <= j < |t2| && t2[j] == (key, q.value) && LastWithKey(t2, key, j);
    assert t[|t1| + j] == t2[j];
    assert key in KeysOf(t) by { assert KeysOf(t)[|t1| + j] == key; }
    var r := Lookup(t, key);
    var i :| 0 <= i < |t| && t[i] == (key, r.value) && LastWithKey(t, key, i);
    assert i >= |t1| + j;
    assert t2[i - |t1|] == t[i];
    assert i == |t1| + j;
  }

  // ----- Template filling -----

  function Placeholder(key: string): string {
    "{" + key + "}"
  }

  predicate IsWordChar(c: char) {
    ('a' <= c <= 'z') || ('A' <= c <= 'Z') || ('0' <= c <= '9') || c == '_'
  }

  /** Keys are identifiers and values carry no `$`, so the `RegExp` matches the
      placeholder literally and the replacement is inserted literally. */
  predicate LiteralEntries(values: seq<(string, string)>) {
    forall i :: 0 <= i < |values| ==>
      && |values[i].0| > 0
      && (forall j :: 0 <= j < |values[i].0| ==> IsWordChar(values[i].0[j]))
      && (forall j :: 0 <= j < |values[i].1| ==> values[i].1[j] != '$')
  }

  /** `formatTemplate`: for each entry in order, replace every `{key}` in the text
      produced so far by the value. `values` is the list `Object.entries` gives, which
      puts integer-like keys first in ascending order; the keys the program passes
      are not numeric, so for them it is the order the object was written in. */
  function FormatTemplate(template: string, values: seq<(string, string)>): string
    requires LiteralEntries(values)
    decreases |values|
  {
    if values == [] then template
    else FormatTemplate(ReplaceAll(template, Placeholder(values[0].0), values[0].1), values[1..])
  }

  /** The entries are applied one after another: the last entry acts on the text the
      earlier ones produced. With no entries the template is returned as it is. */
  lemma {:induction false} FormatSequential(template: string, values: seq<(string, string)>, last: (string, string))
    requires LiteralEntries(values + [last])
    ensures LiteralEntries(values)
    ensures FormatTemplate(template, []) == template
    ensures FormatTemplate(template, values + [last])
      == ReplaceAll(FormatTemplate(template, values), Placeholder(last.0), last.1)
    decreases |values|
  {
    assert forall i :: 0 <= i < |values| ==> values[i] == (values + [last])[i];
    if values != [] {
      var t := ReplaceAll(template, Placeholder(values[0].0), values[0].1);
      assert (values + [last])[1..] == values[1..] + [last];
      FormatSequential(t, values[1..], last);
    }
  }

  /** A template containing none of the entries' placeholders is returned unchanged. */
  lemma {:induction false} FormatWithoutPlaceholders(template: string, values: seq<(string, string)>)
    requires LiteralEntries(values)
    requires forall i, p :: 0 <= i < |values| ==> !OccursAt(template, Placeholder(values[i].0), p)
    ensures FormatTemplate(template, values) == template
    decreases |values|
  {
    if values != [] {
      ReplaceAllAbsent(template, Placeholder(values[0].0), values[0].1);
      forall i, p | 0 <= i < |values[1..]| ensures !OccursAt(template, Placeholder(values[1..][i].0), p) {
        assert values[1..][i] == values[i + 1];
      }
      FormatWithoutPlaceholders(template, values[1..]);
    }
  }

  /** The text has neither `{` nor `}`. Every key made of word characters is such a
      text, so a placeholder's only braces are its first and last characters. */
  predicate NoBraces(x: string) {
    forall j :: 0 <= j < |x| ==> x[j] != '{' && x[j] != '}'
  }

  /** A placeholder cannot start inside the text in front of another placeholder and
      run into it: the only `{` of a placeholder is its first character. */
  lemma NoStraddleBeforeBrace(a: string, rest: string, key: string)
    requires NoBraces(key) && |rest| > 0 && rest[0] == '{'
    ensures NoStraddle(a, rest, Placeholder(key))
  {
    var pat := Placeholder(key);
    forall i | 0 <= i < |a| < i + |pat| ensures !OccursAt(a + rest, pat, i) {
      assert pat[|a| - i] != '{';
      if i + |pat| <= |a + rest| {
        assert (a + rest)[i..i + |pat|][|a| - i] == (a + rest)[|a|] == '{';
      }
    }
  }

  /** A placeholder cannot start inside another placeholder and run past its end. */
  lemma NoStraddleAfterPlaceholder(k: string, b: string, key: string)
    requires NoBraces(k) && NoBraces(key)
    ensures NoStraddle(Placeholder(k), b, Placeholder(key))
  {
    var pat, pk := Placeholder(key), Placeholder(k);
    forall i | 0 <= i < |pk| < i + |pat| ensures !OccursAt(pk + b, pat, i) {
      if i + |pat| <= |pk + b| {
        var w := (pk + b)[i..i + |pat|];
        if i == 0 {
          assert w[|pk| - 1] == pk[|pk| - 1] == '}';
          assert pat[|pk| - 1] == key[|pk| - 2] != '}';
          assert w != pat;
        } else {
          assert w[0] == pk[i] != '{';
          assert w != pat;
        }
      }
    }
  }

  /** The placeholder of one key does not occur in the placeholder of another. */
  lemma OtherPlaceholderAbsent(k: string, key: string)
    requires NoBraces(k) && NoBraces(key) && k != key
    ensures forall i :: !OccursAt(Placeholder(k), Placeholder(key), i)
  {
    var pat, pk := Placeholder(key), Placeholder(k);
    forall i ensures !OccursAt(pk, pat, i) {
      if 0 <= i && i + |pat| <= |pk| {
        var w := pk[i..i + |pat|];
        if i > 0 {
          assert w[0] == pk[i] != '{';
        } else if |pat| < |pk| {
          assert w[|pat| - 1] == pk[|pat| - 1] == k[|pat| - 2];
        } else {
          assert k == pk[1..|pk| - 1] && key == pat[1..|pat| - 1];
        }
      }
    }
  }

  /** Replacing the placeholder of `key` leaves the placeholder of every other key
      where it is: the text on either side is filled on its own. */
  lemma ReplaceKeepsOtherPlaceholder(a: string, k: string, b: string, key: string, value: string)
    requires NoBraces(k) && NoBraces(key) && k != key
    ensures ReplaceAll(a + Placeholder(k) + b, Placeholder(key), value)
      == ReplaceAll(a, Placeholder(key), value) + Placeholder(k) + ReplaceAll(b, Placeholder(key), value)
  {
    var pat, pk := Placeholder(key), Placeholder(k);
    assert a + pk + b == a + (pk + b);
    NoStraddleBeforeBrace(a, pk + b, key);
    ReplaceAllSplit(a, pk + b, pat, value);
    NoStraddleAfterPlaceholder(k, b, key);
    ReplaceAllSplit(pk, b, pat, value);
    OtherPlaceholderAbsent(k, key);
    ReplaceAllAbsent(pk, pat, value);
  }

  /** A placeholder whose key has no entry survives filling, in any template: the
      text before it and the text after it are filled as if on their own. */
  lemma {:induction false} FormatKeepsUnsuppliedPlaceholder(a: string, k: string, b: string, values: seq<(string, string)>)
    requires LiteralEntries(values) && NoBraces(k)
    requires forall i :: 0 <= i < |values| ==> values[i].0 != k
    ensures FormatTemplate(a + Placeholder(k) + b, values)
      == FormatTemplate(a, values) + Placeholder(k) + FormatTemplate(b, values)
    decreases |values|
  {
    if values != [] {
      var (key, value) := values[0];
      assert NoBraces(key) by {
        forall j | 0 <= j < |key| ensures key[j] != '{' && key[j] != '}' {
          assert IsWordChar(values[0].0[j]);
        }
      }
      ReplaceKeepsOtherPlaceholder(a, k, b, key, value);
      assert forall i :: 0 <= i < |values[1..]| ==> values[1..][i] == values[i + 1];
      FormatKeepsUnsuppliedPlaceholder(ReplaceAll(a, Placeholder(key), value), k,
                                       ReplaceAll(b, Placeholder(key), value), values[1..]);
    }
  }

  /** Text without `{` contains no placeholder. */
  lemma BraceFreeHasNoPlaceholder(text: string, key: string)
    requires forall j :: 0 <= j < |text| ==> text[j] != '{'
    ensures forall p :: !OccursAt(text, Placeholder(key), p)
  {
    var pat := Placeholder(key);
    forall p ensures !OccursAt(text, pat, p) {
      if 0 <= p && p + |pat| <= |text| {
        assert text[p..p + |pat|][0] == text[p];
      }
    }
  }

  /** A placeholder after brace-free text first occurs right after that text. */
  lemma PlaceholderFirstAfter(before: string, key: string, after: string)
    requires forall j :: 0 <= j < |before| ==> before[j] != '{'
    ensures OccursAt(before + Placeholder(key) + after, Placeholder(key), |before|)
    ensures forall j :: 0 <= j < |before| ==> !OccursAt(before + Placeholder(key) + after, Placeholder(key), j)
  {
    var pat := Placeholder(key);
    var t := before + pat + after;
    assert t[|before|..|before| + |pat|] == pat;
    forall j | 0 <= j < |before| ensures !OccursAt(t, pat, j) {
      assert t[j] == before[j];
      if j + |pat| <= |t| {
        assert t[j..j + |pat|][0] == t[j];
      }
    }
  }

  /** Filling one placeholder that stands between brace-free text: the value takes
      the placeholder's place and the text around it is kept. */
  lemma FillOnePlaceholder(before: string, key: string, after: string, value: string)
    requires LiteralEntries([(key, value)])
    requires forall j :: 0 <= j < |before| ==> before[j] != '{'
    requires forall j :: 0 <= j < |after| ==> after[j] != '{'
    ensures FormatTemplate(before + Placeholder(key) + after, [(key, value)]) == before + value + after
  {
    var pat := Placeholder(key);
    var t := before + pat + after;
    assert ReplaceAll(t, pat, value) == before + value + ReplaceAll(after, pat, value) by {
      PlaceholderFirstAfter(before, key, after);
      ReplaceAllLeftmost(t, pat, value, |before|);
      assert t[..|before|] == before;
      assert t[|before| + |pat|..] == after;
    }
    assert ReplaceAll(after, pat, value) == after by {
      BraceFreeHasNoPlaceholder(after, key);
      ReplaceAllAbsent(after, pat, value);
    }
    assert FormatTemplate(t, [(key, value)]) == FormatTemplate(ReplaceAll(t, pat, value), []);
  }
}
