/** The in-memory store: a read-only catalog keyed by brooch id, beside an
    insert-only map of generated brooches keyed by a fresh id. */
module Storage {
  import opened Wrappers
  import opened OrderedMaps
  import opened Schema

  /** What the generate handler hands to the store: a generated brooch without
      its id and creation time. */
  datatype NewGeneratedBrooch = NewGeneratedBrooch(
    imageUrl: string,
    size: Size,
    shape: string,
    colors: seq<string>,
    description: string)

  datatype MemStorage = MemStorage(
    brooches: OrderedMap<string, Brooch>,
    generatedBrooches: OrderedMap<string, GeneratedBrooch>)

  predicate DistinctIds(bs: seq<Brooch>) {
    forall i, j :: 0 <= i < j < |bs| ==> bs[i].id != bs[j].id
  }

  /** The constructor's loop: `set(b.id, b)` for every sample, in order. */
  function LoadCatalog(samples: seq<Brooch>): OrderedMap<string, Brooch>
    decreases |samples|
  {
    if samples == [] then []
    else
      var last := samples[|samples| - 1];
      Set(LoadCatalog(samples[..|samples| - 1]), last.id, last)
  }

  /** With distinct ids, the catalog map lists the samples in order, keyed by id. */
  lemma {:induction false} LoadCatalogLists(samples: seq<Brooch>)
    requires DistinctIds(samples)
    ensures LoadCatalog(samples) == seq(|samples|, i requires 0 <= i < |samples| => Entry(samples[i].id, samples[i]))
    decreases |samples|
  {
    if samples != [] {
      var n := |samples| - 1;
      var init := samples[..n];
      var last := samples[n];
      LoadCatalogLists(init);
      var m := LoadCatalog(init);
      assert !HasKey(m, last.id) by {
        forall i | 0 <= i < |m| ensures m[i].key != last.id {
          assert m[i].key == samples[i].id;
        }
      }
      SetNewKeyAppends(m, last.id, last);
    }
  }

  /** `new MemStorage()`: the samples as catalog, nothing generated yet. */
  function NewMemStorage(): MemStorage {
    MemStorage(LoadCatalog(SampleBrooches), [])
  }

  /** `getAllBrooches`: the catalog values in insertion order. */
  function GetAllBrooches(s: MemStorage): seq<Brooch> {
    Values(s.brooches)
  }

  /** `getBroochById` */
  function GetBroochById(s: MemStorage, id: string): Option<Brooch> {
    Get(s.brooches, id)
  }

  lemma CatalogFinds(samples: seq<Brooch>, i: nat)
    requires DistinctIds(samples) && i < |samples|
    ensures Get(LoadCatalog(samples), samples[i].id) == Some(samples[i])
  {
    LoadCatalogLists(samples);
    var m := LoadCatalog(samples);
    assert m[i].key == samples[i].id;
    var r := Get(m, samples[i].id);
    var k :| 0 <= k < |m| && m[k] == Entry(samples[i].id, r.value);
    assert samples[k].id == samples[i].id;
  }

  /** A catalog loaded from samples with distinct ids lists every sample in order
      and finds each by its id. */
  lemma CatalogLookup(samples: seq<Brooch>)
    requires DistinctIds(samples)
    ensures Values(LoadCatalog(samples)) == samples
    ensures forall i :: 0 <= i < |samples| ==> Get(LoadCatalog(samples), samples[i].id) == Some(samples[i])
  {
    LoadCatalogLists(samples);
    var m := LoadCatalog(samples);
    forall i | 0 <= i < |samples| ensures Get(m, samples[i].id) == Some(samples[i]) {
      CatalogFinds(samples, i);
    }
  }

  /** The freshly built store lists the eight samples in order and finds each by its id. */
  lemma CatalogFromSamples()
    ensures GetAllBrooches(NewMemStorage()) == SampleBrooches
    ensures forall i :: 0 <= i < |SampleBrooches| ==>
      GetBroochById(NewMemStorage(), SampleBrooches[i].id) == Some(SampleBrooches[i])
  {
    SampleIdsDistinct();
    CatalogLookup(SampleBrooches);
  }

  /** `saveGeneratedBrooch`: the record is the input plus `id` and `createdAt`,
      stored under `id`. The id comes from `randomUUID`, so it is fresh. */
  function SaveGeneratedBrooch(s: MemStorage, b: NewGeneratedBrooch, id: string, createdAt: string)
    : (r: (GeneratedBrooch, MemStorage))
    requires !HasKey(s.generatedBrooches, id)
    ensures r.0 == GeneratedBrooch(id, b.imageUrl, b.size, b.shape, b.colors, b.description, createdAt)
    ensures r.1.brooches == s.brooches
    ensures r.1.generatedBrooches == s.generatedBrooches + [Entry(id, r.0)]
  {
    var record := GeneratedBrooch(id, b.imageUrl, b.size, b.shape, b.colors, b.description, createdAt);
    SetNewKeyAppends(s.generatedBrooches, id, record);
    (record, s.(generatedBrooches := Set(s.generatedBrooches, id, record)))
  }

  /** `getGeneratedBrooch` */
  function GetGeneratedBrooch(s: MemStorage, id: string): (r: Option<GeneratedBrooch>)
    ensures r.None? <==> !HasKey(s.generatedBrooches, id)
  {
    Get(s.generatedBrooches, id)
  }

  /** After a save under a fresh id, that id yields exactly the saved record, every
      other id yields what it did before, and the catalog is untouched. */
  lemma SaveThenGet(s: MemStorage, b: NewGeneratedBrooch, id: string, createdAt: string, other: string)
    requires !HasKey(s.generatedBrooches, id)
    ensures var (rec, s') := SaveGeneratedBrooch(s, b, id, createdAt);
      && GetGeneratedBrooch(s', id) == Some(rec)
      && (other != id ==> GetGeneratedBrooch(s', other) == GetGeneratedBrooch(s, other))
      && GetAllBrooches(s') == GetAllBrooches(s)
      && GetBroochById(s', other) == GetBroochById(s, other)
  {
    var rec := GeneratedBrooch(id, b.imageUrl, b.size, b.shape, b.colors, b.description, createdAt);
    SetNewKeyAppends(s.generatedBrooches, id, rec);
    GetSetSame(s.generatedBrooches, id, rec);
    if other != id {
      GetSetOther(s.generatedBrooches, id, rec, other);
    }
  }

  /** Saves keep the generated ids distinct, so the map never holds two records under one id. */
  lemma SaveKeepsIdsDistinct(s: MemStorage, b: NewGeneratedBrooch, id: string, createdAt: string)
    requires !HasKey(s.generatedBrooches, id)
    requires DistinctKeys(s.generatedBrooches)
    ensures DistinctKeys(SaveGeneratedBrooch(s, b, id, createdAt).1.generatedBrooches)
  {
    var rec := GeneratedBrooch(id, b.imageUrl, b.size, b.shape, b.colors, b.description, createdAt);
    SetNewKeyAppends(s.generatedBrooches, id, rec);
    SetKeepsDistinct(s.generatedBrooches, id, rec);
  }

  /** A new store has no generated brooches: every id is unknown. */
  lemma NothingGeneratedInitially(id: string)
    ensures GetGeneratedBrooch(NewMemStorage(), id) == None
  {
  }
}
