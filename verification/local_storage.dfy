/** The client's local-storage hook: a day-scoped generation allowance with a lazy
    reset, and a gallery of the user's own generated brooches. `today` (the UTC date
    part of the clock) is a parameter, and a stored value is given already parsed. */
module LocalStorage {
  import opened Seqs

  // ----- Daily generation allowance -----

  const MaxGenerationsPerDay := 3

  /** The stored limit record. `count` is an integer; only same-day records are
      ever kept as they are. */
  datatype GenerationLimit = GenerationLimit(date: string, count: int)

  /** A local-storage slot: missing (or empty), present but not parseable as the
      expected JSON, or parsed. */
  datatype Stored<T> = Absent | Unparseable | Parsed(value: T)

  /** The load effect: a same-day record is adopted; a missing, unparseable or
      stale one is replaced by a fresh record for today, which is also written back. */
  function LoadGenerationLimit(stored: Stored<GenerationLimit>, today: string): (r: (GenerationLimit, Stored<GenerationLimit>))
  {
    if stored.Parsed? && stored.value.date == today then (stored.value, stored)
    else
      var reset := GenerationLimit(today, 0);
      (reset, Parsed(reset))
  }

  /** After loading, the limit is dated today; it is the stored record exactly when
      that record was parsed and dated today, and a fresh zero count otherwise.
      Reloading what was written back changes nothing. */
  lemma LoadMeaning(stored: Stored<GenerationLimit>, today: string)
    ensures var (limit, written) := LoadGenerationLimit(stored, today);
      && limit.date == today
      && (stored.Parsed? && stored.value.date == today ==> limit == stored.value && written == stored)
      && (!(stored.Parsed? && stored.value.date == today) ==> limit == GenerationLimit(today, 0))
      && LoadGenerationLimit(written, today) == (limit, written)
  {
  }

  /** `canGenerate` */
  function CanGenerate(limit: GenerationLimit, today: string): bool {
    if limit.date != today then true else limit.count < MaxGenerationsPerDay
  }

  /** `getRemainingGenerations` */
  function RemainingGenerations(limit: GenerationLimit, today: string): (r: int)
    ensures 0 <= r
    ensures limit.count >= 0 ==> r <= MaxGenerationsPerDay
    ensures limit.date != today ==> r == MaxGenerationsPerDay
  {
    if limit.date != today then MaxGenerationsPerDay
    else if MaxGenerationsPerDay - limit.count > 0 then MaxGenerationsPerDay - limit.count
    else 0
  }

  /** Generating is allowed exactly when some generations remain. */
  lemma CanGenerateIffRemaining(limit: GenerationLimit, today: string)
    ensures CanGenerate(limit, today) <==> RemainingGenerations(limit, today) > 0
  {
  }

  /** `incrementGenerationCount`: one more on the same day, otherwise the first of a new day. */
  function IncrementGenerationCount(limit: GenerationLimit, today: string): (r: GenerationLimit)
    ensures r.date == today
  {
    if limit.date == today then GenerationLimit(today, limit.count + 1) else GenerationLimit(today, 1)
  }

  /** An increment uses up exactly one remaining generation while any remain, and the
      allowance stays exhausted once it is. */
  lemma IncrementConsumesOne(limit: GenerationLimit, today: string)
    ensures var before := RemainingGenerations(limit, today);
      var after := RemainingGenerations(IncrementGenerationCount(limit, today), today);
      (before > 0 ==> after == before - 1) && (before == 0 ==> after == 0)
  {
  }

  function IncrementTimes(limit: GenerationLimit, today: string, n: nat): GenerationLimit
    decreases n
  {
    if n == 0 then limit else IncrementGenerationCount(IncrementTimes(limit, today, n - 1), today)
  }

  /** From a fresh record for today, `n` increments leave `n` used and max(0, 3 - n)
      remaining; generating stays allowed for exactly the first three. */
  lemma {:induction false} IncrementsFromFresh(today: string, n: nat)
    ensures IncrementTimes(GenerationLimit(today, 0), today, n) == GenerationLimit(today, n)
    ensures RemainingGenerations(IncrementTimes(GenerationLimit(today, 0), today, n), today)
      == if n < MaxGenerationsPerDay then MaxGenerationsPerDay - n else 0
    ensures CanGenerate(IncrementTimes(GenerationLimit(today, 0), today, n), today) <==> n < MaxGenerationsPerDay
    decreases n
  {
    if n > 0 {
      IncrementsFromFresh(today, n - 1);
    }
  }

  /** Three generations exhaust the day; on any other day the full allowance is back. */
  lemma DailyAllowance(today: string, tomorrow: string)
    requires tomorrow != today
    ensures var used := IncrementTimes(GenerationLimit(today, 0), today, 3);
      && !CanGenerate(used, today)
      && RemainingGenerations(used, today) == 0
      && CanGenerate(used, tomorrow)
      && RemainingGenerations(used, tomorrow) == MaxGenerationsPerDay
      && IncrementGenerationCount(used, tomorrow) == GenerationLimit(tomorrow, 1)
  {
    IncrementsFromFresh(today, 3);
  }

  // ----- Local gallery -----

  /** The gallery's copy of a generated brooch. */
  datatype LocalBrooch = LocalBrooch(
    id: string,
    imageUrl: string,
    size: string,
    shape: string,
    colors: seq<string>,
    description: string,
    createdAt: string)

  /** The gallery as loaded: the parsed list, or empty when the slot is missing or
      cannot be parsed. */
  function LoadGallery(stored: Stored<seq<LocalBrooch>>): seq<LocalBrooch> {
    if stored.Parsed? then stored.value else []
  }

  /** `saveBrooch`: newest first, with no check for an id already present. */
  function SaveBrooch(gallery: seq<LocalBrooch>, b: LocalBrooch): (r: seq<LocalBrooch>)
    ensures |r| == |gallery| + 1 && r[0] == b && r[1..] == gallery
  {
    [b] + gallery
  }

  /** The test `b.id !== id` of `removeBrooch`'s filter. */
  function OtherId(id: string): LocalBrooch -> bool {
    (b: LocalBrooch) => b.id != id
  }

  /** `removeBrooch`: `filter(b => b.id !== id)`. */
  function RemoveBrooch(gallery: seq<LocalBrooch>, id: string): (r: seq<LocalBrooch>)
    ensures forall b :: b in r <==> b in gallery && b.id != id
    ensures |r| <= |gallery|
  {
    Filter(gallery, OtherId(id))
  }

  function CountId(gallery: seq<LocalBrooch>, id: string): nat
    decreases |gallery|
  {
    if gallery == [] then 0 else (if gallery[0].id == id then 1 else 0) + CountId(gallery[1..], id)
  }

  /** Removal works entry by entry, so it keeps the order of what stays: removing
      from a concatenation is the concatenation of the removals. */
  lemma RemoveDistributes(a: seq<LocalBrooch>, b: seq<LocalBrooch>, id: string)
    ensures RemoveBrooch(a + b, id) == RemoveBrooch(a, id) + RemoveBrooch(b, id)
  {
    FilterDistributes(a, b, OtherId(id));
  }

  /** Removing an id that is absent changes nothing; removing twice is removing once. */
  lemma RemoveAbsentAndIdempotent(gallery: seq<LocalBrooch>, id: string)
    ensures (forall b :: b in gallery ==> b.id != id) ==> RemoveBrooch(gallery, id) == gallery
    ensures RemoveBrooch(RemoveBrooch(gallery, id), id) == RemoveBrooch(gallery, id)
  {
    FilterKeepsAllAndIdempotent(gallery, OtherId(id));
  }

  /** Saving then removing the same id: the saved entry is gone along with any
      older entry of that id, and every other entry stays where it was. */
  lemma SaveThenRemove(gallery: seq<LocalBrooch>, b: LocalBrooch)
    ensures RemoveBrooch(SaveBrooch(gallery, b), b.id) == RemoveBrooch(gallery, b.id)
  {
    assert SaveBrooch(gallery, b)[1..] == gallery;
  }

  /** Saving does not de-duplicate: saving the same brooch twice leaves two more
      entries with its id. */
  lemma SaveKeepsDuplicates(gallery: seq<LocalBrooch>, b: LocalBrooch)
    ensures CountId(SaveBrooch(SaveBrooch(gallery, b), b), b.id) == CountId(gallery, b.id) + 2
  {
    var once := SaveBrooch(gallery, b);
    assert once[1..] == gallery;
    assert SaveBrooch(once, b)[1..] == once;
  }
}
