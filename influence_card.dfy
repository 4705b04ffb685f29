/** The collectible card shown for one influence tag
    (ui/InfluenceCardBuilder.kt and model/InfluenceCardModel.kt). */
module InfluenceCard {

  import opened Wrappers
  import opened Model
  import opened Text

  datatype CardPolarity = Green | Red

  datatype CardRank = Common | Uncommon | Rare | Legendary

  /** The two drawable resources a card can show. */
  datatype CardImage = CodingImage | CardDefault

  datatype InfluenceCardModel = InfluenceCardModel(
    name: string,
    polarity: CardPolarity,
    deepGreenCount: nat,
    greenCount: nat,
    redCount: nat,
    deepRedCount: nat,
    imageResId: CardImage,
    imagePath: Option<string>,
    cardType: string,
    subType: Option<string>,
    rank: CardRank,
    averageImpact: real,
    description: string)

  const CodingDescription: string :=
    "Translating ideas into structured, functional systems through focused problem-solving."
  const GenericDescription: string :=
    "An influence that shapes behavior and emotional state over time."

  /** The magnitude from which an entry counts as a deep one. */
  const DeepThreshold: real := 0.7

  function Abs(x: real): real {
    if x < 0.0 then -x else x
  }

  /** The four intensity tiers of one entry's delta. */
  datatype Tier = DeepGreen | SoftGreen | SoftRed | DeepRed

  predicate InTier(delta: real, t: Tier) {
    match t
    case DeepGreen => delta >= 0.0 && Abs(delta) >= DeepThreshold
    case SoftGreen => delta > 0.0 && Abs(delta) < DeepThreshold
    case DeepRed => delta <= 0.0 && Abs(delta) >= DeepThreshold
    case SoftRed => delta < 0.0 && Abs(delta) < DeepThreshold
  }

  /** The number of entries whose delta falls into one tier. */
  function CountTier(entries: seq<LedgerEntry>, t: Tier): (n: nat)
    ensures n <= |entries|
    ensures n == 0 <== forall k :: 0 <= k < |entries| ==> !InTier(entries[k].delta, t)
  {
    if entries == [] then 0
    else CountTier(entries[..|entries| - 1], t) + (if InTier(entries[|entries| - 1].delta, t) then 1 else 0)
  }

  /** The number of entries that moved the day at all. */
  function CountNonZero(entries: seq<LedgerEntry>): (n: nat)
    ensures n <= |entries|
  {
    if entries == [] then 0
    else CountNonZero(entries[..|entries| - 1]) + (if entries[|entries| - 1].delta != 0.0 then 1 else 0)
  }

  /** Every non-zero delta falls into exactly one tier; a zero delta into none. */
  lemma TiersPartition(delta: real)
    ensures delta == 0.0 ==> forall t :: !InTier(delta, t)
    ensures delta != 0.0 ==> exists t :: InTier(delta, t)
    ensures forall t, u :: InTier(delta, t) && InTier(delta, u) ==> t == u
  {
    if delta != 0.0 {
      if delta > 0.0 {
        if delta >= DeepThreshold {
          assert InTier(delta, DeepGreen);
        } else {
          assert InTier(delta, SoftGreen);
        }
      } else if -delta >= DeepThreshold {
        assert InTier(delta, DeepRed);
      } else {
        assert InTier(delta, SoftRed);
      }
    }
  }

  /** The four tier counts add up to the number of entries with a non-zero delta. */
  lemma {:induction false} TierCountsSum(entries: seq<LedgerEntry>)
    ensures CountTier(entries, DeepGreen) + CountTier(entries, SoftGreen)
          + CountTier(entries, SoftRed) + CountTier(entries, DeepRed)
         == CountNonZero(entries)
  {
    if entries != [] {
      TierCountsSum(entries[..|entries| - 1]);
      TiersPartition(entries[|entries| - 1].delta);
    }
  }

  /** The rank bucket of a tag's occurrence count. */
  function RankOf(count: int): (rank: CardRank)
    ensures rank == Common <==> 0 <= count <= 10
    ensures rank == Uncommon <==> 11 <= count <= 25
    ensures rank == Rare <==> 26 <= count <= 100
    ensures rank == Legendary <==> count < 0 || count > 100
  {
    if 0 <= count <= 10 then Common
    else if 11 <= count <= 25 then Uncommon
    else if 26 <= count <= 100 then Rare
    else Legendary
  }

  function RankLevel(rank: CardRank): nat {
    match rank
    case Common => 0
    case Uncommon => 1
    case Rare => 2
    case Legendary => 3
  }

  /** For non-negative counts the rank never goes down as the count grows. */
  lemma RankMonotone(m: int, n: int)
    requires 0 <= m <= n
    ensures RankLevel(RankOf(m)) <= RankLevel(RankOf(n))
  {
  }

  /** `buildInfluenceCardModel`. */
  function BuildInfluenceCardModel(tag: string, stats: TagStats, entries: seq<LedgerEntry>): (card: InfluenceCardModel)
    ensures card.name == tag && card.averageImpact == stats.Average()
    ensures card.polarity == Green <==> stats.Average() >= 0.0
    ensures stats.count == 0 ==> card.polarity == Green
    ensures stats.count > 0 ==> (card.polarity == Green <==> stats.totalDelta >= 0.0)
    ensures card.deepGreenCount == CountTier(entries, DeepGreen) && card.greenCount == CountTier(entries, SoftGreen)
    ensures card.redCount == CountTier(entries, SoftRed) && card.deepRedCount == CountTier(entries, DeepRed)
    ensures card.deepGreenCount + card.greenCount + card.redCount + card.deepRedCount == CountNonZero(entries)
    ensures card.rank == RankOf(stats.count)
    ensures card.imageResId == CodingImage <==> ContainsIgnoreCase(tag, "code")
    ensures card.description == CodingDescription <==> EqualsIgnoreCase(tag, "coding")
    ensures card.cardType == "" && card.subType == None && card.imagePath == None
  {
    TierCountsSum(entries);
    var polarity := if stats.Average() >= 0.0 then Green else Red;
    var image := if ContainsIgnoreCase(tag, "code") then CodingImage else CardDefault;
    var description := if EqualsIgnoreCase(tag, "coding") then CodingDescription else GenericDescription;
    InfluenceCardModel(
      tag, polarity,
      CountTier(entries, DeepGreen), CountTier(entries, SoftGreen),
      CountTier(entries, SoftRed), CountTier(entries, DeepRed),
      image, None, "", None, RankOf(stats.count), stats.Average(), description)
  }

  /** The tag "coding" gets the coding description but not the coding image:
      "coding" does not contain "code". */
  lemma CodingTagKeepsDefaultImage(stats: TagStats, entries: seq<LedgerEntry>)
    ensures var card := BuildInfluenceCardModel("Coding", stats, entries);
      card.description == CodingDescription && card.imageResId == CardDefault
  {
    CodingLacksCode();
    assert EqualsIgnoreCase("Coding", "coding") by {
      assert LowerStr("Coding") == "coding" == LowerStr("coding");
    }
  }

  /** "code" occurs nowhere in "coding". */
  lemma CodingLacksCode()
    ensures !ContainsIgnoreCase("Coding", "code")
  {
    var l := LowerStr("Coding");
    assert l == "coding";
    assert LowerStr("code") == "code";
    forall i: nat
      ensures !OccursAt(l, "code", i)
    {
      if i + 4 <= |l| {
        assert l[i..i + 4][3] == l[i + 3] != 'e';
      }
    }
    ContainsIffOccurs(l, "code");
  }

  /** A tag that mentions "code" anywhere, in any case, shows the coding image. */
  lemma CodeTagGetsCodingImage(prefix: string, suffix: string, stats: TagStats, entries: seq<LedgerEntry>)
    ensures BuildInfluenceCardModel(prefix + "CODE" + suffix, stats, entries).imageResId == CodingImage
  {
    var tag := prefix + "CODE" + suffix;
    var l := LowerStr(tag);
    assert LowerStr("code") == "code";
    assert l[|prefix|..|prefix| + 4] == "code";
    assert OccursAt(l, "code", |prefix|);
    ContainsIffOccurs(l, "code");
  }
}
