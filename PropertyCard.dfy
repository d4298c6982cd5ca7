/**
 * The listing card (src/components/PropertyCard.tsx): the image carousel's
 * index, the amenity feature list and its badges, and the casing of the
 * enum labels.
 */
module PropertyCard {
  import opened Common

  // ---------------------------------------------------------------------
  // Carousel
  // ---------------------------------------------------------------------

  /** nextImage's update of the index over `n` images; with no images the index stays. */
  function NextIndex(i: nat, n: nat): (r: nat)
    ensures n == 0 ==> r == i
    ensures n > 0 ==> r < n
    ensures n > 0 && i + 1 < n ==> r == i + 1
    ensures n > 0 && i + 1 == n ==> r == 0
  {
    if n > 0 then (i + 1) % n else i
  }

  /** prevImage's update of the index over `n` images; with no images the index stays. */
  function PrevIndex(i: nat, n: nat): (r: nat)
    ensures n == 0 ==> r == i
    ensures n > 0 ==> r < n
    ensures n > 0 && 0 < i < n ==> r == i - 1
    ensures n > 0 && i == 0 ==> r == n - 1
  {
    if n > 0 then (i - 1 + n) % n else i
  }

  /** Going back after going forward, or forward after going back, returns to the same image. */
  lemma NextPrevInverse(i: nat, n: nat)
    requires i < n || n == 0
    ensures PrevIndex(NextIndex(i, n), n) == i
    ensures NextIndex(PrevIndex(i, n), n) == i
  {
  }

  /** `k <= n` presses of next from a valid index wrap around at most once. */
  lemma {:induction false} StepsForwardWrap(i: nat, n: nat, k: nat)
    requires 0 < n && i < n && k <= n
    ensures StepsForward(i, n, k) == if i + k < n then i + k else i + k - n
    decreases k
  {
    if k > 0 {
      StepsForwardWrap(i, n, k - 1);
    }
  }

  /** `n` presses of next over `n` images come back to the image shown first. */
  lemma FullTurn(i: nat, n: nat)
    requires 0 < n && i < n
    ensures StepsForward(i, n, n) == i
  {
    StepsForwardWrap(i, n, n);
  }

  /** The index after `k` presses of the next button. */
  function StepsForward(i: nat, n: nat, k: nat): nat
  {
    if k == 0 then i else NextIndex(StepsForward(i, n, k - 1), n)
  }

  /** The carousel of one card: its images and the `currentImage` state. */
  class Carousel {
    const images: seq<string>
    var current: nat

    /** The index always names an image when there is one. */
    predicate Valid()
      reads this
    {
      |images| > 0 ==> current < |images|
    }

    constructor (images: seq<string>)
      ensures this.images == images && current == 0 && Valid()
    {
      this.images := images;
      current := 0;
    }

    method NextImage()
      requires Valid()
      modifies this
      ensures current == NextIndex(old(current), |images|) && Valid()
    {
      if |images| > 0 {
        current := (current + 1) % |images|;
      }
    }

    method PrevImage()
      requires Valid()
      modifies this
      ensures current == PrevIndex(old(current), |images|) && Valid()
    {
      if |images| > 0 {
        current := (current - 1 + |images|) % |images|;
      }
    }

    /** A click on the `idx`-th dot; the dots are one per image. */
    method SelectImage(idx: nat)
      requires idx < |images|
      modifies this
      ensures current == idx && Valid()
    {
      current := idx;
    }
  }

  // ---------------------------------------------------------------------
  // Features and badges
  // ---------------------------------------------------------------------

  datatype Feature = Garden | Balcony | Terrace | Pool | AirConditioning | Heating | Furnished | Elevator | Parking

  /** The label of a feature on the card. */
  function FeatureName(f: Feature): string
  {
    match f
    case Garden => "Garden"
    case Balcony => "Balcony"
    case Terrace => "Terrace"
    case Pool => "Pool"
    case AirConditioning => "A/C"
    case Heating => "Heating"
    case Furnished => "Furnished"
    case Elevator => "Elevator"
    case Parking => "Parking"
  }

  /** The position of a feature in the card's fixed list. */
  function Rank(f: Feature): nat
  {
    match f
    case Garden => 0
    case Balcony => 1
    case Terrace => 2
    case Pool => 3
    case AirConditioning => 4
    case Heating => 5
    case Furnished => 6
    case Elevator => 7
    case Parking => 8
  }

  /** The amenity column a feature stands for. */
  function HasFeature(a: Amenities, f: Feature): bool
  {
    match f
    case Garden => a.garden
    case Balcony => a.balcony
    case Terrace => a.terrace
    case Pool => a.pool
    case AirConditioning => a.airConditioning
    case Heating => a.heating
    case Furnished => a.furnished
    case Elevator => a.elevator
    case Parking => a.parking
  }

  /** The list the card filters: every feature with its flag, in display order. */
  function FeatureTable(a: Amenities): seq<(Feature, bool)>
  {
    [(Garden, a.garden), (Balcony, a.balcony), (Terrace, a.terrace), (Pool, a.pool),
     (AirConditioning, a.airConditioning), (Heating, a.heating), (Furnished, a.furnished),
     (Elevator, a.elevator), (Parking, a.parking)]
  }

  /** `.filter((feature) => feature.value)` */
  function KeepTrue(t: seq<(Feature, bool)>): seq<Feature>
  {
    if t == [] then [] else (if t[0].1 then [t[0].0] else []) + KeepTrue(t[1..])
  }

  predicate RankIncreasing(s: seq<Feature>)
  {
    forall i, j :: 0 <= i < j < |s| ==> Rank(s[i]) < Rank(s[j])
  }

  /** propertyFeatures: the amenities that are present, in the fixed order Garden, ..., Parking. */
  function Features(a: Amenities): seq<Feature>
  {
    KeepTrue(FeatureTable(a))
  }

  /** The filter keeps a feature exactly when the table flags it. */
  lemma {:induction false} KeepTrueMembers(t: seq<(Feature, bool)>)
    ensures forall f :: f in KeepTrue(t) <==> (f, true) in t
  {
    if t != [] {
      KeepTrueMembers(t[1..]);
      assert t == [t[0]] + t[1..];
    }
  }

  /** The filter keeps the table's order. */
  lemma {:induction false} KeepTrueOrdered(t: seq<(Feature, bool)>)
    requires forall i, j :: 0 <= i < j < |t| ==> Rank(t[i].0) < Rank(t[j].0)
    ensures RankIncreasing(KeepTrue(t))
  {
    if t != [] {
      KeepTrueOrdered(t[1..]);
      KeepTrueMembers(t[1..]);
      var rest := KeepTrue(t[1..]);
      forall f | f in rest ensures Rank(t[0].0) < Rank(f) {
        var i :| 0 <= i < |t[1..]| && t[1..][i] == (f, true);
        assert t[1..][i] == t[i + 1];
      }
    }
  }

  /** A feature is listed exactly when its amenity is set, and the list follows the fixed order. */
  lemma FeaturesExact(a: Amenities)
    ensures forall f :: f in Features(a) <==> HasFeature(a, f)
    ensures RankIncreasing(Features(a))
  {
    var t := FeatureTable(a);
    forall i | 0 <= i < |t| ensures Rank(t[i].0) == i {
      TableRow(a, t[i].0);
    }
    KeepTrueMembers(t);
    KeepTrueOrdered(t);
    forall f ensures (f, true) in t <==> HasFeature(a, f) {
      TableRow(a, f);
    }
  }

  /** Each feature sits in the table at its rank, beside its flag. */
  lemma TableRow(a: Amenities, f: Feature)
    ensures FeatureTable(a)[Rank(f)] == (f, HasFeature(a, f))
    ensures forall i :: 0 <= i < |FeatureTable(a)| && FeatureTable(a)[i].0 == f ==> i == Rank(f)
  {
  }

  /** Ordered by rank, the feature list names no feature twice. */
  lemma FeaturesDistinct(a: Amenities)
    ensures forall i, j :: 0 <= i < j < |Features(a)| ==> Features(a)[i] != Features(a)[j]
  {
    FeaturesExact(a);
  }

  /** The badge row: the features shown as badges and the `+k more` badge, if any. */
  datatype BadgeRow = BadgeRow(shown: seq<Feature>, more: Option<nat>)

  /**
   * The badge row as rendered: the first two features, and a `+k more`
   * badge with k = count - 4 when there are more than four features.
   */
  function Badges(features: seq<Feature>): (r: BadgeRow)
    ensures |r.shown| == if |features| < 2 then |features| else 2
    ensures r.shown == features[..|r.shown|]
    ensures r.more.Some? <==> |features| > 4
    ensures r.more.Some? ==> r.more.value == |features| - 4
  {
    BadgeRow(features[..if |features| < 2 then |features| else 2],
             if |features| > 4 then Some(|features| - 4) else None)
  }

  /** With three or four features, some are hidden and no `+k more` badge says so. */
  lemma BadgesHideWithoutNotice()
    ensures var r := Badges([Garden, Balcony, Terrace, Pool]);
      |r.shown| == 2 && r.more.None?
    ensures var r := Badges([Garden, Balcony, Terrace, Pool, AirConditioning]);
      |r.shown| == 2 && r.more == Some(1)
  {
  }

  /**
   * The badge row that accounts for every feature: the first two shown, and
   * `+k more` for the rest.
   */
  function BadgesCounted(features: seq<Feature>): (r: BadgeRow)
    ensures |r.shown| == if |features| < 2 then |features| else 2
    ensures r.shown == features[..|r.shown|]
    ensures r.more.Some? <==> |features| > 2
    ensures |r.shown| + (if r.more.Some? then r.more.value else 0) == |features|
  {
    BadgeRow(features[..if |features| < 2 then |features| else 2],
             if |features| > 2 then Some(|features| - 2) else None)
  }

  // ---------------------------------------------------------------------
  // Labels
  // ---------------------------------------------------------------------

  /** toLowerCase on ASCII letters; other characters are kept. */
  function LowerChar(c: char): (r: char)
    ensures 'A' <= c <= 'Z' ==> 'a' <= r <= 'z' && r as int - 'a' as int == c as int - 'A' as int
    ensures !('A' <= c <= 'Z') ==> r == c
  {
    if 'A' <= c <= 'Z' then (c as int - 'A' as int + 'a' as int) as char else c
  }

  function Lower(s: string): (r: string)
    ensures |r| == |s| && forall i :: 0 <= i < |s| ==> r[i] == LowerChar(s[i])
  {
    if s == [] then [] else [LowerChar(s[0])] + Lower(s[1..])
  }

  /** `s.charAt(0) + s.slice(1).toLowerCase()` */
  function EnumLabel(s: string): (r: string)
    ensures |r| == |s|
    ensures |s| > 0 ==> r[0] == s[0]
    ensures forall i :: 1 <= i < |s| ==> r[i] == LowerChar(s[i])
  {
    if s == "" then "" else [s[0]] + Lower(s[1..])
  }

  /** The `For Sale` and `For Rent` badge text. */
  function ListingBadge(listingFor: string): string
  {
    "For " + EnumLabel(listingFor)
  }

  /** The labels of the listing kinds the card shows. */
  lemma ListingLabels()
    ensures ListingBadge("SALE") == "For Sale"
    ensures ListingBadge("RENT") == "For Rent"
  {
    assert Lower("ALE") == "ale";
    assert Lower("ENT") == "ent";
  }

  /** Relabelling a label changes nothing. */
  lemma EnumLabelIdempotent(s: string)
    ensures EnumLabel(EnumLabel(s)) == EnumLabel(s)
  {
    var r := EnumLabel(s);
    var r2 := EnumLabel(r);
    assert |r2| == |r|;
    forall i | 0 <= i < |r| ensures r2[i] == r[i] {
      if i > 0 {
        assert r2[i] == LowerChar(r[i]) && r[i] == LowerChar(s[i]);
      }
    }
  }

  /**
   * The word after the room or bathroom count: "Room"/"Rooms" and
   * "Bath"/"Baths", singular exactly for a count of one.
   */
  function CountWord(n: int, singular: string, plural: string): (w: string)
    requires singular != plural
    ensures w == singular <==> n == 1
    ensures w == plural <==> n != 1
  {
    if n == 1 then singular else plural
  }
}
