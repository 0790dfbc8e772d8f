/** The transcoder's quality ladder: the fixed six-rung catalogue and the
    selection of the rungs an input of a given size is encoded to. */
module QualityLadder {

  /** One rung of the ladder; bitrates are in kbit/s. */
  datatype QualityLevel = QualityLevel(name: string, width: int, height: int, bitrate: int, audioBitrate: int)

  const Level4k := QualityLevel("4k", 3840, 2160, 15000, 192)
  const Level1080p := QualityLevel("1080p", 1920, 1080, 5000, 192)
  const Level720p := QualityLevel("720p", 1280, 720, 2800, 128)
  const Level480p := QualityLevel("480p", 854, 480, 1400, 128)
  const Level360p := QualityLevel("360p", 640, 360, 800, 96)
  const Level240p := QualityLevel("240p", 426, 240, 400, 64)

  /** Every rung, largest first. */
  const Catalog: seq<QualityLevel> := [Level4k, Level1080p, Level720p, Level480p, Level360p, Level240p]

  /** A rung fits an input when it is no wider and no taller than the input. */
  predicate Fits(l: QualityLevel, w: int, h: int) { l.width <= w && l.height <= h }

  /** The rungs of `levels` that fit, in their order. */
  function FilterFits(levels: seq<QualityLevel>, w: int, h: int): seq<QualityLevel>
  {
    if |levels| == 0 then []
    else FilterFits(levels[..|levels| - 1], w, h) + (if Fits(levels[|levels| - 1], w, h) then [levels[|levels| - 1]] else [])
  }

  /** The floor applied when fewer than two rungs fit: 240p if the input is below 240p,
      then 360p if it is below 360p. */
  function Floor(levels: seq<QualityLevel>, w: int, h: int): seq<QualityLevel>
  {
    if |levels| < 2 then
      levels
      + (if w < 426 || h < 240 then [Level240p] else [])
      + (if w < 640 || h < 360 then [Level360p] else [])
    else levels
  }

  /** The ladder an input of `w` x `h` is encoded to. */
  function Ladder(w: int, h: int): seq<QualityLevel>
  {
    Floor(FilterFits(Catalog, w, h), w, h)
  }

  /** The selection loop: filter the catalogue, then apply the floor. */
  method GetQualityLevels(w: int, h: int) returns (levels: seq<QualityLevel>)
    ensures levels == Ladder(w, h)
    ensures |levels| >= 2
  {
    var all := Catalog;
    levels := [];
    var i := 0;
    while i < |all|
      invariant 0 <= i <= |all|
      invariant levels == FilterFits(all[..i], w, h)
    {
      assert all[..i + 1][..i] == all[..i];
      if all[i].width <= w && all[i].height <= h {
        levels := levels + [all[i]];
      }
      i := i + 1;
    }
    assert all[..i] == Catalog;
    if |levels| < 2 {
      if w < 426 || h < 240 {
        levels := levels + [all[5]];
      }
      if w < 640 || h < 360 {
        levels := levels + [all[4]];
      }
    }
    LadderAtLeastTwo(w, h);
  }

  /** A rung is kept by the filter exactly when it is in the input and fits. */
  lemma {:induction false} FilterFitsMembers(levels: seq<QualityLevel>, w: int, h: int, l: QualityLevel)
    ensures l in FilterFits(levels, w, h) <==> l in levels && Fits(l, w, h)
    decreases |levels|
  {
    if |levels| > 0 {
      var init := levels[..|levels| - 1];
      FilterFitsMembers(init, w, h, l);
      assert levels == init + [levels[|levels| - 1]];
    }
  }

  /** Before the floor, the ladder is the suffix of the catalogue from the first rung
      that fits: the catalogue is a chain, so what fits is the smallest rungs. */
  lemma FilteredIsCatalogSuffix(w: int, h: int)
    ensures FilterFits(Catalog, w, h) == Catalog[FirstFit(w, h)..]
  {
    FilterThreshold(Catalog, w, h, FirstFit(w, h));
  }

  /** When the rungs that fit are exactly those from index `k` on, the filter keeps that suffix. */
  lemma {:induction false} FilterThreshold(levels: seq<QualityLevel>, w: int, h: int, k: nat)
    requires k <= |levels|
    requires forall i :: 0 <= i < k ==> !Fits(levels[i], w, h)
    requires forall i :: k <= i < |levels| ==> Fits(levels[i], w, h)
    ensures FilterFits(levels, w, h) == levels[k..]
    decreases |levels|
  {
    if |levels| > 0 {
      var init := levels[..|levels| - 1];
      var k' := if k < |levels| then k else |init|;
      FilterThreshold(init, w, h, k');
      if k < |levels| {
        assert levels[k..] == init[k..] + [levels[|levels| - 1]];
      }
    }
  }

  /** The index of the largest catalogue rung that fits (6 if none does). */
  function FirstFit(w: int, h: int): (k: nat)
    ensures k <= |Catalog|
    ensures forall i :: 0 <= i < k ==> !Fits(Catalog[i], w, h)
    ensures forall i :: k <= i < |Catalog| ==> Fits(Catalog[i], w, h)
  {
    if Fits(Level4k, w, h) then 0
    else if Fits(Level1080p, w, h) then 1
    else if Fits(Level720p, w, h) then 2
    else if Fits(Level480p, w, h) then 3
    else if Fits(Level360p, w, h) then 4
    else if Fits(Level240p, w, h) then 5
    else 6
  }

  /** Every input gets at least two rungs. */
  lemma LadderAtLeastTwo(w: int, h: int)
    ensures |Ladder(w, h)| >= 2
  {
    FilteredIsCatalogSuffix(w, h);
  }

  /** The floor fires exactly when 360p does not fit, and then the ladder is
      exactly [240p, 360p], smallest first. */
  lemma FloorExactly(w: int, h: int)
    ensures |FilterFits(Catalog, w, h)| < 2 <==> !Fits(Level360p, w, h)
    ensures |FilterFits(Catalog, w, h)| < 2 ==> Ladder(w, h) == [Level240p, Level360p]
    ensures |FilterFits(Catalog, w, h)| >= 2 ==> Ladder(w, h) == FilterFits(Catalog, w, h)
  {
    FilteredIsCatalogSuffix(w, h);
  }

  /** Without the floor, a rung is on the ladder exactly when it is in the catalogue and fits. */
  lemma LadderMembersWithoutFloor(w: int, h: int, l: QualityLevel)
    requires Fits(Level360p, w, h)
    ensures l in Ladder(w, h) <==> l in Catalog && Fits(l, w, h)
  {
    FloorExactly(w, h);
    FilterFitsMembers(Catalog, w, h, l);
  }

  /** The ladder never repeats a rung name and has at most six rungs, ordered by
      strictly decreasing width whenever the floor did not fire. */
  lemma LadderDistinct(w: int, h: int)
    ensures |Ladder(w, h)| <= 6
    ensures forall i, j :: 0 <= i < j < |Ladder(w, h)| ==> Ladder(w, h)[i].name != Ladder(w, h)[j].name
    ensures Fits(Level360p, w, h) ==>
      forall i, j :: 0 <= i < j < |Ladder(w, h)| ==> Ladder(w, h)[i].width > Ladder(w, h)[j].width
  {
    FloorExactly(w, h);
    if Fits(Level360p, w, h) {
      FilteredIsCatalogSuffix(w, h);
      CatalogSuffixDistinct(FirstFit(w, h));
    }
  }

  /** Every suffix of the catalogue has distinct names and strictly decreasing widths. */
  lemma CatalogSuffixDistinct(k: nat)
    requires k <= |Catalog|
    ensures forall i, j :: 0 <= i < j < |Catalog[k..]| ==> Catalog[k..][i].name != Catalog[k..][j].name
    ensures forall i, j :: 0 <= i < j < |Catalog[k..]| ==> Catalog[k..][i].width > Catalog[k..][j].width
  {
    forall i, j | 0 <= i < j < |Catalog[k..]|
      ensures Catalog[k..][i].name != Catalog[k..][j].name && Catalog[k..][i].width > Catalog[k..][j].width
    {
      assert Catalog[k..][i] == Catalog[k + i] && Catalog[k..][j] == Catalog[k + j];
      CatalogPairDistinct(k + i, k + j);
    }
  }

  /** Two rungs of the catalogue: the earlier is wider and has another name. */
  lemma CatalogPairDistinct(i: nat, j: nat)
    requires i < j < |Catalog|
    ensures Catalog[i].name != Catalog[j].name && Catalog[i].width > Catalog[j].width
  {
    if i == 0 {
    } else if i == 1 {
    } else if i == 2 {
    } else if i == 3 {
    } else {
    }
  }

  /** A larger input keeps every rung a smaller one gets before the floor. */
  lemma FilterMonotone(w1: int, h1: int, w2: int, h2: int, l: QualityLevel)
    requires w1 <= w2 && h1 <= h2
    requires l in FilterFits(Catalog, w1, h1)
    ensures l in FilterFits(Catalog, w2, h2)
  {
    FilterFitsMembers(Catalog, w1, h1, l);
    FilterFitsMembers(Catalog, w2, h2, l);
  }

  /** Each rung kept by the filter is no wider than the input, so a portrait
      input's ladder is capped by its width. */
  lemma FilteredFitInput(w: int, h: int)
    ensures forall l :: l in FilterFits(Catalog, w, h) ==> l.width <= w && l.height <= h
  {
    forall l | l in FilterFits(Catalog, w, h)
      ensures l.width <= w && l.height <= h
    {
      FilterFitsMembers(Catalog, w, h, l);
    }
  }

  /** A 1080x1920 portrait input gets 480p, 360p and 240p only. */
  lemma PortraitExample()
    ensures Ladder(1080, 1920) == [Level480p, Level360p, Level240p]
  {
    FilteredIsCatalogSuffix(1080, 1920);
  }
}
