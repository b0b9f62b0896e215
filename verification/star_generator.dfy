/**
 * The data generator: galaxies named G_1 ... G_n, and for each galaxy a drawn
 * number of stars named S_1 ... S_k carrying that galaxy's id and name and a
 * drawn-length property list (P1, V1) ... (Pm, Vm). Random draws come from a
 * `Random` object over a stream of raw samples; Guids are parameters.
 */
module StarGen {
  import opened Wrappers
  import opened Text
  import opened Models
  import Processing

  /** `Random.Next(minValue, maxValue)` on a raw sample: a value in [minValue, maxValue). */
  function Scale(raw: nat, minValue: int, maxValue: int): (r: int)
    requires minValue <= maxValue
    ensures minValue <= r
    ensures minValue < maxValue ==> r < maxValue
    ensures minValue == maxValue ==> r == minValue
  {
    if minValue == maxValue then minValue else minValue + raw % (maxValue - minValue)
  }

  /** `System.Random`: successive raw samples, one consumed per call. */
  class Random {
    const sample: nat -> nat
    var calls: nat

    constructor (sample: nat -> nat)
      ensures this.sample == sample && calls == 0
    {
      this.sample := sample;
      calls := 0;
    }

    method Next(minValue: int, maxValue: int) returns (r: int)
      requires minValue <= maxValue
      modifies this
      ensures calls == old(calls) + 1
      ensures r == Scale(sample(old(calls)), minValue, maxValue)
    {
      r := Scale(sample(calls), minValue, maxValue);
      calls := calls + 1;
    }
  }

  /** `Program.Galaxy`. */
  datatype Galaxy = Galaxy(id: string, name: string)

  /** `$"G_{i + 1}"`. */
  function GalaxyName(i: nat): (r: string)
    ensures IsNumbered(r, "G_", i + 1)
  {
    NumberedRendering("G_", i + 1);
    "G_" + NatToString(i + 1)
  }

  /** `$"S_{i + 1}"`. */
  function StarName(i: nat): (r: string)
    ensures IsNumbered(r, "S_", i + 1)
  {
    NumberedRendering("S_", i + 1);
    "S_" + NatToString(i + 1)
  }

  /** `new KeyValuePair<string, string>($"P{i + 1}", $"V{i + 1}")`. */
  function Property(i: nat): (r: Property)
    ensures IsNumbered(r.0, "P", i + 1) && IsNumbered(r.1, "V", i + 1)
  {
    NumberedRendering("P", i + 1);
    NumberedRendering("V", i + 1);
    ("P" + NatToString(i + 1), "V" + NatToString(i + 1))
  }

  function Clamp(n: int): nat { if n < 0 then 0 else n }

  /** `GenerateRandomGalaxies(number)`; `ids(i)` is the Guid drawn for the i-th galaxy. */
  function GenerateRandomGalaxies(number: int, ids: nat -> string): (r: seq<Galaxy>)
    ensures |r| == Clamp(number)
  {
    seq(Clamp(number), i requires 0 <= i => Galaxy(ids(i), GalaxyName(i)))
  }

  /** `GenerateRandomProperties` once its length `number` has been drawn. */
  function GenerateRandomProperties(number: int): (r: seq<Property>)
    ensures |r| == Clamp(number)
  {
    seq(Clamp(number), i requires 0 <= i => Property(i))
  }

  /**
   * Galaxies come out in order: the i-th (from 0) carries the i-th Guid and is
   * named "G_" followed by i + 1 in decimal without leading zeros; all names
   * are distinct.
   */
  lemma GalaxiesInOrder(number: int, ids: nat -> string)
    ensures var r := GenerateRandomGalaxies(number, ids);
      && (forall i :: 0 <= i < |r| ==> r[i].id == ids(i) && IsNumbered(r[i].name, "G_", i + 1))
      && (forall i, j :: 0 <= i < j < |r| ==> r[i].name != r[j].name)
  {
    var r := GenerateRandomGalaxies(number, ids);
    forall i | 0 <= i < |r| ensures r[i].id == ids(i) && IsNumbered(r[i].name, "G_", i + 1) {
      assert r[i] == Galaxy(ids(i), GalaxyName(i));
    }
    forall i, j | 0 <= i < j < |r| ensures r[i].name != r[j].name {
      PrefixedNumberInjective("G_", i + 1, j + 1);
    }
  }

  /**
   * A drawn property list: (P1, V1) ... (Pm, Vm), with m between 5 and 20, the
   * numbers in decimal without leading zeros, and distinct keys.
   */
  lemma PropertiesShape(number: int)
    requires 5 <= number < 21
    ensures var r := GenerateRandomProperties(number);
      && 5 <= |r| <= 20
      && (forall i :: 0 <= i < |r| ==> IsNumbered(r[i].0, "P", i + 1) && IsNumbered(r[i].1, "V", i + 1))
      && (forall i, j :: 0 <= i < j < |r| ==> r[i].0 != r[j].0)
  {
    var r := GenerateRandomProperties(number);
    forall i | 0 <= i < |r| ensures IsNumbered(r[i].0, "P", i + 1) && IsNumbered(r[i].1, "V", i + 1) {
      assert r[i] == Property(i);
    }
    forall i, j | 0 <= i < j < |r| ensures r[i].0 != r[j].0 {
      PrefixedNumberInjective("P", i + 1, j + 1);
    }
  }

  /** Star names are distinct within a galaxy. */
  lemma StarNameInjective(i: nat, j: nat)
    requires i != j
    ensures StarName(i) != StarName(j)
  {
    PrefixedNumberInjective("S_", i + 1, j + 1);
  }

  /**
   * Two generated stars of one galaxy never share a composite key in the
   * store, so the generator's data never trips over insert-if-absent.
   */
  lemma GeneratedKeysDistinct(galaxyName: string, i: nat, j: nat)
    requires i != j
    ensures Processing.CompositeKey(galaxyName, StarName(i)) != Processing.CompositeKey(galaxyName, StarName(j))
  {
    StarNameInjective(i, j);
    UpperFixed(StarName(i));
    UpperFixed(StarName(j));
    var a, b := Processing.CompositeKey(galaxyName, StarName(i)), Processing.CompositeKey(galaxyName, StarName(j));
    assert a[|Upper(galaxyName)|..] == StarName(i);
    assert b[|Upper(galaxyName)|..] == StarName(j);
  }

  /** The i-th star (from 0) of galaxy `g`, whatever its Guid. */
  ghost predicate IsStarOf(s: StarEntity, g: Galaxy, i: nat)
  {
    && s.galaxyId == g.id
    && s.galaxyName == g.name
    && s.starName == StarName(i)
    && 5 <= |s.data| <= 20
    && s.data == GenerateRandomProperties(|s.data|)
  }

  /** The stars of the galaxies in turn. */
  function Flatten(blocks: seq<seq<StarEntity>>): seq<StarEntity>
  {
    if blocks == [] then [] else Flatten(blocks[..|blocks| - 1]) + blocks[|blocks| - 1]
  }

  function SumOfCounts(counts: seq<int>): nat
  {
    if counts == [] then 0 else SumOfCounts(counts[..|counts| - 1]) + Clamp(counts[|counts| - 1])
  }

  /** The number of stars generated is the sum of the per-galaxy counts. */
  lemma {:induction false} FlattenLength(blocks: seq<seq<StarEntity>>, counts: seq<int>)
    requires |blocks| == |counts|
    requires forall j :: 0 <= j < |blocks| ==> |blocks[j]| == Clamp(counts[j])
    ensures |Flatten(blocks)| == SumOfCounts(counts)
  {
    if blocks != [] {
      FlattenLength(blocks[..|blocks| - 1], counts[..|counts| - 1]);
    }
  }

  /**
   * The stars of one galaxy: as many as the drawn count (none if it is
   * negative), the k-th named S_{k+1}, and the t-th generated overall
   * carrying Guid `starIds(t)`.
   */
  ghost predicate IsGalaxyBlock(block: seq<StarEntity>, galaxy: Galaxy, draw: int, first: nat, starIds: nat -> string)
  {
    && |block| == Clamp(draw)
    && forall k :: 0 <= k < |block| ==> IsStarOf(block[k], galaxy, k) && block[k].id == starIds(first + k)
  }

  /** Draw `k` for the number of stars in one galaxy, as `Next(min, max)` returns it. */
  predicate InDrawRange(k: int, minValue: int, maxValue: int)
  {
    minValue <= k && (k < maxValue || k == minValue == maxValue)
  }

  class StarGenerator {
    const minStarsPerGalaxy: int
    const maxStarsPerGalaxy: int
    const random: Random

    constructor (minStarsPerGalaxy: int, maxStarsPerGalaxy: int, random: Random)
      ensures this.minStarsPerGalaxy == minStarsPerGalaxy
      ensures this.maxStarsPerGalaxy == maxStarsPerGalaxy
      ensures this.random == random
    {
      this.minStarsPerGalaxy := minStarsPerGalaxy;
      this.maxStarsPerGalaxy := maxStarsPerGalaxy;
      this.random := random;
    }

    /**
     * The stars of one galaxy: draws their number with `Next(min, max)`, then
     * for each star draws the length of its property list with `Next(5, 21)`.
     * `first` is the number of stars generated before this galaxy.
     */
    method GenerateGalaxyStars(galaxy: Galaxy, first: nat, starIds: nat -> string)
      returns (block: seq<StarEntity>, ghost draw: int)
      requires minStarsPerGalaxy <= maxStarsPerGalaxy
      modifies random
      ensures InDrawRange(draw, minStarsPerGalaxy, maxStarsPerGalaxy)
      ensures IsGalaxyBlock(block, galaxy, draw, first, starIds)
      ensures random.calls == old(random.calls) + 1 + |block|
    {
      var numberOfStars := random.Next(minStarsPerGalaxy, maxStarsPerGalaxy);
      draw := numberOfStars;
      block := [];
      var i := 0;
      while i < numberOfStars
        invariant 0 <= i <= Clamp(numberOfStars)
        invariant |block| == i
        invariant forall k :: 0 <= k < i ==> IsStarOf(block[k], galaxy, k) && block[k].id == starIds(first + k)
        invariant random.calls == old(random.calls) + 1 + i
      {
        var number := random.Next(5, 21);
        var star := StarEntity(starIds(first + i), galaxy.id, galaxy.name, StarName(i), GenerateRandomProperties(number));
        assert IsStarOf(star, galaxy, i);
        block := block + [star];
        i := i + 1;
      }
    }

    /**
     * `GenerateRandomStars(numberOfGalaxies)`, run to the end as `ToList()`
     * does. `galaxyIds(j)` is the Guid of the j-th galaxy and `starIds(t)` that
     * of the t-th star. `blocks[j]` are the stars of galaxy j and `draws[j]`
     * the count drawn for it.
     */
    method GenerateRandomStars(numberOfGalaxies: int, galaxyIds: nat -> string, starIds: nat -> string)
      returns (r: Result<seq<StarEntity>, Exception>, ghost blocks: seq<seq<StarEntity>>, ghost draws: seq<int>)
      modifies random
      ensures r.Err? <==> numberOfGalaxies > 0 && minStarsPerGalaxy > maxStarsPerGalaxy
      ensures r.Err? ==> r.error == ArgumentOutOfRange
      ensures r.Ok? ==>
        var galaxies := GenerateRandomGalaxies(numberOfGalaxies, galaxyIds);
        && |blocks| == |draws| == |galaxies|
        && r.value == Flatten(blocks)
        && |r.value| == SumOfCounts(draws)
        && (forall j :: 0 <= j < |draws| ==> InDrawRange(draws[j], minStarsPerGalaxy, maxStarsPerGalaxy))
        && (forall j :: 0 <= j < |blocks| ==>
              IsGalaxyBlock(blocks[j], galaxies[j], draws[j], |Flatten(blocks[..j])|, starIds))
        && random.calls == old(random.calls) + |galaxies| + |r.value|
    {
      var galaxies := GenerateRandomGalaxies(numberOfGalaxies, galaxyIds);
      blocks, draws := [], [];
      if |galaxies| > 0 && minStarsPerGalaxy > maxStarsPerGalaxy {
        return Err(ArgumentOutOfRange), blocks, draws;
      }
      var stars: seq<StarEntity> := [];
      var j := 0;
      while j < |galaxies|
        invariant 0 <= j <= |galaxies|
        invariant |blocks| == |draws| == j
        invariant stars == Flatten(blocks)
        invariant forall b :: 0 <= b < j ==> InDrawRange(draws[b], minStarsPerGalaxy, maxStarsPerGalaxy)
        invariant forall b :: 0 <= b < j ==>
          IsGalaxyBlock(blocks[b], galaxies[b], draws[b], |Flatten(blocks[..b])|, starIds)
        invariant random.calls == old(random.calls) + j + |stars|
      {
        var block;
        ghost var draw;
        block, draw := GenerateGalaxyStars(galaxies[j], |stars|, starIds);
        assert (blocks + [block])[..j] == blocks;
        assert Flatten(blocks + [block]) == stars + block;
        forall b | 0 <= b < j + 1
          ensures IsGalaxyBlock((blocks + [block])[b], galaxies[b], (draws + [draw])[b],
                                |Flatten((blocks + [block])[..b])|, starIds)
        {
          if b < j {
            assert (blocks + [block])[..b] == blocks[..b];
          }
        }
        blocks := blocks + [block];
        draws := draws + [draw];
        stars := stars + block;
        j := j + 1;
      }
      assert blocks[..|blocks|] == blocks;
      forall b | 0 <= b < |blocks| ensures |blocks[b]| == Clamp(draws[b]) {
      }
      FlattenLength(blocks, draws);
      r := Ok(stars);
    }
  }
}
