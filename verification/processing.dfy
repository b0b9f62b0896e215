/**
 * One replica of the stateful processing service: a per-partition store of
 * stars kept in a reliable dictionary named "stars", keyed by the upper-cased
 * galaxy name followed directly by the upper-cased star name. Each
 * transaction is one atomic step of the model.
 */
module Processing {
  import opened Wrappers
  import opened Text
  import opened Models

  type Store = map<string, StarEntity>

  /**
   * The dictionary key of a star: no separator between the two names, so the
   * key is the upper-cased concatenation, and it starts with the upper-cased
   * galaxy name (what the galaxy scan matches on).
   */
  function CompositeKey(galaxyName: string, starName: string): (k: string)
    ensures k == Upper(galaxyName + starName)
    ensures Upper(galaxyName) <= k
  {
    UpperConcat(galaxyName, starName);
    Upper(galaxyName) + Upper(starName)
  }

  const AddedText := "sucessfully added"
  const ExistsText := "already exists"

  /** Whether a reply of `AddStarAsync` reports a fresh insert. */
  predicate ReportsAdded(msg: string)
  {
    |AddedText| <= |msg| && msg[|msg| - |AddedText|..] == AddedText
  }

  /**
   * The text `AddStarAsync` returns: it names the star, and it reports a fresh
   * insert exactly when there was one, whatever the star's name.
   */
  function AddMessage(starName: string, added: bool): (msg: string)
    ensures "Star " + starName + " " <= msg
    ensures ReportsAdded(msg) == added
  {
    var msg := "Star " + starName + " " + (if added then AddedText else ExistsText);
    assert added ==> msg[|msg| - |AddedText|..] == AddedText;
    assert !added ==> msg[|msg| - 1] == 's' != AddedText[|AddedText| - 1];
    msg
  }

  /** The entries of a store; a store whose map was never created has none. */
  function Entries(d: Option<Store>): Store
  {
    if d.Some? then d.value else map[]
  }

  /** The dictionary after an insert-if-absent of `star`. */
  function AfterAdd(d: Option<Store>, star: StarEntity): (m: Store)
    ensures var key := CompositeKey(star.galaxyName, star.starName);
      && m.Keys == Entries(d).Keys + {key}
      && m[key] == (if key in Entries(d) then Entries(d)[key] else star)
    ensures forall k :: k in Entries(d) ==> m[k] == Entries(d)[k]
  {
    var key := CompositeKey(star.galaxyName, star.starName);
    if key in Entries(d) then Entries(d) else Entries(d)[key := star]
  }

  /** The stars `GetStarAsync` returns: the value under the composite key, if any. */
  function Lookup(d: Option<Store>, galaxyName: string, starName: string): (r: seq<StarEntity>)
    ensures |r| <= 1
    ensures var key := CompositeKey(galaxyName, starName);
      && (r != [] <==> key in Entries(d))
      && (r != [] ==> r[0] == Entries(d)[key])
  {
    var key := CompositeKey(galaxyName, starName);
    if key in Entries(d) then [Entries(d)[key]] else []
  }

  /** `order` lists every key of `keys` exactly once: an unordered enumeration. */
  ghost predicate IsEnumeration(order: seq<string>, keys: set<string>)
  {
    && (forall i, j :: 0 <= i < j < |order| ==> order[i] != order[j])
    && (forall k :: k in keys <==> k in order)
  }

  /** The values met, in enumeration order, whose key starts with `prefix`. */
  function Scan(m: Store, order: seq<string>, prefix: string): (r: seq<StarEntity>)
    requires forall i :: 0 <= i < |order| ==> order[i] in m
    ensures |r| <= |order|
    ensures forall x :: x in r ==> x in m.Values
  {
    if order == [] then []
    else
      var k := order[|order| - 1];
      Scan(m, order[..|order| - 1], prefix) + (if prefix <= k then [m[k]] else [])
  }

  /** The keys of `m` that start with `prefix`. */
  function MatchingKeys(m: Store, prefix: string): set<string>
  {
    set k | k in m && prefix <= k
  }

  /** Every entry whose key starts with the prefix is returned by the scan. */
  lemma {:induction false} ScanComplete(m: Store, order: seq<string>, prefix: string, k: string)
    requires forall i :: 0 <= i < |order| ==> order[i] in m
    requires k in order && prefix <= k
    ensures m[k] in Scan(m, order, prefix)
  {
    var n := |order| - 1;
    if order[n] != k {
      assert k in order[..n];
      ScanComplete(m, order[..n], prefix, k);
    }
  }

  /** Every star the scan returns is stored under a key that starts with the prefix. */
  lemma {:induction false} ScanSound(m: Store, order: seq<string>, prefix: string, x: StarEntity)
    requires forall i :: 0 <= i < |order| ==> order[i] in m
    requires x in Scan(m, order, prefix)
    ensures exists k :: k in order && prefix <= k && m[k] == x
  {
    var n := |order| - 1;
    var k := order[n];
    if prefix <= k && x == m[k] {
      assert k in order;
    } else {
      ScanSound(m, order[..n], prefix, x);
      var k' :| k' in order[..n] && prefix <= k' && m[k'] == x;
      assert k' in order;
    }
  }

  /** The keys of `order` with the prefix, as the enumeration grows by one key. */
  lemma MatchingSnoc(init: seq<string>, last: string, prefix: string)
    ensures (set k | k in init + [last] && prefix <= k)
         == (set k | k in init && prefix <= k) + (if prefix <= last then {last} else {})
  {
  }

  lemma {:induction false} ScanCount(m: Store, order: seq<string>, prefix: string)
    requires forall i :: 0 <= i < |order| ==> order[i] in m
    requires forall i, j :: 0 <= i < j < |order| ==> order[i] != order[j]
    ensures |Scan(m, order, prefix)| == |set k | k in order && prefix <= k|
  {
    if order == [] {
      assert (set k | k in order && prefix <= k) == {};
    } else {
      var n := |order| - 1;
      var init, last := order[..n], order[n];
      assert order == init + [last];
      ScanCount(m, init, prefix);
      MatchingSnoc(init, last, prefix);
      assert last !in init;
    }
  }

  /**
   * Over a full enumeration of the store, the scan returns one star per key
   * that starts with the prefix, and no others.
   */
  lemma ScanExact(m: Store, order: seq<string>, prefix: string)
    requires IsEnumeration(order, m.Keys)
    ensures |Scan(m, order, prefix)| == |MatchingKeys(m, prefix)|
    ensures forall k :: k in MatchingKeys(m, prefix) ==> m[k] in Scan(m, order, prefix)
    ensures forall x :: x in Scan(m, order, prefix) ==> exists k :: k in MatchingKeys(m, prefix) && m[k] == x
  {
    ScanCount(m, order, prefix);
    assert (set k | k in order && prefix <= k) == MatchingKeys(m, prefix);
    forall k | k in MatchingKeys(m, prefix) ensures m[k] in Scan(m, order, prefix) {
      ScanComplete(m, order, prefix, k);
    }
    forall x | x in Scan(m, order, prefix)
      ensures exists k :: k in MatchingKeys(m, prefix) && m[k] == x
    {
      ScanSound(m, order, prefix, x);
    }
  }

  /**
   * The store's invariant: each star sits under its own composite key, the
   * only key `TryAddAsync` ever stores it under. So an upper-cased
   * (galaxy, star) pair occurs at most once in a partition.
   */
  ghost predicate KeyedByName(m: Store)
  {
    forall k :: k in m ==> CompositeKey(m[k].galaxyName, m[k].starName) == k
  }

  /** No star occurs twice. */
  predicate NoDuplicates(s: seq<StarEntity>)
  {
    forall i, j :: 0 <= i < j < |s| ==> s[i] != s[j]
  }

  /** Insert-if-absent keeps every star under its own composite key. */
  lemma AddKeepsKeyedByName(d: Option<Store>, star: StarEntity)
    requires KeyedByName(Entries(d))
    ensures KeyedByName(AfterAdd(d, star))
  {
  }

  /** Under the invariant, two keys holding the same upper-cased pair are one key. */
  lemma KeyedPairUnique(m: Store, k1: string, k2: string)
    requires KeyedByName(m) && k1 in m && k2 in m
    requires Upper(m[k1].galaxyName) == Upper(m[k2].galaxyName)
    requires Upper(m[k1].starName) == Upper(m[k2].starName)
    ensures k1 == k2
  {
  }

  lemma NoDuplicatesSnoc(s: seq<StarEntity>, x: StarEntity)
    requires NoDuplicates(s) && x !in s
    ensures NoDuplicates(s + [x])
  {
  }

  /** Under the invariant, every scanned star's composite key is one of the enumerated keys. */
  lemma ScanKeysInOrder(m: Store, order: seq<string>, prefix: string)
    requires KeyedByName(m)
    requires forall i :: 0 <= i < |order| ==> order[i] in m
    ensures forall x :: x in Scan(m, order, prefix) ==> CompositeKey(x.galaxyName, x.starName) in order
  {
    forall x | x in Scan(m, order, prefix) ensures CompositeKey(x.galaxyName, x.starName) in order {
      ScanSound(m, order, prefix, x);
    }
  }

  /** Under the invariant, the scan of a duplicate-free enumeration returns each star once. */
  lemma {:induction false} ScanNoDuplicates(m: Store, order: seq<string>, prefix: string)
    requires KeyedByName(m)
    requires forall i :: 0 <= i < |order| ==> order[i] in m
    requires forall i, j :: 0 <= i < j < |order| ==> order[i] != order[j]
    ensures NoDuplicates(Scan(m, order, prefix))
  {
    if order != [] {
      var n := |order| - 1;
      var init, last := order[..n], order[n];
      assert forall i :: 0 <= i < n ==> init[i] == order[i];
      ScanNoDuplicates(m, init, prefix);
      var before := Scan(m, init, prefix);
      if prefix <= last {
        ScanKeysInOrder(m, init, prefix);
        assert last !in init;
        NoDuplicatesSnoc(before, m[last]);
      }
    }
  }

  /** One replica of the processing service. */
  class Processing {
    /** The id of the partition this replica serves. */
    const partitionId: string
    /** The reliable dictionary "stars"; `None` until the first write creates it. */
    var stars: Option<Store>

    /** Once the dictionary exists, every star in it sits under its own composite key. */
    ghost predicate Valid()
      reads this
    {
      stars.Some? ==> KeyedByName(stars.value)
    }

    constructor (partitionId: string)
      ensures this.partitionId == partitionId && stars == None
      ensures Valid()
    {
      this.partitionId := partitionId;
      stars := None;
    }

    /** `AddStarAsync`: creates the map if needed, then inserts if absent. */
    method AddStar(star: StarEntity) returns (msg: string)
      requires Valid()
      modifies this
      ensures Valid()
      ensures stars == Some(AfterAdd(old(stars), star))
      ensures msg == AddMessage(star.starName, CompositeKey(star.galaxyName, star.starName) !in Entries(old(stars)))
    {
      if stars.None? {
        stars := Some(map[]);
      }
      var dictionary := stars.value;
      var key := CompositeKey(star.galaxyName, star.starName);
      var added := key !in dictionary;
      if added {
        dictionary := dictionary[key := star];
      }
      stars := Some(dictionary);
      AddKeepsKeyedByName(old(stars), star);
      msg := AddMessage(star.starName, added);
    }

    /**
     * `GetAllStarsAsync`: walks an unordered enumeration of the map and keeps
     * the values whose key starts with the upper-cased galaxy name. `order` is
     * the order the enumeration happens to produce.
     */
    method GetAllStars(galaxyName: string, order: seq<string>) returns (info: StarInfo)
      requires Valid()
      requires stars.Some? ==> IsEnumeration(order, stars.value.Keys)
      ensures info.partitionId == partitionId && info.endpointRole == None
      ensures NoDuplicates(info.stars)
      ensures stars.None? ==> info.stars == []
      ensures stars.Some? ==> info.stars == Scan(stars.value, order, Upper(galaxyName))
    {
      var found: seq<StarEntity> := [];
      if stars.None? {
        return StarInfo(None, partitionId, found);
      }
      var dictionary := stars.value;
      var i := 0;
      while i < |order|
        invariant 0 <= i <= |order|
        invariant found == Scan(dictionary, order[..i], Upper(galaxyName))
      {
        var key := order[i];
        assert order[..i + 1][..i] == order[..i];
        if Upper(galaxyName) <= key {
          found := found + [dictionary[key]];
        }
        i := i + 1;
      }
      assert order[..|order|] == order;
      assert NoDuplicates(found) by {
        ScanNoDuplicates(dictionary, order, Upper(galaxyName));
      }
      info := StarInfo(None, partitionId, found);
    }

    /** `GetStarAsync`: the star under the composite key, if the map holds one. */
    method GetStar(galaxyName: string, starName: string) returns (info: StarInfo)
      ensures info == StarInfo(None, partitionId, Lookup(stars, galaxyName, starName))
    {
      var found: seq<StarEntity> := [];
      if stars.None? {
        return StarInfo(None, partitionId, found);
      }
      var dictionary := stars.value;
      var key := CompositeKey(galaxyName, starName);
      if key in dictionary {
        found := found + [dictionary[key]];
      }
      info := StarInfo(None, partitionId, found);
    }
  }

  // ----- properties relating several operations -----------------------------

  /** Inserting a star whose key is already present changes nothing: repeats are idempotent. */
  lemma AddIdempotent(d: Option<Store>, x: StarEntity, y: StarEntity)
    requires CompositeKey(x.galaxyName, x.starName) == CompositeKey(y.galaxyName, y.starName)
    ensures AfterAdd(Some(AfterAdd(d, x)), y) == AfterAdd(d, x)
  {
  }

  /**
   * After an insert of `x`, with either outcome, the point lookup of its names
   * returns exactly one star: the first one stored under that key.
   */
  lemma AddThenGet(d: Option<Store>, x: StarEntity)
    ensures var key := CompositeKey(x.galaxyName, x.starName);
      Lookup(Some(AfterAdd(d, x)), x.galaxyName, x.starName)
        == [if key in Entries(d) then Entries(d)[key] else x]
  {
  }

  /** Two different splits of the same text share one composite key. */
  lemma {:induction false} CompositeKeyCollision(a: string, b: string, c: string)
    ensures CompositeKey(a + b, c) == CompositeKey(a, b + c)
  {
    UpperConcat(a, b);
    UpperConcat(b, c);
  }

  /**
   * Consequence of the missing separator: once ("A", "BC") is stored, a star
   * ("AB", "C") is refused as already existing and reads back as the first one.
   */
  lemma CollidingStarRejected(d: Option<Store>, x: StarEntity, y: StarEntity)
    requires x.galaxyName == "A" && x.starName == "BC"
    requires y.galaxyName == "AB" && y.starName == "C"
    ensures CompositeKey(y.galaxyName, y.starName) in AfterAdd(d, x)
    ensures AfterAdd(Some(AfterAdd(d, x)), y) == AfterAdd(d, x)
    ensures CompositeKey("A", "BC") !in Entries(d) ==> Lookup(Some(AfterAdd(d, x)), "AB", "C") == [x]
  {
    CompositeKeyCollision("A", "B", "C");
    assert "A" + "B" == "AB" && "B" + "C" == "BC";
  }

  /**
   * The galaxy scan is a prefix match: a stored star whose upper-cased galaxy
   * name merely starts with the requested one is returned too.
   */
  lemma ScanOverMatches(m: Store, order: seq<string>, galaxyName: string, x: StarEntity)
    requires IsEnumeration(order, m.Keys)
    requires CompositeKey(x.galaxyName, x.starName) in m && m[CompositeKey(x.galaxyName, x.starName)] == x
    requires Upper(galaxyName) <= Upper(x.galaxyName)
    ensures x in Scan(m, order, Upper(galaxyName))
  {
    var key := CompositeKey(x.galaxyName, x.starName);
    assert Upper(galaxyName) <= key by {
      assert key[..|Upper(galaxyName)|] == Upper(x.galaxyName)[..|Upper(galaxyName)|];
    }
    ScanComplete(m, order, Upper(galaxyName), key);
  }

  /** Concretely: scanning galaxy "G_1" also returns the stars of galaxy "G_10". */
  lemma ScanG1ReturnsG10(m: Store, order: seq<string>, x: StarEntity)
    requires IsEnumeration(order, m.Keys)
    requires x.galaxyName == "G_10"
    requires CompositeKey(x.galaxyName, x.starName) in m && m[CompositeKey(x.galaxyName, x.starName)] == x
    ensures x in Scan(m, order, Upper("G_1"))
  {
    UpperFixed("G_1");
    UpperFixed("G_10");
    assert "G_1" <= "G_10";
    ScanOverMatches(m, order, "G_1", x);
  }
}
