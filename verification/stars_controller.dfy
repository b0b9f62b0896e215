/**
 * The web gateway's routing rules: the partition key derived from the first
 * letter of a galaxy name, the replica chosen for a read (a secondary) or a
 * write (the primary), and the envelopes returned to the caller. Resolving a
 * partition, calling a replica over HTTP and parsing its reply are
 * parameters: `resolve`, `fetch` and `send`.
 */
module StarsController {
  import opened Wrappers
  import opened Text
  import opened Models

  datatype ServiceEndpointRole = Invalid | Stateless | StatefulPrimary | StatefulSecondary

  /** `ServiceEndpointRole.ToString()`: the two stateful roles have names no other role has. */
  function RoleName(role: ServiceEndpointRole): (r: string)
    ensures r == "StatefulSecondary" <==> role == StatefulSecondary
    ensures r == "StatefulPrimary" <==> role == StatefulPrimary
  {
    match role
    case Invalid => "Invalid"
    case Stateless => "Stateless"
    case StatefulPrimary => "StatefulPrimary"
    case StatefulSecondary => "StatefulSecondary"
  }

  /** A replica endpoint; `address` is the first entry of its "Endpoints" list. */
  datatype ResolvedServiceEndpoint = ResolvedServiceEndpoint(role: ServiceEndpointRole, address: string)

  /** What the naming service returns for a partition key. */
  datatype ResolvedServicePartition = ResolvedServicePartition(id: string, endpoints: seq<ResolvedServiceEndpoint>)

  const NoElements := "Sequence contains no elements"
  const NoMatch := "Sequence contains no matching element"

  /**
   * `char.ToUpper(c) - 'A'`: the partition key of a first letter. Lower-case
   * letters count from 'a', every other character from 'A'.
   */
  function PartitionKeyOf(c: char): (k: int)
    ensures IsLowerLetter(c) ==> k == c as int - 'a' as int
    ensures !IsLowerLetter(c) ==> k == c as int - 'A' as int
  {
    UpperChar(c) as int - 'A' as int
  }

  /**
   * The key lies in [0, 25] exactly for the ASCII letters, and the two cases of
   * a letter share their key.
   */
  lemma PartitionKeyOfLetter(c: char)
    ensures 0 <= PartitionKeyOf(c) <= 25 <==> IsLowerLetter(c) || IsUpperLetter(c)
    ensures IsLowerLetter(c) ==> PartitionKeyOf(c) == PartitionKeyOf((c as int - 32) as char)
  {
  }

  /** Distinct letters, ignoring case, get distinct partition keys. */
  lemma PartitionKeyOfInjective(c: char, d: char)
    requires IsUpperLetter(c) && IsUpperLetter(d) && c != d
    ensures PartitionKeyOf(c) != PartitionKeyOf(d)
  {
  }

  /** The key a write uses: the same formula on the first character of the galaxy name. */
  function WritePartitionKey(galaxyName: string): (r: Result<int, Exception>)
    ensures r.Err? <==> galaxyName == []
    ensures r.Ok? ==> r.value == PartitionKeyOf(galaxyName[0])
  {
    if galaxyName == [] then Err(InvalidOperation(NoElements))
    else Ok(PartitionKeyOf(galaxyName[0]))
  }

  /**
   * `Where(e => e.Role == StatefulSecondary).ToArray()`. `SecondariesMultiset`
   * states that it keeps every secondary as often as it occurs and nothing
   * else, and `SecondariesConcat` that it keeps their order.
   */
  function Secondaries(endpoints: seq<ResolvedServiceEndpoint>): (r: seq<ResolvedServiceEndpoint>)
    ensures |r| <= |endpoints|
    ensures forall i :: 0 <= i < |r| ==> r[i].role == StatefulSecondary && r[i] in endpoints
    ensures forall e :: e in endpoints && e.role == StatefulSecondary ==> e in r
  {
    if endpoints == [] then []
    else (if endpoints[0].role == StatefulSecondary then [endpoints[0]] else []) + Secondaries(endpoints[1..])
  }

  /** The filter keeps each secondary endpoint as often as it occurs, and nothing else. */
  lemma {:induction false} SecondariesMultiset(endpoints: seq<ResolvedServiceEndpoint>)
    ensures forall e ::
              multiset(Secondaries(endpoints))[e] == if e.role == StatefulSecondary then multiset(endpoints)[e] else 0
  {
    if endpoints != [] {
      SecondariesMultiset(endpoints[1..]);
      assert endpoints == [endpoints[0]] + endpoints[1..];
    }
  }

  /** The filter keeps the endpoints' order: it distributes over concatenation. */
  lemma {:induction false} SecondariesConcat(a: seq<ResolvedServiceEndpoint>, b: seq<ResolvedServiceEndpoint>)
    ensures Secondaries(a + b) == Secondaries(a) + Secondaries(b)
  {
    if a == [] {
      assert a + b == b;
    } else {
      var ab := a + b;
      var head := if a[0].role == StatefulSecondary then [a[0]] else [];
      assert ab[0] == a[0];
      assert ab[1..] == a[1..] + b;
      var x, y, z := Secondaries(a[1..]), Secondaries(b), Secondaries(ab[1..]);
      SecondariesConcat(a[1..], b);
      assert z == x + y;
      assert Secondaries(ab) == head + z;
      assert head + (x + y) == (head + x) + y;
    }
  }

  /** Index `i` holds the first endpoint whose role is StatefulPrimary. */
  ghost predicate IsFirstPrimary(endpoints: seq<ResolvedServiceEndpoint>, i: int)
  {
    && 0 <= i < |endpoints|
    && endpoints[i].role == StatefulPrimary
    && forall j :: 0 <= j < i ==> endpoints[j].role != StatefulPrimary
  }

  /** `First(e => e.Role == StatefulPrimary)`, throwing when no endpoint matches. */
  function FirstPrimary(endpoints: seq<ResolvedServiceEndpoint>): (r: Result<ResolvedServiceEndpoint, Exception>)
    ensures r.Err? <==> forall i :: 0 <= i < |endpoints| ==> endpoints[i].role != StatefulPrimary
    ensures r.Err? ==> r.error == InvalidOperation(NoMatch)
    ensures r.Ok? ==> r.value.role == StatefulPrimary && exists i :: IsFirstPrimary(endpoints, i) && endpoints[i] == r.value
  {
    if endpoints == [] then Err(InvalidOperation(NoMatch))
    else if endpoints[0].role == StatefulPrimary then Ok(endpoints[0])
    else
      var r := FirstPrimary(endpoints[1..]);
      assert r.Ok? ==> exists i :: IsFirstPrimary(endpoints, i) && endpoints[i] == r.value by {
        if r.Ok? {
          var i :| IsFirstPrimary(endpoints[1..], i) && endpoints[1..][i] == r.value;
          assert endpoints[i + 1] == r.value;
          forall j | 0 <= j < i + 1 ensures endpoints[j].role != StatefulPrimary {
            if j > 0 { assert endpoints[j] == endpoints[1..][j - 1]; }
          }
          assert IsFirstPrimary(endpoints, i + 1);
        }
      }
      assert r.Err? ==> forall i :: 0 <= i < |endpoints| ==> endpoints[i].role != StatefulPrimary by {
        if r.Err? {
          forall i | 0 <= i < |endpoints| ensures endpoints[i].role != StatefulPrimary {
            if i > 0 { assert endpoints[i] == endpoints[1..][i - 1]; }
          }
        }
      }
      r
  }

  /**
   * The replica a read goes to: `secondaries[draw]`, where `draw` is what
   * `Random.Next(secondaries.Length)` returned (0 when there are none, in which
   * case the indexing throws). There is no fallback to the primary.
   */
  function ReadEndpoint(partition: ResolvedServicePartition, draw: nat): (r: Result<ResolvedServiceEndpoint, Exception>)
    requires draw == 0 || draw < |Secondaries(partition.endpoints)|
    ensures r.Err? <==> forall e :: e in partition.endpoints ==> e.role != StatefulSecondary
    ensures r.Err? ==> r.error == IndexOutOfRange
    ensures r.Ok? ==> r.value in partition.endpoints && r.value.role == StatefulSecondary
    ensures r.Ok? ==> r.value == Secondaries(partition.endpoints)[draw]
  {
    var secondaries := Secondaries(partition.endpoints);
    if draw < |secondaries| then Ok(secondaries[draw]) else Err(IndexOutOfRange)
  }

  /** Every secondary of the partition is the pick of some draw in [0, count). */
  lemma EverySecondaryReachable(partition: ResolvedServicePartition, e: ResolvedServiceEndpoint)
    requires e in partition.endpoints && e.role == StatefulSecondary
    ensures exists draw ::
              && 0 <= draw < |Secondaries(partition.endpoints)|
              && ReadEndpoint(partition, draw) == Ok(e)
  {
    var secondaries := Secondaries(partition.endpoints);
    var draw :| 0 <= draw < |secondaries| && secondaries[draw] == e;
    assert ReadEndpoint(partition, draw) == Ok(e);
  }

  /**
   * `Get(c)`: resolves the partition of key `ToUpper(c) - 'A'`, reads from a
   * secondary and reports the role and address it used.
   */
  function Get(
    c: char,
    resolve: int -> ResolvedServicePartition,
    draw: nat,
    fetch: string -> seq<StarEntity>): (r: Result<StarsInfo, Exception>)
    requires draw == 0 || draw < |Secondaries(resolve(PartitionKeyOf(c)).endpoints)|
    ensures var endpoints := resolve(PartitionKeyOf(c)).endpoints;
      r.Err? <==> forall e :: e in endpoints ==> e.role != StatefulSecondary
    ensures r.Ok? ==> r.value.endpointRole == "StatefulSecondary"
    ensures r.Ok? ==>
      exists e :: e in resolve(PartitionKeyOf(c)).endpoints && e.role == StatefulSecondary
        && r.value.endpointAddress == e.address && r.value.stars == fetch(e.address)
    ensures r.Ok? ==> r.value.endpointAddress == Secondaries(resolve(PartitionKeyOf(c)).endpoints)[draw].address
  {
    var partition := resolve(PartitionKeyOf(c));
    match ReadEndpoint(partition, draw)
    case Err(e) => Err(e)
    case Ok(endpoint) =>
      Ok(StarsInfo(RoleName(endpoint.role), endpoint.address, fetch(endpoint.address)))
  }

  /**
   * `Post(star)`: takes the key from the first character of the galaxy name
   * (throwing before any resolution when the name is empty), resolves the
   * partition, posts to its first primary and echoes what it used.
   */
  function Post(
    star: StarEntity,
    resolve: int -> ResolvedServicePartition,
    send: (string, StarEntity) -> string): (r: Result<StarInsertResult, Exception>)
    ensures star.galaxyName == [] ==> r == Err(InvalidOperation(NoElements))
    ensures star.galaxyName != [] ==>
      (r.Err? <==> forall e :: e in resolve(PartitionKeyOf(star.galaxyName[0])).endpoints ==> e.role != StatefulPrimary)
    ensures r.Ok? ==> star.galaxyName != [] && r.value.inputValue == star.galaxyName
    ensures r.Ok? ==>
      && star.galaxyName != []
      && var key := PartitionKeyOf(star.galaxyName[0]);
         var partition := resolve(key);
         && r.value.partitionKey == IntToString(key)
         && r.value.servicePartitionId == partition.id
         && (exists i :: IsFirstPrimary(partition.endpoints, i)
               && r.value.serviceReplicaAddress == partition.endpoints[i].address
               && r.value.result == send(partition.endpoints[i].address, star))
  {
    match WritePartitionKey(star.galaxyName)
    case Err(e) => Err(e)
    case Ok(key) =>
      var partition := resolve(key);
      match FirstPrimary(partition.endpoints)
      case Err(e) => Err(e)
      case Ok(endpoint) =>
        Ok(StarInsertResult(
          send(endpoint.address, star),
          IntToString(key),
          star.galaxyName,
          partition.id,
          endpoint.address))
  }

  /**
   * A read for letter `c` and a write of a galaxy whose name starts with `c`
   * (in either case) resolve the same partition key, and the key the write
   * echoes reads back as that number.
   */
  lemma ReadAndWriteAgree(
    c: char,
    star: StarEntity,
    resolve: int -> ResolvedServicePartition,
    send: (string, StarEntity) -> string)
    requires star.galaxyName != [] && UpperChar(star.galaxyName[0]) == UpperChar(c)
    ensures WritePartitionKey(star.galaxyName) == Ok(PartitionKeyOf(c))
    ensures Post(star, resolve, send).Ok? ==> ParseInt(Post(star, resolve, send).value.partitionKey) == PartitionKeyOf(c)
  {
    ParseIntToString(PartitionKeyOf(c));
  }

  /** "Zeta" goes to partition key 25, as does a read for 'z'. */
  lemma ZetaKey()
    ensures WritePartitionKey("Zeta") == Ok(25)
    ensures PartitionKeyOf('z') == 25
  {
  }
}
