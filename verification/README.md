# Galaxy catalog service — a Dafny model of its core

The system stores "stars" grouped by "galaxy" across the partitions of a
stateful service. This project models five sequential pieces of its logic and
proves their contracts:

- **The per-partition star store** (`processing.dfy`, module `Processing`).
  One replica keeps a reliable dictionary named "stars". Its key is the
  upper-cased galaxy name followed directly by the upper-cased star name. The
  first write creates the dictionary lazily; the two reads never create it and
  answer an empty list while it is missing. `AddStar` is insert-if-absent and
  answers "Star {name} sucessfully added" or "Star {name} already exists",
  keeping the source's spelling. `GetAllStars` is a prefix scan over an
  unordered enumeration. `GetStar` is a point lookup. Every read carries the
  replica's partition id. Each transaction is one atomic step.
  Two quirks are proved as lemmas, not fixed:
  - The key has no separator, so ("A", "BC") and ("AB", "C") share a key.
  - The scan is a prefix match, so galaxy "G_1" also returns the stars of "G_10".
- **The gateway's routing rules** (`stars_controller.dfy`, module `StarsController`).
  - The partition key is `ToUpper(c) - 'A'` of the first letter alone. The
    gateway keeps no partition map, resolver cache or retry of its own, and it
    does not call the hash partition key generator.
  - A read goes to the secondary picked by the random draw. It never falls back
    to the primary, and it fails when there is no secondary.
  - A write goes to the first primary, and fails when there is none. A write
    with an empty galaxy name fails inside `First()` before any resolution.
    There is no separate validation error.
  - The result envelopes echo the values used. A read's `StarsInfo` carries the
    endpoint role and address, not a partition id.
- **The hash partition key** (`partition_key_generator.dfy`, module `Sharding`).
  The value is encoded as UTF-16 little-endian and digested to 16 bytes. The
  little-endian 64-bit windows at offsets 0 and 7 are then XORed as signed
  longs. The digest is a function parameter, so the key depends only on the
  input string and that function.
- **The partition tally** (`program.dfy`, module `Program`). This is a
  dictionary counter, bumped once for each star the data generator pushes.
- **The data generator** (`star_generator.dfy`, module `StarGen`).
  - It makes galaxies G_1…G_n.
  - Each galaxy gets a drawn number of stars S_1…S_k.
  - Each star gets a drawn-length property list (P1,V1)…(Pm,Vm).

The shared text helpers are in `text.dfy`: ASCII upper-casing, and decimal
rendering with its parser. The record shapes are in `models.dfy` and
`wrappers.dfy`.

## Model

| member | source | states |
|---|---|---|
| `Processing.Processing.constructor` | GalaxyService.Processing/Processing.cs:21-27 | a new replica has no "stars" dictionary yet, so the store invariant (every star sits under its own composite key) holds |
| `Processing.Processing.AddStar` | GalaxyService.Processing/Processing.cs:44-56 | creates the dictionary if missing, stores the star under the composite key only if absent, and replies added / already exists accordingly; keeps the invariant that every stored star sits under the composite key of its own names |
| `Processing.CompositeKey` | GalaxyService.Processing/Processing.cs:50 | the key is the upper-cased concatenation of the two names, and it starts with the upper-cased galaxy name |
| `Processing.AfterAdd` | GalaxyService.Processing/Processing.cs:50-54 | insert-if-absent keeps every existing entry unchanged, adds exactly the composite key, and the key holds the first star stored under it |
| `Processing.AddMessage` | GalaxyService.Processing/Processing.cs:54 | the reply starts with "Star {name} " and reports a fresh insert exactly when there was one, whatever the star's name |
| `Processing.AddIdempotent` | GalaxyService.Processing/Processing.cs:50-54 | a second insert under an existing key leaves the store unchanged |
| `Processing.Processing.GetAllStars` | GalaxyService.Processing/Processing.cs:58-94 | with no dictionary: empty list; otherwise the enumeration's values whose key starts with the upper-cased galaxy name; always this replica's partition id; the store is not modified; under the store invariant the list holds no star twice |
| `Processing.Scan` | GalaxyService.Processing/Processing.cs:80-86 | the enumeration loop yields at most one star per enumerated key, and only stars held in the store |
| `Processing.AddKeepsKeyedByName` | GalaxyService.Processing/Processing.cs:50-54 | insert-if-absent under the composite key keeps every star stored under the composite key of its own names |
| `Processing.KeyedPairUnique` | GalaxyService.Processing/Processing.cs:50 | under the store invariant, two entries whose galaxy and star names agree after upper-casing are the same entry |
| `Processing.ScanKeysInOrder` | GalaxyService.Processing/Processing.cs:80-85 | under the store invariant, the composite key of every scanned star is one of the enumerated keys |
| `Processing.ScanNoDuplicates` | GalaxyService.Processing/Processing.cs:77-86 | under the store invariant, scanning an enumeration without repeated keys returns no star twice |
| `Processing.ScanExact` | GalaxyService.Processing/Processing.cs:77-86 | over a full enumeration the scan returns one star per key starting with the prefix, every such star, and nothing else |
| `Processing.ScanComplete` | GalaxyService.Processing/Processing.cs:80-85 | every enumerated entry whose key starts with the prefix is in the result |
| `Processing.ScanSound` | GalaxyService.Processing/Processing.cs:80-85 | every star in the result is stored under an enumerated key starting with the prefix |
| `Processing.Processing.GetStar` | GalaxyService.Processing/Processing.cs:96-128 | returns this replica's partition id and the star under the composite key if the dictionary exists and holds it, else an empty list; the store is not modified |
| `Processing.Lookup` | GalaxyService.Processing/Processing.cs:114-120 | the point lookup returns at most one star, present exactly when the composite key is stored, and it is the stored value |
| `Processing.AddThenGet` | GalaxyService.Processing/Processing.cs:114-119 | after an insert of x with either outcome, looking up x's names returns exactly one star: the first stored under that key |
| `Processing.CompositeKeyCollision` | GalaxyService.Processing/Processing.cs:50 | (a+b, c) and (a, b+c) have the same composite key |
| `Processing.CollidingStarRejected` | GalaxyService.Processing/Processing.cs:50-54 | once ("A","BC") is stored, inserting ("AB","C") changes nothing and looking it up returns the first star |
| `Processing.ScanOverMatches` | GalaxyService.Processing/Processing.cs:82 | a stored star whose upper-cased galaxy name merely starts with the requested one is returned by the scan |
| `Processing.ScanG1ReturnsG10` | GalaxyService.Processing/Processing.cs:82 | scanning galaxy "G_1" returns the stars of galaxy "G_10" |
| `Text.UpperChar` | GalaxyService.WebApi/Controllers/StarsController.cs:26 | a lower-case ASCII letter becomes its capital (32 code points lower), every other character is unchanged, and the result is never lower-case |
| `Text.Upper` | GalaxyService.Processing/Processing.cs:50 | upper-casing keeps the length and maps each character independently |
| `Text.UpperConcat` | GalaxyService.Processing/Processing.cs:50 | upper-casing distributes over concatenation |
| `StarsController.PartitionKeyOf` | GalaxyService.WebApi/Controllers/StarsController.cs:26 | lower-case letters are counted from 'a', every other character from 'A', so both cases of a letter share a key |
| `StarsController.PartitionKeyOfLetter` | GalaxyService.WebApi/Controllers/StarsController.cs:26 | the read key lies in [0,25] exactly for ASCII letters, and both cases of a letter give the same key |
| `StarsController.PartitionKeyOfInjective` | GalaxyService.WebApi/Controllers/StarsController.cs:26 | distinct letters give distinct keys |
| `StarsController.ZetaKey` | GalaxyService.WebApi/Controllers/StarsController.cs:67-68 | "Zeta" and 'z' both map to key 25 |
| `StarsController.WritePartitionKey` | GalaxyService.WebApi/Controllers/StarsController.cs:67-68 | a write fails exactly when the galaxy name is empty, otherwise uses the read formula on its first character |
| `StarsController.Secondaries` | GalaxyService.WebApi/Controllers/StarsController.cs:39-42 | the filter keeps every secondary endpoint and only secondary endpoints |
| `StarsController.SecondariesMultiset` | GalaxyService.WebApi/Controllers/StarsController.cs:39-42 | the filtered array holds each secondary endpoint exactly as often as the endpoint list does, and nothing else |
| `StarsController.SecondariesConcat` | GalaxyService.WebApi/Controllers/StarsController.cs:39-42 | the filter keeps the endpoints' order: filtering a concatenation concatenates the filtered parts |
| `StarsController.ReadEndpoint` | GalaxyService.WebApi/Controllers/StarsController.cs:39-44 | the pick is the secondary at index draw of the filtered array, so a secondary of the partition; the choice fails exactly when there is no secondary (no primary fallback) |
| `StarsController.EverySecondaryReachable` | GalaxyService.WebApi/Controllers/StarsController.cs:44 | every secondary of the partition is the pick of some draw in [0, count) |
| `StarsController.FirstPrimary` | GalaxyService.WebApi/Controllers/StarsController.cs:81 | returns the first endpoint with role StatefulPrimary, failing exactly when there is none |
| `StarsController.RoleName` | GalaxyService.WebApi/Controllers/StarsController.cs:53 | the role text is "StatefulSecondary" exactly for a secondary and "StatefulPrimary" exactly for a primary |
| `StarsController.Get` | GalaxyService.WebApi/Controllers/StarsController.cs:24-57 | fails exactly when the resolved partition has no secondary; otherwise reports role "StatefulSecondary", the address of the secondary at index draw of the filtered array, and the stars read from it |
| `StarsController.Post` | GalaxyService.WebApi/Controllers/StarsController.cs:60-98 | an empty name fails whatever the resolver says; otherwise fails exactly when there is no primary, and echoes the galaxy name, the decimal key, the partition id, the first primary's address and its reply |
| `StarsController.ReadAndWriteAgree` | GalaxyService.WebApi/Controllers/StarsController.cs:67-68 | a read for c and a write of a galaxy starting with c (either case) use the same key, and the echoed key reads back as that number |
| `Text.ParseIntToString` | GalaxyService.WebApi/Controllers/StarsController.cs:93 | the decimal text of the partition key reads back to the key |
| `Text.IntToString` | GalaxyService.WebApi/Controllers/StarsController.cs:93 | the text starts with '-' exactly for negative keys, and the rest is canonical decimal digits (no leading zero) |
| `Sharding.Generate` | GalaxyService.WebApi/Sharding/PartitionKeyGenerator.cs:9-15 | byte i of the key is d[i] xor d[i+7] for every i in [0,8), d being the digest of the value's UTF-16LE bytes |
| `Sharding.GetBytesEncoding` | GalaxyService.WebApi/Sharding/PartitionKeyGenerator.cs:11 | two bytes per UTF-16 code unit (twice the length for text below U+10000), and the bytes decode back to the string |
| `Sharding.CodeUnits` | GalaxyService.WebApi/Sharding/PartitionKeyGenerator.cs:11 | a character below U+10000 is one non-surrogate code unit equal to it; one above is a high/low surrogate pair that recombines into it |
| `Sharding.Utf16` | GalaxyService.WebApi/Sharding/PartitionKeyGenerator.cs:11 | a string of n characters becomes between n and 2n UTF-16 code units |
| `Sharding.GetBytes` | GalaxyService.WebApi/Sharding/PartitionKeyGenerator.cs:11 | two bytes per UTF-16 code unit, low byte first: bytes 2i and 2i+1 recombine into code unit i |
| `Sharding.LittleEndianBytes` | GalaxyService.WebApi/Sharding/PartitionKeyGenerator.cs:11 | each code unit becomes its low byte followed by its high byte |
| `Sharding.FromBytes` | GalaxyService.WebApi/Sharding/PartitionKeyGenerator.cs:14 | the long read from eight bytes is their little-endian unsigned value, less 2^64 when that is 2^63 or more |
| `Sharding.ToBytes` | GalaxyService.WebApi/Sharding/PartitionKeyGenerator.cs:14 | the eight bytes of a long have as unsigned value the long itself, or the long plus 2^64 when negative |
| `Sharding.ToInt64` | GalaxyService.WebApi/Sharding/PartitionKeyGenerator.cs:14 | the bytes of the long read at startIndex are exactly the eight array bytes from startIndex |
| `Sharding.Xor` | GalaxyService.WebApi/Sharding/PartitionKeyGenerator.cs:14 | each byte of a ^ b is the xor of the matching bytes of a and b |
| `Sharding.BytesRoundTrip` | GalaxyService.WebApi/Sharding/PartitionKeyGenerator.cs:14 | reading a long from eight little-endian two's-complement bytes and writing them back are inverse |
| `Sharding.SignOfBytes` | GalaxyService.WebApi/Sharding/PartitionKeyGenerator.cs:14 | a long read from bytes is negative exactly when the last byte's top bit is set |
| `Sharding.Fold` | GalaxyService.WebApi/Sharding/PartitionKeyGenerator.cs:14 | byte i of the key is digest byte i xor digest byte i+7, for every i in [0,8) |
| `Sharding.SharedByte` | GalaxyService.WebApi/Sharding/PartitionKeyGenerator.cs:14 | digest byte 7 is the top byte of the first window and the bottom byte of the second |
| `Sharding.FoldIgnoresLastByte` | GalaxyService.WebApi/Sharding/PartitionKeyGenerator.cs:14 | digests that agree on bytes 0..14 give the same key: byte 15 never matters |
| `Sharding.FoldSign` | GalaxyService.WebApi/Sharding/PartitionKeyGenerator.cs:14 | the key is negative exactly when d[7] xor d[14] has its top bit set |
| `Program.PartitionCounter.constructor` | DataGenerator/Program.cs:20 | the counter starts empty |
| `Program.PartitionCounter.CountPartition` | DataGenerator/Program.cs:83-89 | an unseen id gets count 1, a seen one goes up by exactly 1, other counts are unchanged, the key set gains the id, all counts stay at least 1, and the total rises by 1 |
| `Program.Bump` | DataGenerator/Program.cs:83-89 | an unseen id enters with count 1, a seen one goes up by 1, the other counts stay, and positive counts stay positive |
| `Program.BumpTotal` | DataGenerator/Program.cs:83-89 | counting one id adds exactly one to the sum of all counts |
| `Program.PartitionCounter.PushStars` | DataGenerator/Program.cs:61-72 | after the push loop, counter equals totalCount equals the number of stars, and the counts are the old ones with each reply counted once |
| `Program.Tallied` | DataGenerator/Program.cs:66-72 | after counting the ids, the keys are the old keys plus the ids seen, no count goes down, and positive counts stay positive |
| `Program.TalliedTotal` | DataGenerator/Program.cs:66-72 | the sum of all counts grows by the number of stars pushed |
| `Program.TalliedCounts` | DataGenerator/Program.cs:83-89 | from an empty dictionary, the keys are the ids seen and each count is the number of occurrences of its id |
| `StarGen.Scale` | DataGenerator/StarGenerator.cs:27 | a draw of Next(min, max) lies in [min, max), or equals min when min = max |
| `StarGen.Random.constructor` | DataGenerator/StarGenerator.cs:14 | a new generator has consumed no samples yet |
| `StarGen.Random.Next` | DataGenerator/StarGenerator.cs:27 | each call consumes one raw sample and returns it scaled into range |
| `StarGen.GenerateRandomGalaxies` | DataGenerator/StarGenerator.cs:42-52 | there are exactly max(0, number) galaxies |
| `StarGen.GalaxyName` | DataGenerator/StarGenerator.cs:49 | the name is "G_" followed by i+1 in decimal digits without a leading zero |
| `StarGen.StarName` | DataGenerator/StarGenerator.cs:35 | the name is "S_" followed by i+1 in decimal digits without a leading zero |
| `StarGen.Property` | DataGenerator/StarGenerator.cs:59 | the pair is "P" and "V", each followed by i+1 in decimal digits without a leading zero |
| `Text.NatToString` | DataGenerator/StarGenerator.cs:49 | the rendering is decimal digits without a leading zero, and starts with '0' only for zero |
| `Text.NumberedExactly` | DataGenerator/StarGenerator.cs:49 | a prefix followed by n's canonical digits is exactly the interpolated text prefix + n |
| `StarGen.GalaxiesInOrder` | DataGenerator/StarGenerator.cs:42-52 | galaxy i carries the i-th Guid and the name "G_" followed by i+1 in canonical decimal, and galaxy names are pairwise distinct |
| `StarGen.GenerateRandomProperties` | DataGenerator/StarGenerator.cs:54-61 | the list has as many pairs as were drawn |
| `StarGen.PropertiesShape` | DataGenerator/StarGenerator.cs:54-61 | a draw of Next(5, 21) gives 5 to 20 pairs, pair i being "P" and "V" each followed by i+1 in canonical decimal, with distinct keys |
| `StarGen.StarNameInjective` | DataGenerator/StarGenerator.cs:35 | stars of one galaxy have pairwise distinct names |
| `StarGen.GeneratedKeysDistinct` | DataGenerator/StarGenerator.cs:35 | stars of one galaxy have pairwise distinct composite keys in the store |
| `Text.NatToStringInjective` | DataGenerator/StarGenerator.cs:35 | different numbers render differently |
| `StarGen.FlattenLength` | DataGenerator/StarGenerator.cs:22-39 | the number of stars is the sum of the per-galaxy counts |
| `StarGen.StarGenerator.constructor` | DataGenerator/StarGenerator.cs:16-20 | keeps the given minimum and maximum star counts |
| `StarGen.StarGenerator.GenerateGalaxyStars` | DataGenerator/StarGenerator.cs:27-38 | draws k in range and yields max(0, k) stars S_1..S_k of that galaxy, each with a 5 to 20 pair property list and the next Guids |
| `StarGen.StarGenerator.GenerateRandomStars` | DataGenerator/StarGenerator.cs:22-40 | fails exactly when there is a galaxy and min > max; otherwise the stars are the galaxies' blocks in order, block j holds the drawn count of stars of galaxy G_{j+1}, and the total is the sum of the counts |

## Left out

- HTTP listener bootstrap, its accept loop and the re-thrown background fault
  (GalaxyService.Processing/HttpCommunicationListener.cs): I/O and
  concurrency. The replica's HTTP replies reach the gateway model as the
  `fetch` and `send` parameters.
- Naming-service resolution, `HttpClient` calls, JSON parsing of endpoint
  addresses and `UriBuilder` normalisation: `resolve` is a parameter and
  endpoints carry their already-extracted address.
- MD5 itself: the digest is a parameter onto 16 bytes.
- `ToUpperInvariant` and `char.ToUpper` are modelled on ASCII letters only,
  because culture tables are out of reach. Every other character is unchanged.
  `StartsWith` is modelled as an ordinal prefix test, because the culture-aware
  comparison is out of reach too.
- C# strings are UTF-16 code-unit sequences, while Dafny strings hold Unicode
  scalar values. So a lone surrogate cannot be written, and the encoder's
  U+FFFD replacement of one is only modelled on the decoding side. `First()`
  of a name starting above U+FFFF takes the whole character here and the high
  surrogate in C#.
- Null strings and the `NullReferenceException` they would raise are not
  modelled.
- Reliable-collection transactions, replication, commit failure and locking:
  each store operation is one atomic step.
- Console I/O (`Main`, `ReportPartitionCounts`, `WriteToConsole*`) and the
  HTTP post in `PushToTheService`: the partition ids of the replies are the
  `replies` parameter of `PushStars`.
- `GenerateDataAndSave`'s call of the generator with the constants 50, 100
  and 250: `PushStars` takes the generated stars as a parameter.
- `Random` is a stream of raw samples, scaled as `min + raw % (max - min)`
  instead of .NET's `Sample() * (max - min)`. Guids come from two parameter
  streams, one for galaxies and one for stars, so the interleaving of the
  `Guid.NewGuid` calls is not modelled.
- StarGen.StarGenerator.GenerateRandomStars: in C# a star's `Data` is a lazy
  enumerable that draws its length from `Random` whenever it is enumerated,
  at serialization time. The model draws it once, right after the star is
  made. So the model states the ranges of the draws, not which raw sample
  feeds which draw.
- The remoting interface `IGalaxyStatefulService`: its `GetAllStarsAsync()`
  signature does not match the implementation.
