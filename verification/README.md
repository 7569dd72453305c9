# FetchValue request and response shaping, in Dafny

This project models the `FetchValue` command of the Riak Java client: the
command that fetches one value by key. The model covers what the command
does around the cluster call:

- it collects per-request options in a map keyed by option kind, where the
  last write wins;
- it turns the location and those options into a `FetchOperation` request,
  one builder setter per option;
- it turns the cluster's raw reply into a `Response` that carries the
  not-found and unchanged flags, the vector clock and the converted values.

Modules:

- `Wrappers`: `Option` stands for a Java reference that may be null, and
  `Result` stands for a call that may throw.
- `RiakTypes`: the foreign value types as plain records. These are byte
  strings, Java `int` (`int32`), `Quorum` with its integer value, `VClock`
  with its byte encoding, and `Location` with bucket type, bucket and key.
- `FetchOptions`: the ten option kinds (`OptionType`) and the option values
  typed by kind (`FetchOption`). `OptionSet` is the option map. It is a
  subset type, so a value always belongs to the kind it is stored under:
  the kind is checked when the option is inserted, not cast during
  translation. `Put` is the map update made by `withOption`.
- `FetchOperation`: the built request as a record of optional fields, and
  `Apply`, the one setter call an option makes. `Translate` is the
  reference description of the request, field by field. `BuildRequest`
  is the loop of `execute`, visiting the map's entries in any order.
  `Realizes` states what a correct request is: the location's three parts,
  plus for every kind either the translated option or an unset field.
- `FetchValue`: the command (location, option map, conversion), the
  factories, `withOption`, `execute`, and the `Response` with its accessors.

The cluster is a function parameter from request to raw reply or failure.
The conversion step `Converters.convert(converter, list)` is also a
function parameter. It may fail, and its result may be absent (null).
`execute` ends in a `FetchFailure`: either the cluster's own error or the
conversion failure, and no Response is built in either case.

## Model

| member | source | states |
|---|---|---|
| FetchOptions.Put | src/main/java/com/basho/riak/client/operations/FetchValue.java:84-88 | The new map holds the option under its own kind and has exactly the old keys plus that kind. Every other kind keeps its old value. |
| FetchOptions.PutLastWriteWins | src/main/java/com/basho/riak/client/operations/FetchValue.java:86 | Putting two options of the same kind leaves the same map as putting only the second. |
| FetchOptions.PutCommutes | src/main/java/com/basho/riak/client/operations/FetchValue.java:41-88 | Putting two options of different kinds gives the same map in either order. |
| FetchOptions.PutAllLookup | src/main/java/com/basho/riak/client/operations/FetchValue.java:84-88 | After a chain of puts, each kind holds the last option of that kind in the chain. If the chain has none, the kind holds what it held before, or stays absent. |
| FetchOptions.PutAllOrderIndependent | src/main/java/com/basho/riak/client/operations/FetchValue.java:41-88 | Two chains with the same options, each option of a distinct kind, give the same map whatever their order. |
| FetchOperation.Seed | src/main/java/com/basho/riak/client/operations/FetchValue.java:94-99 | The builder made from bucket and key and then given the bucket type addresses the location. Every option field is unset. |
| FetchOperation.Apply | src/main/java/com/basho/riak/client/operations/FetchValue.java:106-138 | One option sets exactly the field of its own kind. R and PR get the quorum's integer, IF_MODIFIED the clock's bytes, the rest the value itself. Bucket, key, bucket type and the other nine fields do not change. |
| FetchOperation.TranslateRealizes | src/main/java/com/basho/riak/client/operations/FetchValue.java:94-139 | The reference request addresses the location. Every present kind's field holds that option's translation, and every absent kind's field is unset. |
| FetchOperation.RealizesUnique | src/main/java/com/basho/riak/client/operations/FetchValue.java:98-139 | The location and the option map determine the request completely. Two requests that both meet that description are equal. |
| FetchOperation.BuildRequest | src/main/java/com/basho/riak/client/operations/FetchValue.java:94-141 | The option loop seeds the builder and makes one setter call per map entry. Whatever order it visits the entries in, the result meets the description and equals the reference request. |
| FetchOperation.RealizedQuorumFields | src/main/java/com/basho/riak/client/operations/FetchValue.java:108-131 | In a request that meets the description, R and PR hold the stored quorum's integer value, and are unset when that kind is absent. |
| FetchOperation.RealizedClockField | src/main/java/com/basho/riak/client/operations/FetchValue.java:123-126 | The if-not-modified field holds the stored vector clock's bytes, and is unset when IF_MODIFIED is absent. |
| FetchOperation.RealizedPlainFields | src/main/java/com/basho/riak/client/operations/FetchValue.java:111-137 | N_VAL, TIMEOUT and the five boolean kinds carry the stored value unchanged, and are unset when absent. |
| FetchOperation.EmptyOptionsGiveStructuralOnly | src/main/java/com/basho/riak/client/operations/FetchValue.java:94-101 | With an empty option map the request is the seeded builder: bucket, key and bucket type only. |
| FetchOperation.LastWriteReachesRequest | src/main/java/com/basho/riak/client/operations/FetchValue.java:84-139 | After two puts of the same kind, the request equals the one for the second put alone. Its field for that kind holds the second value's translation. |
| FetchOperation.SingleOptionSetsOnlyItsField | src/main/java/com/basho/riak/client/operations/FetchValue.java:101-139 | With a single option, the request addresses the location and sets that option's own field to its translation. Every other option field is unset. |
| FetchValue.Fetch | src/main/java/com/basho/riak/client/operations/FetchValue.java:44-62 | A new command keeps the given location and conversion and has an empty option map. |
| FetchValue.FetchRaw | src/main/java/com/basho/riak/client/operations/FetchValue.java:70-73 | A new raw command keeps the location and has an empty option map. Its conversion returns every raw object list unchanged. |
| FetchValue.WithOption | src/main/java/com/basho/riak/client/operations/FetchValue.java:84-88 | The command keeps its location and conversion. Its map holds the option under its own kind, gains only that kind, and keeps every other kind's value. |
| FetchValue.WithOptionsKeeps | src/main/java/com/basho/riak/client/operations/FetchValue.java:84-88 | Chained `withOption` calls keep the location and conversion. They leave the map that putting the options in order gives. |
| FetchValue.ChainOrderIrrelevant | src/main/java/com/basho/riak/client/operations/FetchValue.java:84-139 | Chaining the same options of distinct kinds in any order gives commands that send the same request. |
| FetchValue.MakeResponse | src/main/java/com/basho/riak/client/operations/FetchValue.java:144-169 | The response reports the raw not-found flag, unchanged flag and vector clock as they are. Its value is the converted object list. Each presence test holds exactly when the copied field is present. |
| FetchValue.ResponsePresence | src/main/java/com/basho/riak/client/operations/FetchValue.java:181-199 | `hasvClock` and `hasValue` hold exactly when the matching getter returns something. |
| FetchValue.ReportsUnique | src/main/java/com/basho/riak/client/operations/FetchValue.java:155-199 | What the accessors report determines a Response completely. |
| FetchValue.Execute | src/main/java/com/basho/riak/client/operations/FetchValue.java:91-148 | The cluster receives the translated request. A cluster failure comes back as that same error, and no response is built. If the converter rejects the reply's object list, the call ends in that conversion failure, and no response is built. Otherwise the result is a response reporting the reply and the converted list. |
| FetchValue.ExecuteDependsOnlyOnSentRequest | src/main/java/com/basho/riak/client/operations/FetchValue.java:141-146 | Repeating the command sends the same request, because the request depends only on the command. Two clusters that answer that request alike give the same outcome. |
| FetchValue.PassThroughReturnsRawObjects | src/main/java/com/basho/riak/client/operations/FetchValue.java:70-73 | For a raw command with any chain of options, every cluster reply yields a response. That response's value is exactly the raw object list. |
| FetchValue.ConditionalFetchReportsUnchanged | src/main/java/com/basho/riak/client/operations/FetchValue.java:123-146 | IF_MODIFIED sends the clock's bytes. An unchanged reply that converts is reported as unchanged, whatever the clock was. |
| FetchValue.ReadQuorumAndTimeoutExample | src/main/java/com/basho/riak/client/operations/FetchValue.java:94-139 | Given R = 2 and a 5000 ms timeout, the request carries r = 2 and timeout = 5000 beside the location's bucket type, bucket and key. The other eight option fields stay unset. |
| FetchValue.OneObjectReplyExample | src/main/java/com/basho/riak/client/operations/FetchValue.java:143-146 | A found, not-unchanged, one-object reply with a vector clock comes back as that object converted, with the clock, and with neither flag set. If the converter rejects the object, the call ends in that conversion failure. |

## Left out

- The cluster call `cluster.execute(operation).get()` and its `ExecutionException` and `InterruptedException` are not modelled as such. The cluster is a function parameter returning a reply or a failure of any type, and a failure is passed back unchanged.
- `Converters.convert`, `Converter` and `PassThroughConverter` are not part of this model. Conversion is an abstract function from the raw object list to a failure or an optional list. Nothing is claimed about element order or length. A conversion failure is one opaque failure for the whole list, not tied to the element that caused it.
- FetchValue.FetchRaw: the pass-through conversion is taken to return the raw list unchanged. This assumption stands in for `PassThroughConverter`, whose code is not part of this model.
- A null option value is not modelled. `withOption(opt, null)` is accepted by the `EnumMap`, but translation would fail with a null dereference on the unboxing or on `getIntValue`. Typed option values cannot be null.
- Unknown option kinds are not modelled. The `FetchOption.Type` enum is not part of this model, so the ten kinds handled by the switch are taken as the whole set, and the switch's silent fall-through for any other kind cannot arise.
- The order in which the `EnumMap` yields its entries is left open, because that order comes from the enum's declaration, which is not part of this model. `BuildRequest` picks entries in an arbitrary order and is proved correct for every order.
- `Quorum` is modelled only as its integer value, without the symbolic quorums. `VClock` is modelled only as its byte encoding. `Location`/`Key` is modelled only as its three byte strings.
- `FetchOperation.Builder` and `build()` are a plain immutable record. `RiakCommand` is not part of this model.
- The command is a value, not a shared mutable object. `withOption` returns the updated command instead of mutating and returning `this`, so aliasing and concurrent use of one command are not modelled.
- No claim links `notFound` to `hasValue`: the code always passes the converted list (FetchValue.java:144-146), whatever the not-found flag says.
