/**
 The FetchValue command: a location, a conversion step and an option set,
 with the fluent `withOption`, the `execute` step that builds the request,
 hands it to the cluster and shapes the reply, and the immutable Response.
 */
module FetchValue {
  import opened Wrappers
  import opened RiakTypes
  import opened FetchOptions
  import opened FetchOperation

  /** What the cluster answers a fetch with; a null vector clock is `None`. */
  datatype RawResponse<O> = RawResponse(
    objectList: seq<O>,
    notFound: bool,
    wasUnchanged: bool,
    vClock: Option<VClock>)

  /** The typed result of one execution; a null field is `None`. */
  datatype Response<T> = Response(
    notFound: bool,
    wasUnchanged: bool,
    vClock: Option<VClock>,
    value: Option<seq<T>>)
  {
    function IsNotFound(): bool { notFound }
    function IsUnchanged(): bool { wasUnchanged }
    function HasVClock(): bool { vClock.Some? }
    function GetVClock(): Option<VClock> { vClock }
    function HasValue(): bool { value.Some? }
    function GetValue(): Option<seq<T>> { value }
  }

  /** Why the converter rejected the raw object list. */
  datatype ConversionFailure = ConversionFailure(reason: string)

  /**
   The conversion step `execute` applies to the raw object list: the
   converter run over the list, as a whole. It may fail, and its result
   may be null.
   */
  type Conversion<!O, T> = seq<O> -> Result<Option<seq<T>>, ConversionFailure>

  /** Why `execute` ended without a Response: the cluster call failed with
      its own error, or the conversion failed. */
  datatype FetchFailure<E> = ClusterFailed(cause: E) | ConversionFailed(failure: ConversionFailure)

  /** A fetch command; it owns its option set, which is typed by construction. */
  datatype Command<!O, T> = Command(location: Location, options: OptionSet, convert: Conversion<O, T>)

  /** A cluster call: the built request in, a raw response or a failure out. */
  type Cluster<!O, E> = FetchRequest -> Result<RawResponse<O>, E>

  /** A fresh command for `loc` converting through `convert`, with no options. */
  function Fetch<O, T>(loc: Location, convert: Conversion<O, T>): (c: Command<O, T>)
    ensures c.location == loc && c.options == map[]
    ensures c.convert == convert
  {
    Command(loc, map[], convert)
  }

  /** The pass-through conversion: the raw objects unchanged. */
  function PassThrough<O>(xs: seq<O>): Result<Option<seq<O>>, ConversionFailure> {
    Success(Some(xs))
  }

  /** A fresh command for `loc` returning the raw objects, with no options. */
  function FetchRaw<O(!new)>(loc: Location): (c: Command<O, O>)
    ensures c.location == loc && c.options == map[]
    ensures forall xs :: c.convert(xs) == Success(Some(xs))
  {
    Command(loc, map[], PassThrough)
  }

  /** Adds an option, overwriting any earlier option of the same kind; the
      command keeps its location and conversion. */
  function WithOption<O, T>(c: Command<O, T>, o: FetchOption): (c': Command<O, T>)
    ensures c'.location == c.location
    ensures c'.convert == c.convert
    ensures TypeOf(o) in c'.options && c'.options[TypeOf(o)] == o
    ensures c'.options.Keys == c.options.Keys + {TypeOf(o)}
    ensures forall t :: t in c.options && t != TypeOf(o) ==> c'.options[t] == c.options[t]
  {
    c.(options := Put(c.options, o))
  }

  /** Chained `withOption` calls, first to last. */
  function WithOptions<O, T>(c: Command<O, T>, xs: seq<FetchOption>): (c': Command<O, T>)
    decreases |xs|
  {
    if xs == [] then c else WithOption(WithOptions(c, xs[..|xs| - 1]), xs[|xs| - 1])
  }

  /** Chaining options keeps the location and conversion and puts the options in order. */
  lemma {:induction false} WithOptionsKeeps<O, T>(c: Command<O, T>, xs: seq<FetchOption>)
    ensures WithOptions(c, xs).location == c.location
    ensures WithOptions(c, xs).convert == c.convert
    ensures WithOptions(c, xs).options == PutAll(c.options, xs)
    decreases |xs|
  {
    if xs != [] {
      WithOptionsKeeps(c, xs[..|xs| - 1]);
    }
  }

  /** The response carries the raw response's flags and vector clock as they
      are, and the converted object list as its value. */
  ghost predicate Reports<O, T>(resp: Response<T>, raw: RawResponse<O>, converted: Option<seq<T>>) {
    && resp.IsNotFound() == raw.notFound
    && resp.IsUnchanged() == raw.wasUnchanged
    && resp.GetVClock() == raw.vClock
    && (resp.HasVClock() <==> raw.vClock.Some?)
    && resp.GetValue() == converted
    && (resp.HasValue() <==> converted.Some?)
  }

  /** The Response `execute` constructs from the raw response and the converted list. */
  function MakeResponse<O, T>(raw: RawResponse<O>, converted: Option<seq<T>>): (resp: Response<T>)
    ensures Reports(resp, raw, converted)
  {
    Response(raw.notFound, raw.wasUnchanged, raw.vClock, converted)
  }

  /** The presence tests agree with the getters: a vector clock or value is
      reported present exactly when the getter returns one. */
  lemma ResponsePresence<T>(resp: Response<T>)
    ensures resp.HasVClock() <==> resp.GetVClock().Some?
    ensures resp.HasValue() <==> resp.GetValue().Some?
  {
  }

  /** A response is determined by what it reports. */
  lemma ReportsUnique<O, T>(a: Response<T>, b: Response<T>, raw: RawResponse<O>, converted: Option<seq<T>>)
    requires Reports(a, raw, converted) && Reports(b, raw, converted)
    ensures a == b
  {
  }

  /**
   Runs the command: the request built from the location and the current
   options goes to the cluster. A cluster failure comes back unchanged; a
   reply whose object list the converter rejects ends in that conversion
   failure; otherwise the reply is shaped into a Response. No Response is
   built on either failure.
   */
  function Execute<O, T, E>(c: Command<O, T>, cluster: Cluster<O, E>): (r: Result<Response<T>, FetchFailure<E>>)
    ensures var reply := cluster(Translate(c.location, c.options));
      && (reply.Failure? ==> r == Failure(ClusterFailed(reply.error)))
      && (reply.Success? && c.convert(reply.value.objectList).Failure? ==>
            r == Failure(ConversionFailed(c.convert(reply.value.objectList).error)))
      && (reply.Success? && c.convert(reply.value.objectList).Success? ==>
            r.Success? && Reports(r.value, reply.value, c.convert(reply.value.objectList).value))
  {
    match cluster(Translate(c.location, c.options))
    case Failure(e) => Failure(ClusterFailed(e))
    case Success(raw) =>
      match c.convert(raw.objectList)
      case Failure(f) => Failure(ConversionFailed(f))
      case Success(converted) => Success(MakeResponse(raw, converted))
  }

  /** `execute` sees the cluster only through the request it sends, which
      depends on the command alone, so running it again sends the same
      request; two clusters that answer that request alike give the same
      outcome. */
  lemma ExecuteDependsOnlyOnSentRequest<O, T, E>(c: Command<O, T>, k1: Cluster<O, E>, k2: Cluster<O, E>)
    requires k1(Translate(c.location, c.options)) == k2(Translate(c.location, c.options))
    ensures Execute(c, k1) == Execute(c, k2)
  {
    var req := Translate(c.location, c.options);
    match k1(req)
    case Failure(e) =>
    case Success(raw) =>
      match c.convert(raw.objectList)
      case Failure(f) =>
      case Success(converted) =>
        ReportsUnique(Execute(c, k1).value, Execute(c, k2).value, raw, converted);
  }

  /** With the pass-through command, however its options were chained, a
      reply always yields a Response, whose value is the raw object list itself. */
  lemma PassThroughReturnsRawObjects<O(!new), E>(loc: Location, opts: seq<FetchOption>, cluster: Cluster<O, E>)
    ensures var c := WithOptions(FetchRaw(loc), opts);
      var reply := cluster(Translate(c.location, c.options));
      reply.Success? ==>
        Execute(c, cluster).Success? && Execute(c, cluster).value.GetValue() == Some(reply.value.objectList)
  {
    WithOptionsKeeps(FetchRaw<O>(loc), opts);
    PassThroughExecute(WithOptions(FetchRaw<O>(loc), opts), cluster);
  }

  /** A pass-through command's successful response holds the raw object list. */
  lemma PassThroughExecute<O(!new), E>(c: Command<O, O>, cluster: Cluster<O, E>)
    requires forall xs :: c.convert(xs) == Success(Some(xs))
    ensures var reply := cluster(Translate(c.location, c.options));
      reply.Success? ==>
        Execute(c, cluster).Success? && Execute(c, cluster).value.GetValue() == Some(reply.value.objectList)
  {
  }

  /** Commands built from the same options of distinct kinds, in any order,
      send the same request. */
  lemma {:induction false} ChainOrderIrrelevant<O, T>(c: Command<O, T>, xs: seq<FetchOption>, ys: seq<FetchOption>)
    requires DistinctTypes(xs) && DistinctTypes(ys)
    requires multiset(xs) == multiset(ys)
    ensures var a, b := WithOptions(c, xs), WithOptions(c, ys);
      Translate(a.location, a.options) == Translate(b.location, b.options)
  {
    WithOptionsKeeps(c, xs);
    WithOptionsKeeps(c, ys);
    PutAllOrderIndependent(c.options, xs, ys);
  }

  /**
   A conditional fetch: IF_MODIFIED's clock reaches the request as its bytes,
   and an unchanged reply that converts is reported as unchanged whatever
   the clock was.
   */
  lemma ConditionalFetchReportsUnchanged<O, T, E>(
    loc: Location, convert: Conversion<O, T>, clock: VClock, cluster: Cluster<O, E>)
    ensures var c := WithOption(Fetch(loc, convert), IfNotModified(clock));
      var req := Translate(c.location, c.options);
      && req.ifNotModified == Some(clock.GetBytes())
      && (cluster(req).Success? && cluster(req).value.wasUnchanged
            && convert(cluster(req).value.objectList).Success? ==>
            Execute(c, cluster).Success? && Execute(c, cluster).value.IsUnchanged())
  {
    var c := WithOption(Fetch(loc, convert), IfNotModified(clock));
    TranslateRealizes(loc, c.options);
    RealizedClockField(Translate(loc, c.options), loc, c.options);
  }

  /**
   The worked example, request side: R = 2 and a 5000 ms timeout reach the
   request beside the location's bucket type, bucket and key, and no other
   option field is set.
   */
  lemma ReadQuorumAndTimeoutExample<O, T>(loc: Location, convert: Conversion<O, T>)
    ensures var c := WithOption(WithOption(Fetch(loc, convert), ReadQuorum(Quorum(2))), TimeoutMillis(5000));
      var req := Translate(c.location, c.options);
      && req.bucketType == loc.bucketType && req.bucket == loc.bucket && req.key == loc.key
      && req.r == Some(2) && req.timeout == Some(5000)
      && req.pr == None && req.nVal == None && req.returnDeletedVClock == None
      && req.headOnly == None && req.basicQuorum == None && req.ifNotModified == None
      && req.sloppyQuorum == None && req.notFoundOk == None
  {
    var c := WithOption(WithOption(Fetch(loc, convert), ReadQuorum(Quorum(2))), TimeoutMillis(5000));
    assert c.options == map[R := ReadQuorum(Quorum(2)), Timeout := TimeoutMillis(5000)];
  }

  /**
   The worked example, response side: a one-object reply that is found, not
   unchanged and carries a vector clock comes back as that object converted,
   with the clock, and neither flag set; if the converter rejects the object,
   the call ends in that failure instead.
   */
  lemma OneObjectReplyExample<O, T, E>(c: Command<O, T>, obj: O, clock: VClock, cluster: Cluster<O, E>)
    requires cluster(Translate(c.location, c.options)) == Success(RawResponse([obj], false, false, Some(clock)))
    ensures c.convert([obj]).Failure? ==> Execute(c, cluster) == Failure(ConversionFailed(c.convert([obj]).error))
    ensures c.convert([obj]).Success? ==> Execute(c, cluster).Success?
    ensures c.convert([obj]).Success? ==>
      var resp := Execute(c, cluster).value;
      && resp.GetValue() == c.convert([obj]).value && resp.GetVClock() == Some(clock) && resp.HasVClock()
      && !resp.IsNotFound() && !resp.IsUnchanged()
  {
  }
}
