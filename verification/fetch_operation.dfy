/**
 The fetch request a FetchValue command hands to the cluster: a record with
 the three structural fields and one optional field per option kind, the
 setter each option drives, and the translation of a whole option set.
 */
module FetchOperation {
  import opened Wrappers
  import opened RiakTypes
  import opened FetchOptions

  /** The built fetch operation; an unset option field is `None`. */
  datatype FetchRequest = FetchRequest(
    bucketType: Bytes,
    bucket: Bytes,
    key: Bytes,
    r: Option<int32>,
    pr: Option<int32>,
    nVal: Option<int32>,
    timeout: Option<int32>,
    returnDeletedVClock: Option<bool>,
    headOnly: Option<bool>,
    basicQuorum: Option<bool>,
    ifNotModified: Option<Bytes>,
    sloppyQuorum: Option<bool>,
    notFoundOk: Option<bool>)

  /** What a request field carries, uniform over the three field types. */
  datatype WireValue = IntValue(i: int32) | BoolValue(b: bool) | BytesValue(bytes: Bytes)

  /** What the setter for `o`'s kind receives: a quorum's integer value, a
      vector clock's bytes, or the stored value itself. */
  function WireOf(o: FetchOption): WireValue {
    match o
    case ReadQuorum(q) => IntValue(q.GetIntValue())
    case PrimaryReadQuorum(q) => IntValue(q.GetIntValue())
    case ReplicationFactor(n) => IntValue(n)
    case TimeoutMillis(ms) => IntValue(ms)
    case ReturnDeletedVClock(b) => BoolValue(b)
    case HeadOnly(b) => BoolValue(b)
    case UseBasicQuorum(b) => BoolValue(b)
    case IfNotModified(clock) => BytesValue(clock.GetBytes())
    case UseSloppyQuorum(b) => BoolValue(b)
    case AcceptNotFound(b) => BoolValue(b)
  }

  function IntField(v: Option<int32>): Option<WireValue> {
    if v.Some? then Some(IntValue(v.value)) else None
  }

  function BoolField(v: Option<bool>): Option<WireValue> {
    if v.Some? then Some(BoolValue(v.value)) else None
  }

  function BytesField(v: Option<Bytes>): Option<WireValue> {
    if v.Some? then Some(BytesValue(v.value)) else None
  }

  /** The request field that options of kind `t` set. */
  function Field(req: FetchRequest, t: OptionType): Option<WireValue> {
    match t
    case R => IntField(req.r)
    case PR => IntField(req.pr)
    case NVal => IntField(req.nVal)
    case Timeout => IntField(req.timeout)
    case DeletedVClock => BoolField(req.returnDeletedVClock)
    case Head => BoolField(req.headOnly)
    case BasicQuorum => BoolField(req.basicQuorum)
    case IfModified => BytesField(req.ifNotModified)
    case SloppyQuorum => BoolField(req.sloppyQuorum)
    case NotFoundOk => BoolField(req.notFoundOk)
  }

  /** The request addresses `loc`. */
  predicate Addresses(req: FetchRequest, loc: Location) {
    req.bucketType == loc.bucketType && req.bucket == loc.bucket && req.key == loc.key
  }

  /** The field an option set asks for under kind `t`. */
  function Wanted(m: OptionSet, t: OptionType): Option<WireValue> {
    if t in m then Some(WireOf(m[t])) else None
  }

  /** `req` is the request the option set `m` describes for `loc`. */
  ghost predicate Realizes(req: FetchRequest, loc: Location, m: OptionSet) {
    Addresses(req, loc) && forall t :: Field(req, t) == Wanted(m, t)
  }

  /** A builder seeded with bucket and key, then given the bucket type. */
  function Seed(loc: Location): (req: FetchRequest)
    ensures Addresses(req, loc)
    ensures forall t :: Field(req, t) == None
  {
    FetchRequest(loc.bucketType, loc.bucket, loc.key,
                 None, None, None, None, None, None, None, None, None, None)
  }

  /** The one setter call an option makes on the builder. */
  function Apply(req: FetchRequest, o: FetchOption): (req': FetchRequest)
    ensures req'.bucketType == req.bucketType && req'.bucket == req.bucket && req'.key == req.key
    ensures Field(req', TypeOf(o)) == Some(WireOf(o))
    ensures forall t :: t != TypeOf(o) ==> Field(req', t) == Field(req, t)
  {
    match o
    case ReadQuorum(q) => req.(r := Some(q.GetIntValue()))
    case PrimaryReadQuorum(q) => req.(pr := Some(q.GetIntValue()))
    case ReplicationFactor(n) => req.(nVal := Some(n))
    case TimeoutMillis(ms) => req.(timeout := Some(ms))
    case ReturnDeletedVClock(b) => req.(returnDeletedVClock := Some(b))
    case HeadOnly(b) => req.(headOnly := Some(b))
    case UseBasicQuorum(b) => req.(basicQuorum := Some(b))
    case IfNotModified(clock) => req.(ifNotModified := Some(clock.GetBytes()))
    case UseSloppyQuorum(b) => req.(sloppyQuorum := Some(b))
    case AcceptNotFound(b) => req.(notFoundOk := Some(b))
  }

  /**
   The request an option set describes for `loc`, field by field: the
   location's parts, then for each kind the translated stored option, or
   unset when the kind is absent. `BuildRequest` computes it the way
   `execute` does, one setter call per entry.
   */
  function Translate(loc: Location, m: OptionSet): FetchRequest {
    FetchRequest(
      loc.bucketType, loc.bucket, loc.key,
      if R in m then Some(m[R].quorum.GetIntValue()) else None,
      if PR in m then Some(m[PR].quorum.GetIntValue()) else None,
      if NVal in m then Some(m[NVal].nVal) else None,
      if Timeout in m then Some(m[Timeout].millis) else None,
      if DeletedVClock in m then Some(m[DeletedVClock].flag) else None,
      if Head in m then Some(m[Head].flag) else None,
      if BasicQuorum in m then Some(m[BasicQuorum].flag) else None,
      if IfModified in m then Some(m[IfModified].clock.GetBytes()) else None,
      if SloppyQuorum in m then Some(m[SloppyQuorum].flag) else None,
      if NotFoundOk in m then Some(m[NotFoundOk].flag) else None)
  }

  /** The request `Translate` gives is the one the option set describes. */
  lemma TranslateRealizes(loc: Location, m: OptionSet)
    ensures Realizes(Translate(loc, m), loc, m)
  {
    var req := Translate(loc, m);
    forall t ensures Field(req, t) == Wanted(m, t) {
      if t in m {
        assert TypeOf(m[t]) == t;
      }
    }
  }

  /** At most one request realizes an option set: the structural fields and
      the option fields together determine the request. */
  lemma RealizesUnique(a: FetchRequest, b: FetchRequest, loc: Location, m: OptionSet)
    requires Realizes(a, loc, m) && Realizes(b, loc, m)
    ensures a == b
  {
    assert Field(a, R) == Field(b, R);
    assert Field(a, PR) == Field(b, PR);
    assert Field(a, NVal) == Field(b, NVal);
    assert Field(a, Timeout) == Field(b, Timeout);
    assert Field(a, DeletedVClock) == Field(b, DeletedVClock);
    assert Field(a, Head) == Field(b, Head);
    assert Field(a, BasicQuorum) == Field(b, BasicQuorum);
    assert Field(a, IfModified) == Field(b, IfModified);
    assert Field(a, SloppyQuorum) == Field(b, SloppyQuorum);
    assert Field(a, NotFoundOk) == Field(b, NotFoundOk);
  }

  /**
   The option loop of `execute` with the map's entries visited in an
   arbitrary order: whatever order is taken, the request is the one
   `Translate` describes.
   */
  method BuildRequest(loc: Location, m: OptionSet) returns (req: FetchRequest)
    ensures Realizes(req, loc, m)
    ensures req == Translate(loc, m)
  {
    req := Seed(loc);
    var pending := m.Keys;
    while pending != {}
      invariant pending <= m.Keys
      invariant Addresses(req, loc)
      invariant forall t :: Field(req, t) == if t in pending then None else Wanted(m, t)
      decreases pending
    {
      var t :| t in pending;
      req := Apply(req, m[t]);
      pending := pending - {t};
    }
    TranslateRealizes(loc, m);
    RealizesUnique(req, Translate(loc, m), loc, m);
  }

  /** In the request an option set describes, R and PR carry the stored
      quorum's integer value, and are unset when absent. */
  lemma RealizedQuorumFields(req: FetchRequest, loc: Location, m: OptionSet)
    requires Realizes(req, loc, m)
    ensures req.r == (if R in m then Some(m[R].quorum.GetIntValue()) else None)
    ensures req.pr == (if PR in m then Some(m[PR].quorum.GetIntValue()) else None)
  {
    assert Field(req, R) == Wanted(m, R);
    assert Field(req, PR) == Wanted(m, PR);
  }

  /** IF_MODIFIED carries the stored vector clock's bytes, and is unset when absent. */
  lemma RealizedClockField(req: FetchRequest, loc: Location, m: OptionSet)
    requires Realizes(req, loc, m)
    ensures req.ifNotModified == (if IfModified in m then Some(m[IfModified].clock.GetBytes()) else None)
  {
    assert Field(req, IfModified) == Wanted(m, IfModified);
  }

  /** The integer and boolean kinds carry the stored value as is, and are unset when absent. */
  lemma RealizedPlainFields(req: FetchRequest, loc: Location, m: OptionSet)
    requires Realizes(req, loc, m)
    ensures req.nVal == (if NVal in m then Some(m[NVal].nVal) else None)
    ensures req.timeout == (if Timeout in m then Some(m[Timeout].millis) else None)
    ensures req.returnDeletedVClock == (if DeletedVClock in m then Some(m[DeletedVClock].flag) else None)
    ensures req.headOnly == (if Head in m then Some(m[Head].flag) else None)
    ensures req.basicQuorum == (if BasicQuorum in m then Some(m[BasicQuorum].flag) else None)
    ensures req.sloppyQuorum == (if SloppyQuorum in m then Some(m[SloppyQuorum].flag) else None)
    ensures req.notFoundOk == (if NotFoundOk in m then Some(m[NotFoundOk].flag) else None)
  {
    assert Field(req, NVal) == Wanted(m, NVal);
    assert Field(req, Timeout) == Wanted(m, Timeout);
    assert Field(req, DeletedVClock) == Wanted(m, DeletedVClock);
    assert Field(req, Head) == Wanted(m, Head);
    assert Field(req, BasicQuorum) == Wanted(m, BasicQuorum);
    assert Field(req, SloppyQuorum) == Wanted(m, SloppyQuorum);
    assert Field(req, NotFoundOk) == Wanted(m, NotFoundOk);
  }

  /** With no options the request is the seeded builder: structural fields only. */
  lemma EmptyOptionsGiveStructuralOnly(loc: Location)
    ensures Translate(loc, map[]) == Seed(loc)
  {
    TranslateRealizes(loc, map[]);
    RealizesUnique(Translate(loc, map[]), Seed(loc), loc, map[]);
  }

  /** The last option put for a kind is the one the request carries. */
  lemma LastWriteReachesRequest(loc: Location, m: OptionSet, a: FetchOption, b: FetchOption)
    requires TypeOf(a) == TypeOf(b)
    ensures Translate(loc, Put(Put(m, a), b)) == Translate(loc, Put(m, b))
    ensures Field(Translate(loc, Put(Put(m, a), b)), TypeOf(b)) == Some(WireOf(b))
  {
    PutLastWriteWins(m, a, b);
    TranslateRealizes(loc, Put(m, b));
  }

  /** A single option sets exactly its own field; every other option field stays unset. */
  lemma SingleOptionSetsOnlyItsField(loc: Location, o: FetchOption)
    ensures var req := Translate(loc, Put(map[], o));
      && Addresses(req, loc)
      && Field(req, TypeOf(o)) == Some(WireOf(o))
      && forall t :: t != TypeOf(o) ==> Field(req, t) == None
  {
    TranslateRealizes(loc, Put(map[], o));
  }
}
