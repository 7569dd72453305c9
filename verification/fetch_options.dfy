/**
 The per-request options of a fetch: the closed set of option kinds, an
 option value typed by its kind, and the option set the command keeps,
 one entry per kind with the last write winning.
 */
module FetchOptions {
  import opened Wrappers
  import opened RiakTypes

  /** The kinds of fetch option; each kind accepts exactly one value type. */
  datatype OptionType =
    | R | PR | NVal | Timeout | DeletedVClock | Head
    | BasicQuorum | IfModified | SloppyQuorum | NotFoundOk

  /** An option together with its value, typed by its kind. */
  datatype FetchOption =
    | ReadQuorum(quorum: Quorum)
    | PrimaryReadQuorum(quorum: Quorum)
    | ReplicationFactor(nVal: int32)
    | TimeoutMillis(millis: int32)
    | ReturnDeletedVClock(flag: bool)
    | HeadOnly(flag: bool)
    | UseBasicQuorum(flag: bool)
    | IfNotModified(clock: VClock)
    | UseSloppyQuorum(flag: bool)
    | AcceptNotFound(flag: bool)

  /** The kind an option value belongs to. */
  function TypeOf(o: FetchOption): OptionType {
    match o
    case ReadQuorum(_) => R
    case PrimaryReadQuorum(_) => PR
    case ReplicationFactor(_) => NVal
    case TimeoutMillis(_) => Timeout
    case ReturnDeletedVClock(_) => DeletedVClock
    case HeadOnly(_) => Head
    case UseBasicQuorum(_) => BasicQuorum
    case IfNotModified(_) => IfModified
    case UseSloppyQuorum(_) => SloppyQuorum
    case AcceptNotFound(_) => NotFoundOk
  }

  /** Every stored value belongs to the kind it is stored under. */
  predicate WellTyped(m: map<OptionType, FetchOption>) {
    forall t | t in m :: TypeOf(m[t]) == t
  }

  /** The command's option map: keyed by kind, typed at insertion. */
  type OptionSet = m: map<OptionType, FetchOption> | WellTyped(m) witness map[]

  /** Stores `o` under its kind, replacing whatever that kind held. */
  function Put(m: OptionSet, o: FetchOption): (m': OptionSet)
    ensures TypeOf(o) in m' && m'[TypeOf(o)] == o
    ensures m'.Keys == m.Keys + {TypeOf(o)}
    ensures forall t :: t in m && t != TypeOf(o) ==> m'[t] == m[t]
  {
    m[TypeOf(o) := o]
  }

  /** The option set after putting `xs` in order, first to last. */
  function PutAll(m: OptionSet, xs: seq<FetchOption>): OptionSet
    decreases |xs|
  {
    if xs == [] then m else Put(PutAll(m, xs[..|xs| - 1]), xs[|xs| - 1])
  }

  /** The last option of kind `t` in `xs`, if any. */
  function LastOfType(xs: seq<FetchOption>, t: OptionType): Option<FetchOption>
    decreases |xs|
  {
    if xs == [] then None
    else if TypeOf(xs[|xs| - 1]) == t then Some(xs[|xs| - 1])
    else LastOfType(xs[..|xs| - 1], t)
  }

  /** No two options in `xs` share a kind. */
  predicate DistinctTypes(xs: seq<FetchOption>) {
    forall i, j | 0 <= i < j < |xs| :: TypeOf(xs[i]) != TypeOf(xs[j])
  }

  /** Putting the same kind twice keeps only the second value. */
  lemma PutLastWriteWins(m: OptionSet, a: FetchOption, b: FetchOption)
    requires TypeOf(a) == TypeOf(b)
    ensures Put(Put(m, a), b) == Put(m, b)
  {
  }

  /** Putting two options of different kinds commutes. */
  lemma PutCommutes(m: OptionSet, a: FetchOption, b: FetchOption)
    requires TypeOf(a) != TypeOf(b)
    ensures Put(Put(m, a), b) == Put(Put(m, b), a)
  {
  }

  /**
   After a run of puts, each kind holds the last option of that kind in the
   run, or what it held before when the run has none.
   */
  lemma {:induction false} PutAllLookup(m: OptionSet, xs: seq<FetchOption>, t: OptionType)
    ensures LastOfType(xs, t).Some? ==>
              t in PutAll(m, xs) && PutAll(m, xs)[t] == LastOfType(xs, t).value
    ensures LastOfType(xs, t).None? ==>
              (t in PutAll(m, xs) <==> t in m) && (t in m ==> PutAll(m, xs)[t] == m[t])
    decreases |xs|
  {
    if xs != [] {
      PutAllLookup(m, xs[..|xs| - 1], t);
    }
  }

  /** The last option of a kind is an element of the run, of that kind; when
      kinds are distinct, every element is the last of its kind. */
  lemma {:induction false} LastOfTypeDistinct(xs: seq<FetchOption>, o: FetchOption)
    requires DistinctTypes(xs)
    ensures LastOfType(xs, TypeOf(o)) == Some(o) <==> o in xs
    decreases |xs|
  {
    if xs != [] {
      var init := xs[..|xs| - 1];
      assert DistinctTypes(init);
      LastOfTypeDistinct(init, o);
      assert xs == init + [xs[|xs| - 1]];
    }
  }

  /** Puts of options of distinct kinds may be issued in any order. */
  lemma {:induction false} PutAllOrderIndependent(m: OptionSet, xs: seq<FetchOption>, ys: seq<FetchOption>)
    requires DistinctTypes(xs) && DistinctTypes(ys)
    requires multiset(xs) == multiset(ys)
    ensures PutAll(m, xs) == PutAll(m, ys)
  {
    forall t
      ensures t in PutAll(m, xs) <==> t in PutAll(m, ys)
      ensures t in PutAll(m, xs) ==> PutAll(m, xs)[t] == PutAll(m, ys)[t]
    {
      PutAllLookup(m, xs, t);
      PutAllLookup(m, ys, t);
      var lx, ly := LastOfType(xs, t), LastOfType(ys, t);
      if lx.Some? {
        LastOfTypeSound(xs, t);
        LastOfTypeDistinct(xs, lx.value);
        assert lx.value in multiset(ys);
        LastOfTypeDistinct(ys, lx.value);
      } else if ly.Some? {
        LastOfTypeSound(ys, t);
        LastOfTypeDistinct(ys, ly.value);
        assert ly.value in multiset(xs);
        LastOfTypeDistinct(xs, ly.value);
      }
    }
  }

  /** The last option of kind `t` is an element of `xs` of kind `t`. */
  lemma {:induction false} LastOfTypeSound(xs: seq<FetchOption>, t: OptionType)
    ensures LastOfType(xs, t).Some? ==>
              LastOfType(xs, t).value in xs && TypeOf(LastOfType(xs, t).value) == t
    decreases |xs|
  {
    if xs != [] {
      LastOfTypeSound(xs[..|xs| - 1], t);
    }
  }
}
