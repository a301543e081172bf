/** Properties of the registry: key derivation, validity arithmetic, error mapping,
    the lifecycle of one attribute, and invariants over any sequence of extrinsics. */
module DidProperties {
  import opened Wrappers
  import opened Did
  import opened Structs
  import opened DidPallet

  /** Equal inputs give equal keys and distinct (owner, name, nonce) give distinct
      keys; in particular two owners never share a key. */
  lemma DeriveKeyInjective(o1: AccountId, n1: Bytes, k1: Nonce, o2: AccountId, n2: Bytes, k2: Nonce)
    ensures DeriveKey(o1, n1, k1) == DeriveKey(o2, n2, k2) <==> (o1, n1, k1) == (o2, n2, k2)
  {
  }

  /** A stored validity is an absolute height: `now + blocks`, or `u32::MAX`. */
  lemma ValidityIsAbsolute(now: BlockNumber, validFor: Option<BlockNumber>)
    ensures validFor.Some? ==> Validity(now, validFor) == now + validFor.value >= now
    ensures validFor == Some(0) ==> Validity(now, validFor) == now
    ensures validFor.None? ==> Validity(now, validFor) == U32_MAX
  {
  }

  /** As written, `dispatch_error` sends both storage failures to the same pallet
      error and never yields `AttributeUpdateFailed`. */
  lemma DispatchErrorConflatesFailures()
    ensures DispatchError(FailedUpdate) == DispatchError(FailedCreate) == AttributeCreationFailed
    ensures forall e :: DispatchError(e) != AttributeUpdateFailed
  {
  }

  /** The corrected mapping loses no information, and it agrees with the mapping
      as written on every error except `FailedUpdate`. */
  lemma DispatchErrorCorrectedInjective(e1: DidError, e2: DidError)
    ensures DispatchErrorCorrected(e1) == DispatchErrorCorrected(e2) ==> e1 == e2
    ensures e1 != FailedUpdate ==> DispatchErrorCorrected(e1) == DispatchError(e1)
  {
  }

  /** At most one record exists per (owner, name) in a well-formed state, and it
      is the one `Lookup` returns. */
  lemma AtMostOneRecordPerName(s: State, owner: AccountId, k1: StorageKey, k2: StorageKey)
    requires WellFormed(s)
    requires (owner, k1) in s.attributes && (owner, k2) in s.attributes
    requires s.attributes[(owner, k1)].name == s.attributes[(owner, k2)].name
    ensures k1 == k2
    ensures Lookup(s, owner, s.attributes[(owner, k1)].name) == Some(s.attributes[(owner, k1)])
  {
  }

  /** Creating twice under the same name leaves exactly the second record. */
  lemma RecreateOverwrites(s: State, env1: Env, env2: Env, owner: AccountId, name: Bytes,
                           v1: Bytes, v2: Bytes, f1: Option<BlockNumber>, f2: Option<BlockNumber>)
    ensures var t := Create(Create(s, env1, owner, name, v1, f1).0, env2, owner, name, v2, f2).0;
      && Lookup(t, owner, name)
         == Some(Attribute(name, v2, Validity(env2.block, f2), env2.moment, NonceOf(s, owner, name)))
      && t.attributes.Keys == s.attributes.Keys + {(owner, KeyOf(s, owner, name))}
  {
  }

  /** Create, then mutate: the value and validity are the new ones, while name,
      creation moment and nonce are those of the create. */
  lemma CreateThenMutate(s: State, env1: Env, env2: Env, owner: AccountId, name: Bytes,
                         v1: Bytes, v2: Bytes, f1: Option<BlockNumber>, f2: Option<BlockNumber>)
    ensures var (t, r) := Mutate(Create(s, env1, owner, name, v1, f1).0, env2, owner, name, v2, f2);
      && r == Pass
      && Lookup(t, owner, name)
         == Some(Attribute(name, v2, Validity(env2.block, f2), env1.moment, NonceOf(s, owner, name)))
  {
  }

  /** Create, then delete: the attribute is gone, a second delete reports
      `NotFound`, and a mutate reports `NotFound` too. */
  lemma CreateThenDelete(s: State, env: Env, owner: AccountId, name: Bytes, value: Bytes,
                         validFor: Option<BlockNumber>)
    ensures var (t, r) := Delete(Create(s, env, owner, name, value, validFor).0, owner, name);
      && r == Pass
      && Lookup(t, owner, name) == None
      && Delete(t, owner, name) == (t, Fail(NotFound))
      && Mutate(t, env, owner, name, value, validFor) == (t, Fail(NotFound))
  {
  }

  /** One extrinsic call with its signed sender. */
  datatype Call =
    | AddAttribute(name: Bytes, value: Bytes, validFor: Option<BlockNumber>)
    | UpdateAttribute(name: Bytes, value: Bytes, validFor: Option<BlockNumber>)
    | ReadAttribute(name: Bytes)
    | RemoveAttribute(name: Bytes)

  datatype Extrinsic = Extrinsic(env: Env, sender: AccountId, call: Call)

  function Dispatch(s: State, x: Extrinsic): (r: (State, DispatchResult))
  {
    match x.call
    case AddAttribute(name, value, validFor) => Add(s, x.env, x.sender, name, value, validFor)
    case UpdateAttribute(name, value, validFor) => Update(s, x.env, x.sender, name, value, validFor)
    case ReadAttribute(name) => Read(s, x.sender, name)
    case RemoveAttribute(name) => Remove(s, x.env, x.sender, name)
  }

  /** The state after executing the extrinsics in order. */
  function Run(s: State, xs: seq<Extrinsic>): State
    decreases |xs|
  {
    if xs == [] then s else Run(Dispatch(s, xs[0]).0, xs[1..])
  }

  /** What every extrinsic keeps: the nonce map, well-formedness, an event log
      extended exactly on success, and the lookups of every other owner. */
  ghost predicate StepKeeps(s: State, t: State, r: DispatchResult, sender: AccountId)
  {
    && t.nonces == s.nonces
    && (WellFormed(s) ==> WellFormed(t))
    && s.events <= t.events
    && |t.events| <= |s.events| + 1
    && (t.events == s.events <==> r.Fail?)
    && forall o, n | o != sender :: Lookup(t, o, n) == Lookup(s, o, n)
  }

  lemma AddStep(s: State, env: Env, sender: AccountId, name: Bytes, value: Bytes,
                validFor: Option<BlockNumber>)
    ensures var (t, r) := Add(s, env, sender, name, value, validFor); StepKeeps(s, t, r, sender)
  {
  }

  lemma UpdateStep(s: State, env: Env, sender: AccountId, name: Bytes, value: Bytes,
                   validFor: Option<BlockNumber>)
    ensures var (t, r) := Update(s, env, sender, name, value, validFor); StepKeeps(s, t, r, sender)
  {
  }

  lemma ReadStep(s: State, sender: AccountId, name: Bytes)
    ensures var (t, r) := Read(s, sender, name); StepKeeps(s, t, r, sender)
  {
  }

  lemma RemoveStep(s: State, env: Env, sender: AccountId, name: Bytes)
    ensures var (t, r) := Remove(s, env, sender, name); StepKeeps(s, t, r, sender)
  {
  }

  /** A single dispatch never writes the nonce map, keeps the store well formed,
      appends an event exactly when it succeeds, and touches no attribute of
      another owner. */
  lemma DispatchStep(s: State, x: Extrinsic)
    ensures StepKeeps(s, Dispatch(s, x).0, Dispatch(s, x).1, x.sender)
  {
    match x.call
    case AddAttribute(name, value, validFor) => AddStep(s, x.env, x.sender, name, value, validFor);
    case UpdateAttribute(name, value, validFor) => UpdateStep(s, x.env, x.sender, name, value, validFor);
    case ReadAttribute(name) => ReadStep(s, x.sender, name);
    case RemoveAttribute(name) => RemoveStep(s, x.env, x.sender, name);
  }

  /** No sequence of extrinsics ever writes `AttributeNonce`. */
  lemma {:induction false} RunKeepsNonces(s: State, xs: seq<Extrinsic>)
    ensures Run(s, xs).nonces == s.nonces
    decreases |xs|
  {
    if xs != [] {
      DispatchStep(s, xs[0]);
      RunKeepsNonces(Dispatch(s, xs[0]).0, xs[1..]);
    }
  }

  /** Starting from genesis, every nonce stays 0, so every (owner, name) always
      maps to the key derived with nonce 0. */
  lemma NoncesStayZero(xs: seq<Extrinsic>, owner: AccountId, name: Bytes)
    ensures NonceOf(Run(Genesis(), xs), owner, name) == 0
    ensures KeyOf(Run(Genesis(), xs), owner, name) == DeriveKey(owner, name, 0)
  {
    RunKeepsNonces(Genesis(), xs);
  }

  /** Every sequence of extrinsics keeps the store well formed. */
  lemma {:induction false} RunPreservesWellFormed(s: State, xs: seq<Extrinsic>)
    requires WellFormed(s)
    ensures WellFormed(Run(s, xs))
    decreases |xs|
  {
    if xs != [] {
      DispatchStep(s, xs[0]);
      RunPreservesWellFormed(Dispatch(s, xs[0]).0, xs[1..]);
    }
  }

  /** Every reachable state is well formed: each stored attribute is found by
      `Lookup` under its own name. */
  lemma ReachableRecordsAreFound(xs: seq<Extrinsic>, owner: AccountId, key: StorageKey)
    requires (owner, key) in Run(Genesis(), xs).attributes
    ensures var s := Run(Genesis(), xs);
      Lookup(s, owner, s.attributes[(owner, key)].name) == Some(s.attributes[(owner, key)])
  {
    RunPreservesWellFormed(Genesis(), xs);
  }

  /** Extrinsics signed by other accounts never change what an owner's attributes
      look up to. */
  lemma {:induction false} RunIsolatesOwners(s: State, xs: seq<Extrinsic>, owner: AccountId, name: Bytes)
    requires forall i | 0 <= i < |xs| :: xs[i].sender != owner
    ensures Lookup(Run(s, xs), owner, name) == Lookup(s, owner, name)
    decreases |xs|
  {
    if xs != [] {
      DispatchStep(s, xs[0]);
      RunIsolatesOwners(Dispatch(s, xs[0]).0, xs[1..], owner, name);
    }
  }

  /** The event log only grows, and never beyond one event per extrinsic. */
  lemma {:induction false} RunAppendsEvents(s: State, xs: seq<Extrinsic>)
    ensures s.events <= Run(s, xs).events
    ensures |Run(s, xs).events| <= |s.events| + |xs|
    decreases |xs|
  {
    if xs != [] {
      DispatchStep(s, xs[0]);
      RunAppendsEvents(Dispatch(s, xs[0]).0, xs[1..]);
    }
  }
}
