/** The DID attribute registry pallet: its storage, the `Did` trait implementation
    (create, mutate, get, delete) and the four extrinsics that wrap it. */
module DidPallet {
  import opened Wrappers
  import opened Did
  import opened Structs

  /** Longest attribute name the extrinsics accept. */
  const MAX_NAME_LEN: nat := 64

  /** Errors the pallet reports to the caller of an extrinsic. */
  datatype PalletError =
    | AttributeNameExceedMax64
    | AttributeCreationFailed
    | AttributeUpdateFailed
    | AttributeNotFound
    | AttributeAlreadyExist

  type DispatchResult = Outcome<PalletError>

  /** Events deposited by the extrinsics. */
  datatype Event =
    | AttributeAdded(who: AccountId, name: Bytes, value: Bytes, validFor: Option<BlockNumber>)
    | AttributeRead(attribute: Attribute)
    | AttributeUpdated(who: AccountId, name: Bytes, value: Bytes, validFor: Option<BlockNumber>)
    | AttributeRemoved(who: AccountId, name: Bytes, block: Option<BlockNumber>)

  /** The two host values an operation reads: the current block number and the
      current moment of the time source. */
  datatype Env = Env(block: BlockNumber, moment: Moment)

  /** The 32-byte storage key `blake2_256((owner, name, nonce))`. The hash is kept
      symbolic: two keys are equal exactly when their inputs are, which is the
      collision resistance the pallet relies on. */
  datatype StorageKey = Derived(owner: AccountId, name: Bytes, nonce: Nonce)

  function DeriveKey(owner: AccountId, name: Bytes, nonce: Nonce): (k: StorageKey)
    ensures (k.owner, k.name, k.nonce) == (owner, name, nonce)
  {
    Derived(owner, name, nonce)
  }

  /** The absolute expiry height for an attribute written at height `now`. */
  function Validity(now: BlockNumber, validFor: Option<BlockNumber>): (v: BlockNumber)
    ensures validFor.Some? ==> v - now == validFor.value
    ensures validFor.None? ==> v == U32_MAX
  {
    match validFor
    case Some(blocks) => now + blocks
    case None => U32_MAX
  }

  /** `Error::dispatch_error` as written: both storage failures become
      `AttributeCreationFailed`. */
  function DispatchError(err: DidError): (r: PalletError)
    ensures r != AttributeUpdateFailed
  {
    match err
    case NotFound => AttributeNotFound
    case NameExceedMaxChar => AttributeNameExceedMax64
    case AlreadyExist => AttributeAlreadyExist
    case FailedCreate => AttributeCreationFailed
    case FailedUpdate => AttributeCreationFailed
  }

  /** `Error::dispatch_error` with `FailedUpdate` reported as `AttributeUpdateFailed`,
      so that every trait error has a pallet error of its own. */
  function DispatchErrorCorrected(err: DidError): (r: PalletError)
    ensures err == FailedUpdate <==> r == AttributeUpdateFailed
    ensures err == FailedCreate <==> r == AttributeCreationFailed
  {
    match err
    case NotFound => AttributeNotFound
    case NameExceedMaxChar => AttributeNameExceedMax64
    case AlreadyExist => AttributeAlreadyExist
    case FailedCreate => AttributeCreationFailed
    case FailedUpdate => AttributeUpdateFailed
  }

  /** The pallet's storage, as a value: `AttributeStore`, `AttributeNonce`, and the
      events deposited so far. */
  datatype State = State(
    attributes: map<(AccountId, StorageKey), Attribute>,
    nonces: map<(AccountId, Bytes), Nonce>,
    events: seq<Event>)

  /** Storage before any extrinsic has run. */
  function Genesis(): State
  {
    State(map[], map[], [])
  }

  /** `nonce_of`: the counter of (owner, name), 0 when absent. */
  function NonceOf(s: State, owner: AccountId, name: Bytes): (n: Nonce)
    ensures (owner, name) !in s.nonces ==> n == 0
    ensures (owner, name) in s.nonces ==> n == s.nonces[(owner, name)]
  {
    if (owner, name) in s.nonces then s.nonces[(owner, name)] else 0
  }

  /** The key every operation on (owner, name) uses in state `s`. */
  function KeyOf(s: State, owner: AccountId, name: Bytes): (k: StorageKey)
    ensures k.owner == owner && k.name == name && k.nonce == NonceOf(s, owner, name)
    ensures (owner, name) !in s.nonces ==> k == DeriveKey(owner, name, 0)
  {
    DeriveKey(owner, name, NonceOf(s, owner, name))
  }

  /** Every stored record sits at the key derived from its owner, its own name and
      its own nonce, and that nonce is the current counter of its name. */
  ghost predicate WellFormed(s: State)
  {
    forall p | p in s.attributes ::
      && s.attributes[p].nonce == NonceOf(s, p.0, s.attributes[p].name)
      && p.1 == KeyOf(s, p.0, s.attributes[p].name)
  }

  /** `t` differs from `s` at most in the store entry (owner, key). */
  ghost predicate OnlyEntryChanged(s: State, t: State, owner: AccountId, key: StorageKey)
  {
    && t.attributes - {(owner, key)} == s.attributes - {(owner, key)}
    && t.nonces == s.nonces
    && t.events == s.events
  }

  /** `get_attribute`: the record stored under the current key of (owner, name).
      In a well-formed state it is the attribute called `name` of the current
      generation. */
  function Lookup(s: State, owner: AccountId, name: Bytes): (r: Option<Attribute>)
    ensures WellFormed(s) && r.Some? ==> r.value.name == name && r.value.nonce == NonceOf(s, owner, name)
  {
    var id := KeyOf(s, owner, name);
    if (owner, id) in s.attributes then Some(s.attributes[(owner, id)]) else None
  }

  /** `create_attribute`: an unconditional upsert at the current key. */
  function Create(s: State, env: Env, owner: AccountId, name: Bytes, value: Bytes,
                  validFor: Option<BlockNumber>): (r: (State, Outcome<DidError>))
    ensures r.1 == Pass
    ensures Lookup(r.0, owner, name)
         == Some(Attribute(name, value, Validity(env.block, validFor), env.moment, NonceOf(s, owner, name)))
    ensures OnlyEntryChanged(s, r.0, owner, KeyOf(s, owner, name))
    ensures forall o, n | (o, n) != (owner, name) :: Lookup(r.0, o, n) == Lookup(s, o, n)
    ensures WellFormed(s) ==> WellFormed(r.0)
  {
    var validity := Validity(env.block, validFor);
    var nonce := NonceOf(s, owner, name);
    var id := DeriveKey(owner, name, nonce);
    var attribute := Attribute(name, value, validity, env.moment, nonce);
    (s.(attributes := s.attributes[(owner, id) := attribute]), Pass)
  }

  /** `mutate_attribute`: replace the value and the validity of an existing
      attribute, keeping its name, creation moment and nonce. */
  function Mutate(s: State, env: Env, owner: AccountId, name: Bytes, value: Bytes,
                  validFor: Option<BlockNumber>): (r: (State, Outcome<DidError>))
    ensures r.1 == if Lookup(s, owner, name).Some? then Pass else Fail(NotFound)
    ensures r.1.Fail? ==> r.0 == s
    ensures r.1.Pass? ==>
      Lookup(r.0, owner, name)
      == Some(Lookup(s, owner, name).value.(value := value, validity := Validity(env.block, validFor)))
    ensures OnlyEntryChanged(s, r.0, owner, KeyOf(s, owner, name))
    ensures forall o, n | (o, n) != (owner, name) :: Lookup(r.0, o, n) == Lookup(s, o, n)
    ensures WellFormed(s) ==> WellFormed(r.0)
  {
    var validity := Validity(env.block, validFor);
    match Lookup(s, owner, name)
    case Some(attr) =>
      var nonce := NonceOf(s, owner, name);
      var id := DeriveKey(owner, name, nonce);
      var updated := attr.(value := value, validity := validity);
      (s.(attributes := s.attributes[(owner, id) := updated]), Pass)
    case None => (s, Fail(NotFound))
  }

  /** `delete_attribute`: remove the attribute under the current key. */
  function Delete(s: State, owner: AccountId, name: Bytes): (r: (State, Outcome<DidError>))
    ensures r.1 == if Lookup(s, owner, name).Some? then Pass else Fail(NotFound)
    ensures r.1.Fail? ==> r.0 == s
    ensures Lookup(r.0, owner, name) == None
    ensures OnlyEntryChanged(s, r.0, owner, KeyOf(s, owner, name))
    ensures forall o, n | (o, n) != (owner, name) :: Lookup(r.0, o, n) == Lookup(s, o, n)
    ensures WellFormed(s) ==> WellFormed(r.0)
  {
    var nonce := NonceOf(s, owner, name);
    var id := DeriveKey(owner, name, nonce);
    if (owner, id) !in s.attributes then (s, Fail(NotFound))
    else (s.(attributes := s.attributes - {(owner, id)}), Pass)
  }

  /** The `add_attribute` extrinsic. */
  function Add(s: State, env: Env, sender: AccountId, name: Bytes, value: Bytes,
               validFor: Option<BlockNumber>): (r: (State, DispatchResult))
    ensures |name| > MAX_NAME_LEN ==> r == (s, Fail(AttributeNameExceedMax64))
    ensures |name| <= MAX_NAME_LEN ==>
      && r.1 == Pass
      && r.0.attributes == Create(s, env, sender, name, value, validFor).0.attributes
      && r.0.nonces == s.nonces
      && r.0.events == s.events + [AttributeAdded(sender, name, value, validFor)]
  {
    if |name| > MAX_NAME_LEN then (s, Fail(AttributeNameExceedMax64))
    else
      var (t, res) := Create(s, env, sender, name, value, validFor);
      match res
      case Pass => (t.(events := t.events + [AttributeAdded(sender, name, value, validFor)]), Pass)
      case Fail(e) => (t, Fail(DispatchError(e)))
  }

  /** The `update_attribute` extrinsic. */
  function Update(s: State, env: Env, sender: AccountId, name: Bytes, value: Bytes,
                  validFor: Option<BlockNumber>): (r: (State, DispatchResult))
    ensures |name| > MAX_NAME_LEN ==> r == (s, Fail(AttributeNameExceedMax64))
    ensures |name| <= MAX_NAME_LEN && Lookup(s, sender, name).None? ==> r == (s, Fail(AttributeNotFound))
    ensures |name| <= MAX_NAME_LEN && Lookup(s, sender, name).Some? ==>
      && r.1 == Pass
      && r.0.attributes == Mutate(s, env, sender, name, value, validFor).0.attributes
      && r.0.nonces == s.nonces
      && r.0.events == s.events + [AttributeUpdated(sender, name, value, validFor)]
  {
    if |name| > MAX_NAME_LEN then (s, Fail(AttributeNameExceedMax64))
    else
      var (t, res) := Mutate(s, env, sender, name, value, validFor);
      match res
      case Pass => (t.(events := t.events + [AttributeUpdated(sender, name, value, validFor)]), Pass)
      case Fail(e) => (t, Fail(DispatchError(e)))
  }

  /** The `read_attribute` extrinsic: no name-length check; the record found is
      published in an event. */
  function Read(s: State, sender: AccountId, name: Bytes): (r: (State, DispatchResult))
    ensures r.1 == if Lookup(s, sender, name).Some? then Pass else Fail(AttributeNotFound)
    ensures r.0.attributes == s.attributes && r.0.nonces == s.nonces
    ensures r.0.events
         == if r.1.Pass? then s.events + [AttributeRead(Lookup(s, sender, name).value)] else s.events
  {
    match Lookup(s, sender, name)
    case Some(attribute) => (s.(events := s.events + [AttributeRead(attribute)]), Pass)
    case None => (s, Fail(AttributeNotFound))
  }

  /** The `remove_attribute` extrinsic; the removal event carries the current block. */
  function Remove(s: State, env: Env, sender: AccountId, name: Bytes): (r: (State, DispatchResult))
    ensures |name| > MAX_NAME_LEN ==> r == (s, Fail(AttributeNameExceedMax64))
    ensures |name| <= MAX_NAME_LEN && Lookup(s, sender, name).None? ==> r == (s, Fail(AttributeNotFound))
    ensures |name| <= MAX_NAME_LEN && Lookup(s, sender, name).Some? ==>
      && r.1 == Pass
      && r.0.attributes == s.attributes - {(sender, KeyOf(s, sender, name))}
      && r.0.nonces == s.nonces
      && r.0.events == s.events + [AttributeRemoved(sender, name, Some(env.block))]
  {
    if |name| > MAX_NAME_LEN then (s, Fail(AttributeNameExceedMax64))
    else
      var (t, res) := Delete(s, sender, name);
      match res
      case Pass => (t.(events := t.events + [AttributeRemoved(sender, name, Some(env.block))]), Pass)
      case Fail(e) => (t, Fail(DispatchError(e)))
  }

  /** The pallet's storage, updated in place by the operations. */
  class Pallet {
    var attributeStore: map<(AccountId, StorageKey), Attribute>
    var attributeNonce: map<(AccountId, Bytes), Nonce>
    var events: seq<Event>

    function Snapshot(): State
      reads this
    {
      State(attributeStore, attributeNonce, events)
    }

    constructor ()
      ensures Snapshot() == Genesis()
      ensures WellFormed(Snapshot())
    {
      attributeStore := map[];
      attributeNonce := map[];
      events := [];
    }

    method CreateAttribute(env: Env, owner: AccountId, name: Bytes, value: Bytes,
                           validFor: Option<BlockNumber>) returns (r: Outcome<DidError>)
      modifies this`attributeStore
      ensures (Snapshot(), r) == Create(old(Snapshot()), env, owner, name, value, validFor)
      ensures WellFormed(old(Snapshot())) ==> WellFormed(Snapshot())
    {
      var validity := Validity(env.block, validFor);
      var nonce := NonceOf(Snapshot(), owner, name);
      var id := DeriveKey(owner, name, nonce);
      var attribute := Attribute(name, value, validity, env.moment, nonce);
      attributeStore := attributeStore[(owner, id) := attribute];
      r := Pass;
    }

    method MutateAttribute(env: Env, owner: AccountId, name: Bytes, value: Bytes,
                           validFor: Option<BlockNumber>) returns (r: Outcome<DidError>)
      modifies this`attributeStore
      ensures (Snapshot(), r) == Mutate(old(Snapshot()), env, owner, name, value, validFor)
      ensures WellFormed(old(Snapshot())) ==> WellFormed(Snapshot())
    {
      var validity := Validity(env.block, validFor);
      var attribute := Lookup(Snapshot(), owner, name);
      match attribute
      case Some(attr) =>
        var nonce := NonceOf(Snapshot(), owner, name);
        var id := DeriveKey(owner, name, nonce);
        var updated := attr.(value := value, validity := validity);
        attributeStore := attributeStore[(owner, id) := updated];
        r := Pass;
      case None =>
        r := Fail(NotFound);
    }

    method DeleteAttribute(owner: AccountId, name: Bytes) returns (r: Outcome<DidError>)
      modifies this`attributeStore
      ensures (Snapshot(), r) == Delete(old(Snapshot()), owner, name)
      ensures WellFormed(old(Snapshot())) ==> WellFormed(Snapshot())
    {
      var nonce := NonceOf(Snapshot(), owner, name);
      var id := DeriveKey(owner, name, nonce);
      if (owner, id) !in attributeStore {
        return Fail(NotFound);
      }
      attributeStore := attributeStore - {(owner, id)};
      r := Pass;
    }

    method AddAttribute(env: Env, sender: AccountId, name: Bytes, value: Bytes,
                        validFor: Option<BlockNumber>) returns (r: DispatchResult)
      modifies this`attributeStore, this`events
      ensures (Snapshot(), r) == Add(old(Snapshot()), env, sender, name, value, validFor)
    {
      if |name| > MAX_NAME_LEN {
        return Fail(AttributeNameExceedMax64);
      }
      var res := CreateAttribute(env, sender, name, value, validFor);
      match res
      case Pass =>
        events := events + [AttributeAdded(sender, name, value, validFor)];
        r := Pass;
      case Fail(e) =>
        r := Fail(DispatchError(e));
    }

    method UpdateAttribute(env: Env, sender: AccountId, name: Bytes, value: Bytes,
                           validFor: Option<BlockNumber>) returns (r: DispatchResult)
      modifies this`attributeStore, this`events
      ensures (Snapshot(), r) == Update(old(Snapshot()), env, sender, name, value, validFor)
    {
      if |name| > MAX_NAME_LEN {
        return Fail(AttributeNameExceedMax64);
      }
      var res := MutateAttribute(env, sender, name, value, validFor);
      match res
      case Pass =>
        events := events + [AttributeUpdated(sender, name, value, validFor)];
        r := Pass;
      case Fail(e) =>
        r := Fail(DispatchError(e));
    }

    method ReadAttribute(sender: AccountId, name: Bytes) returns (r: DispatchResult)
      modifies this`events
      ensures (Snapshot(), r) == Read(old(Snapshot()), sender, name)
    {
      var attribute := Lookup(Snapshot(), sender, name);
      match attribute
      case Some(attr) =>
        events := events + [AttributeRead(attr)];
        r := Pass;
      case None =>
        r := Fail(AttributeNotFound);
    }

    method RemoveAttribute(env: Env, sender: AccountId, name: Bytes) returns (r: DispatchResult)
      modifies this`attributeStore, this`events
      ensures (Snapshot(), r) == Remove(old(Snapshot()), env, sender, name)
    {
      if |name| > MAX_NAME_LEN {
        return Fail(AttributeNameExceedMax64);
      }
      var res := DeleteAttribute(sender, name);
      match res
      case Pass =>
        events := events + [AttributeRemoved(sender, name, Some(env.block))];
        r := Pass;
      case Fail(e) =>
        r := Fail(DispatchError(e));
    }
  }
}
