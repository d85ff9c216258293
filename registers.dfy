/**
 * The register client (autonomi/src/client/registers.rs): creating, fetching and
 * updating a Merkle-register CRDT stored on the network.
 *
 * The CRDT library (`sn_registers`) is an abstract interface `Crdt` of total
 * functions over opaque register states. What the client relies on it to do
 * (that a write supersedes exactly the heads it names as children, and so on) is
 * the hypothesis `Lawful`, taken only by the lemmas that need it.
 */
module Registers {
  import opened Wrappers
  import opened Types
  import opened NetworkApi
  import Header

  /** `sn_registers::EntryHash`. */
  datatype EntryHash = EntryHash(hash: nat)

  /** One head of a register: the entry's hash and its value. */
  type Head = (EntryHash, seq<byte>)

  /** `sn_registers::Permissions`: the keys allowed to write. */
  datatype Permissions = Permissions(writers: set<PublicKey>)

  /** `sn_registers::RegisterOp`: a signed write, naming the entries it supersedes. */
  datatype RegisterOp = RegisterOp(hash: EntryHash, value: seq<byte>, children: set<EntryHash>, signer: PublicKey)

  /** `sn_registers::Register` and `SignedRegister`, opaque states. */
  datatype ClientRegister = ClientRegister(state: nat)
  datatype SignedRegister = SignedRegister(state: nat)

  /** `sn_registers::Error`, opaque. */
  datatype CrdtError = CrdtError(code: nat)

  /** `sn_transfers::Payment`, opaque. */
  datatype Payment = Payment(id: nat)

  /** The operations of `sn_registers` that the client calls. */
  datatype Crdt = Crdt(
    newRegister: (PublicKey, XorName, Permissions) -> ClientRegister,
    address: ClientRegister -> RegisterAddress,
    permissions: ClientRegister -> Permissions,
    read: ClientRegister -> seq<Head>,
    write: (ClientRegister, seq<byte>, set<EntryHash>, SecretKey) -> Result<(ClientRegister, EntryHash, RegisterOp), CrdtError>,
    intoSigned: (ClientRegister, SecretKey) -> Result<SignedRegister, CrdtError>,
    register: SignedRegister -> Result<ClientRegister, CrdtError>,
    addOp: (SignedRegister, RegisterOp) -> Result<SignedRegister, CrdtError>,
    verify: SignedRegister -> Result<(), CrdtError>)

  /** The current heads of a register, as a set. */
  function Heads(crdt: Crdt, reg: ClientRegister): (r: set<Head>)
    ensures forall e :: e in r <==> e in crdt.read(reg)
  {
    set e | e in crdt.read(reg)
  }

  /** The hashes of the current heads: the `entries` / `children` the client collects. */
  function HeadHashes(crdt: Crdt, reg: ClientRegister): (r: set<EntryHash>)
    ensures forall h :: h in r <==> exists v :: (h, v) in crdt.read(reg)
  {
    set e | e in crdt.read(reg) :: e.0
  }

  /** The heads that survive a write naming `children`. */
  function Survivors(heads: set<Head>, children: set<EntryHash>): (r: set<Head>)
    ensures forall e :: e in r <==> e in heads && e.0 !in children
  {
    set e | e in heads && e.0 !in children
  }

  /**
   * The behaviour of a Merkle register that the client's doc comments rely on:
   * a new register is empty and lives at `(name, owner)`; a write or an applied
   * op replaces the heads it names as children by the new entry; signing and
   * unsigning keep the state.
   */
  ghost predicate Lawful(crdt: Crdt)
  {
    && (forall pk, name, perms {:trigger crdt.newRegister(pk, name, perms)} ::
          && crdt.read(crdt.newRegister(pk, name, perms)) == []
          && crdt.address(crdt.newRegister(pk, name, perms)) == RegisterAddress(name, pk)
          && crdt.permissions(crdt.newRegister(pk, name, perms)) == perms)
    && (forall reg, v, ch, sk {:trigger crdt.write(reg, v, ch, sk)} ::
          crdt.write(reg, v, ch, sk).Ok? ==>
            var w := crdt.write(reg, v, ch, sk).value;
            && w.2 == RegisterOp(w.1, v, ch, PublicKeyOf(sk))
            && Heads(crdt, w.0) == Survivors(Heads(crdt, reg), ch) + {(w.1, v)}
            && crdt.address(w.0) == crdt.address(reg)
            && crdt.permissions(w.0) == crdt.permissions(reg))
    && (forall reg, sk {:trigger crdt.intoSigned(reg, sk)} ::
          crdt.intoSigned(reg, sk).Ok? ==> crdt.register(crdt.intoSigned(reg, sk).value) == Ok(reg))
    && (forall s, op {:trigger crdt.addOp(s, op)} ::
          crdt.register(s).Ok? && crdt.addOp(s, op).Ok? ==>
            && crdt.register(crdt.addOp(s, op).value).Ok?
            && Heads(crdt, crdt.register(crdt.addOp(s, op).value).value)
                 == Survivors(Heads(crdt, crdt.register(s).value), op.children) + {(op.hash, op.value)})
  }

  /** `RegisterError`, with payment and wallet errors as opaque codes. */
  datatype RegisterError =
    | Network(networkError: NetworkError)
    | Serialization
    | FailedVerification
    | Pay(payCode: nat)
    | Wallet(walletCode: nat)
    | Write(writeError: CrdtError)
    | CouldNotSign(signError: CrdtError)

  /** The client's `Register`: a signed register. */
  datatype Register = Register(inner: SignedRegister)

  /** The client's view of the network, and the `rmp_serde` codecs of what it stores. */
  datatype RegisterNetwork = RegisterNetwork(
    putRecord: PutRequest -> Result<(), NetworkError>,
    getRecordFromNetwork: (RecordKey, GetRecordCfg) -> Result<Record, NetworkError>,
    signedCodec: Header.Codec<SignedRegister>,
    paidCodec: Header.Codec<(Payment, SignedRegister)>)

  /** The values of a list of heads, hashes dropped, one per head and in order. */
  function DropHashes(heads: seq<Head>): (r: seq<seq<byte>>)
    ensures |r| == |heads|
    ensures forall i :: 0 <= i < |heads| ==> r[i] == heads[i].1
  {
    if heads == [] then [] else [heads[0].1] + DropHashes(heads[1..])
  }

  /**
   * `Register::values`: every value the register currently holds, one per entry
   * of `read()`. More than one means concurrent writes. A signed register that
   * does not unsign is a panic (`expect`), so it is excluded here.
   */
  function Values(crdt: Crdt, register: Register): (r: seq<seq<byte>>)
    requires crdt.register(register.inner).Ok?
    ensures |r| == |crdt.read(crdt.register(register.inner).value)|
    ensures forall i :: 0 <= i < |r| ==> r[i] == crdt.read(crdt.register(register.inner).value)[i].1
  {
    DropHashes(crdt.read(crdt.register(register.inner).value))
  }

  /** The set of values an unsigned register holds. */
  function ValueSet(crdt: Crdt, reg: ClientRegister): set<seq<byte>>
  {
    set e | e in crdt.read(reg) :: e.1
  }

  /** `GetRecordCfg` of `fetch_register`: one copy suffices, and the record is a register. */
  const FetchRegisterCfg: GetRecordCfg := GetRecordCfg(One, None, None, {}, true)

  /**
   * `fetch_register`: get the record at the register's address, decode it, then
   * check its CRDT operations. A failed decode is `Serialization` whether or not
   * it would verify; `FailedVerification` only follows a good decode.
   */
  function FetchRegister(crdt: Crdt, net: RegisterNetwork, address: RegisterAddress): (r: Result<Register, RegisterError>)
    ensures var got := net.getRecordFromNetwork(ToRecordKey(RegisterAddr(address)), FetchRegisterCfg);
            && (got.Err? ==> r == Err(RegisterError.Network(got.error)))
            && (got.Ok? && Header.TryDeserializeRecord(net.signedCodec, got.value).Err? ==> r == Err(Serialization))
            && (got.Ok? && Header.TryDeserializeRecord(net.signedCodec, got.value).Ok?
                  && crdt.verify(Header.TryDeserializeRecord(net.signedCodec, got.value).value).Err?
                ==> r == Err(FailedVerification))
            && (r.Ok? <==>
                  && got.Ok?
                  && Header.TryDeserializeRecord(net.signedCodec, got.value).Ok?
                  && crdt.verify(Header.TryDeserializeRecord(net.signedCodec, got.value).value).Ok?)
            && (r.Ok? ==> r.value == Register(Header.TryDeserializeRecord(net.signedCodec, got.value).value))
  {
    match net.getRecordFromNetwork(ToRecordKey(RegisterAddr(address)), FetchRegisterCfg)
    case Err(e) => Err(RegisterError.Network(e))
    case Ok(record) =>
      match Header.TryDeserializeRecord(net.signedCodec, record)
      case Err(_) => Err(Serialization)
      case Ok(signed) =>
        match crdt.verify(signed)
        case Err(_) => Err(FailedVerification)
        case Ok(_) => Ok(Register(signed))
  }

  /**
   * A register fetched from the record an update stored comes back unchanged,
   * provided the codec round-trips and the register verifies.
   */
  lemma FetchAfterStore(crdt: Crdt, net: RegisterNetwork, address: RegisterAddress, signed: SignedRegister)
    requires Header.RoundTrips(net.signedCodec)
    requires net.signedCodec.encode(signed).Some?
    requires crdt.verify(signed).Ok?
    requires net.getRecordFromNetwork(ToRecordKey(RegisterAddr(address)), FetchRegisterCfg)
             == Ok(Record(ToRecordKey(RegisterAddr(address)),
                          Header.TrySerializeRecord(net.signedCodec, signed, Header.Register).value))
    ensures FetchRegister(crdt, net, address) == Ok(Register(signed))
  {
    Header.PayloadRoundTrip(net.signedCodec, signed, Header.Register, ToRecordKey(RegisterAddr(address)));
  }

  /** `Permissions::new_with([pk])`: the owner alone may write. */
  function OwnerPermissions(pk: PublicKey): (r: Permissions)
    ensures forall k :: k in r.writers <==> k == pk
  {
    Permissions({pk})
  }

  /** The register `create_register` starts from. */
  function FreshRegister(crdt: Crdt, name: XorName, owner: SecretKey): ClientRegister
  {
    crdt.newRegister(PublicKeyOf(owner), name, OwnerPermissions(PublicKeyOf(owner)))
  }

  /** The first write of `create_register`: the initial value over the fresh register's heads. */
  function InitialWrite(crdt: Crdt, value: seq<byte>, name: XorName, owner: SecretKey)
    : Result<(ClientRegister, EntryHash, RegisterOp), CrdtError>
  {
    var initial := FreshRegister(crdt, name, owner);
    crdt.write(initial, value, HeadHashes(crdt, initial), owner)
  }

  /** The put configuration of `create_register`: every copy, to the payee only, unverified. */
  function CreatePutCfg(payee: PeerId): (r: PutRecordCfg)
    ensures r.putQuorum == All && r.retryStrategy.None? && r.verification.None?
    ensures r.usePutRecordTo == Some([payee])
  {
    PutRecordCfg(All, None, Some([payee]), None)
  }

  /** The put configuration of `update_register`: every copy, to the usual holders, unverified. */
  function UpdatePutCfg(): (r: PutRecordCfg)
    ensures r.putQuorum == All && r.retryStrategy.None? && r.usePutRecordTo.None? && r.verification.None?
  {
    PutRecordCfg(All, None, None, None)
  }

  /**
   * `create_register`. The steps run in order (write, pay, find the payment,
   * sign, serialise, put) and the first failure is the result. `pay` and
   * `recentPayment` are the results of the wallet calls; `put` is the put issued.
   */
  method CreateRegister(
    crdt: Crdt, net: RegisterNetwork, value: seq<byte>, name: XorName, owner: SecretKey,
    pay: Result<(), nat>, recentPayment: Result<(Payment, PeerId), nat>)
    returns (r: Result<Register, RegisterError>, put: Option<PutRequest>)
    ensures InitialWrite(crdt, value, name, owner).Err? ==>
              r == Err(Write(InitialWrite(crdt, value, name, owner).error)) && put.None?
    ensures InitialWrite(crdt, value, name, owner).Ok? && pay.Err? ==>
              r == Err(Pay(pay.error)) && put.None?
    ensures InitialWrite(crdt, value, name, owner).Ok? && pay.Ok? && recentPayment.Err? ==>
              r == Err(Wallet(recentPayment.error)) && put.None?
    ensures InitialWrite(crdt, value, name, owner).Ok? && pay.Ok? && recentPayment.Ok?
              && crdt.intoSigned(InitialWrite(crdt, value, name, owner).value.0, owner).Err? ==>
              r == Err(CouldNotSign(crdt.intoSigned(InitialWrite(crdt, value, name, owner).value.0, owner).error))
              && put.None?
    ensures InitialWrite(crdt, value, name, owner).Ok? && pay.Ok? && recentPayment.Ok?
              && crdt.intoSigned(InitialWrite(crdt, value, name, owner).value.0, owner).Ok? ==>
              var signed := crdt.intoSigned(InitialWrite(crdt, value, name, owner).value.0, owner).value;
              var payload := (recentPayment.value.0, signed);
              && (net.paidCodec.encode(payload).None? ==> r == Err(Serialization) && put.None?)
              && (net.paidCodec.encode(payload).Some? ==>
                    && put == Some(PutRequest(
                         Record(ToRecordKey(RegisterAddr(crdt.address(FreshRegister(crdt, name, owner)))),
                                Header.HeaderBytes(Header.RegisterWithPayment) + net.paidCodec.encode(payload).value),
                         CreatePutCfg(recentPayment.value.1)))
                    && r == (if net.putRecord(put.value).Ok? then Ok(Register(signed))
                             else Err(RegisterError.Network(net.putRecord(put.value).error))))
  {
    var pk := PublicKeyOf(owner);
    var permissions := OwnerPermissions(pk);
    var register := crdt.newRegister(pk, name, permissions);
    var address := RegisterAddr(crdt.address(register));
    var entries := HeadHashes(crdt, register);
    var written := crdt.write(register, value, entries, owner);
    if written.Err? {
      return Err(Write(written.error)), None;
    }
    register := written.value.0;
    if pay.Err? {
      return Err(Pay(pay.error)), None;
    }
    if recentPayment.Err? {
      return Err(Wallet(recentPayment.error)), None;
    }
    var (payment, payee) := recentPayment.value;
    var signed := crdt.intoSigned(register, owner);
    if signed.Err? {
      return Err(CouldNotSign(signed.error)), None;
    }
    var bytes := Header.TrySerializeRecord(net.paidCodec, (payment, signed.value), Header.RegisterWithPayment);
    if bytes.Err? {
      return Err(Serialization), None;
    }
    var request := PutRequest(Record(ToRecordKey(address), bytes.value), CreatePutCfg(payee));
    put := Some(request);
    var stored := net.putRecord(request);
    if stored.Err? {
      return Err(RegisterError.Network(stored.error)), put;
    }
    r := Ok(Register(signed.value));
  }

  /** The write of `update_register`: the new value over every current head of the register. */
  function UpdateWrite(crdt: Crdt, register: Register, newValue: seq<byte>, owner: SecretKey)
    : Result<(ClientRegister, EntryHash, RegisterOp), CrdtError>
    requires crdt.register(register.inner).Ok?
  {
    var reg := crdt.register(register.inner).value;
    crdt.write(reg, newValue, HeadHashes(crdt, reg), owner)
  }

  /**
   * `update_register`: write the new value with all current heads as children,
   * apply the op to the signed register, then store it as a `Register` record.
   * Write and `add_op` failures are both `Write`. A signed register that does not
   * unsign is a panic (`expect`), so it is excluded here.
   */
  method UpdateRegister(crdt: Crdt, net: RegisterNetwork, register: Register, newValue: seq<byte>, owner: SecretKey)
    returns (r: Result<(), RegisterError>, put: Option<PutRequest>)
    requires crdt.register(register.inner).Ok?
    ensures UpdateWrite(crdt, register, newValue, owner).Err? ==>
              r == Err(Write(UpdateWrite(crdt, register, newValue, owner).error)) && put.None?
    ensures UpdateWrite(crdt, register, newValue, owner).Ok?
              && crdt.addOp(register.inner, UpdateWrite(crdt, register, newValue, owner).value.2).Err? ==>
              r == Err(Write(crdt.addOp(register.inner, UpdateWrite(crdt, register, newValue, owner).value.2).error))
              && put.None?
    ensures UpdateWrite(crdt, register, newValue, owner).Ok?
              && crdt.addOp(register.inner, UpdateWrite(crdt, register, newValue, owner).value.2).Ok? ==>
              var w := UpdateWrite(crdt, register, newValue, owner).value;
              var signed := crdt.addOp(register.inner, w.2).value;
              && (net.signedCodec.encode(signed).None? ==> r == Err(Serialization) && put.None?)
              && (net.signedCodec.encode(signed).Some? ==>
                    && put == Some(PutRequest(
                         Record(ToRecordKey(RegisterAddr(crdt.address(w.0))),
                                Header.HeaderBytes(Header.Register) + net.signedCodec.encode(signed).value),
                         UpdatePutCfg()))
                    && r == (if net.putRecord(put.value).Ok? then Ok(())
                             else Err(RegisterError.Network(net.putRecord(put.value).error))))
  {
    var signed := register.inner;
    var reg := crdt.register(signed).value;
    var children := HeadHashes(crdt, reg);
    var written := crdt.write(reg, newValue, children, owner);
    if written.Err? {
      return Err(Write(written.error)), None;
    }
    var op;
    reg, op := written.value.0, written.value.2;
    var applied := crdt.addOp(signed, op);
    if applied.Err? {
      return Err(Write(applied.error)), None;
    }
    signed := applied.value;
    var bytes := Header.TrySerializeRecord(net.signedCodec, signed, Header.Register);
    if bytes.Err? {
      return Err(Serialization), None;
    }
    var request := PutRequest(Record(ToRecordKey(RegisterAddr(crdt.address(reg))), bytes.value), UpdatePutCfg());
    put := Some(request);
    var stored := net.putRecord(request);
    if stored.Err? {
      return Err(RegisterError.Network(stored.error)), put;
    }
    r := Ok(());
  }

  /** Naming every head as a child leaves none of them standing. */
  lemma NoSurvivorsOfAllHeads(crdt: Crdt, reg: ClientRegister)
    ensures Survivors(Heads(crdt, reg), HeadHashes(crdt, reg)) == {}
  {
    forall e | e in Heads(crdt, reg) ensures e.0 in HeadHashes(crdt, reg) {
      assert (e.0, e.1) in crdt.read(reg);
    }
  }

  /**
   * A created register holds exactly the initial value, lives at `(name, owner)`
   * and lets only the owner write.
   */
  lemma CreatedRegisterHoldsValue(crdt: Crdt, value: seq<byte>, name: XorName, owner: SecretKey)
    requires Lawful(crdt)
    requires InitialWrite(crdt, value, name, owner).Ok?
    ensures var w := InitialWrite(crdt, value, name, owner).value;
            && Heads(crdt, w.0) == {(w.1, value)}
            && ValueSet(crdt, w.0) == {value}
            && crdt.address(w.0) == RegisterAddress(name, PublicKeyOf(owner))
            && (forall k :: k in crdt.permissions(w.0).writers <==> k == PublicKeyOf(owner))
            && w.2.children == {}
  {
    var initial := FreshRegister(crdt, name, owner);
    var w := InitialWrite(crdt, value, name, owner).value;
    assert crdt.read(initial) == [];
    assert Heads(crdt, initial) == {};
    assert HeadHashes(crdt, initial) == {};
    assert Heads(crdt, w.0) == {(w.1, value)};
    assert forall e :: e in crdt.read(w.0) <==> e == (w.1, value);
  }

  /**
   * "This will overwrite existing value(s)": after a successful update, the
   * signed register holds exactly one head, the new value, however many
   * concurrent values it held before.
   */
  lemma UpdateOverwritesAll(crdt: Crdt, register: Register, newValue: seq<byte>, owner: SecretKey)
    requires Lawful(crdt)
    requires crdt.register(register.inner).Ok?
    requires UpdateWrite(crdt, register, newValue, owner).Ok?
    requires crdt.addOp(register.inner, UpdateWrite(crdt, register, newValue, owner).value.2).Ok?
    ensures var w := UpdateWrite(crdt, register, newValue, owner).value;
            var updated := crdt.addOp(register.inner, w.2).value;
            && crdt.register(updated).Ok?
            && Heads(crdt, crdt.register(updated).value) == {(w.1, newValue)}
            && ValueSet(crdt, crdt.register(updated).value) == {newValue}
  {
    var reg := crdt.register(register.inner).value;
    var w := UpdateWrite(crdt, register, newValue, owner).value;
    NoSurvivorsOfAllHeads(crdt, reg);
    var updated := crdt.addOp(register.inner, w.2).value;
    assert Heads(crdt, crdt.register(updated).value) == {(w.1, newValue)};
    assert forall e :: e in crdt.read(crdt.register(updated).value) <==> e == (w.1, newValue);
  }

  /**
   * Why `values` may return several values: two updates written concurrently
   * over the same heads both survive once the two ops are applied.
   */
  lemma ConcurrentUpdatesKeepBoth(crdt: Crdt, s: SignedRegister, op1: RegisterOp, op2: RegisterOp)
    requires Lawful(crdt)
    requires crdt.register(s).Ok?
    requires op1.children == HeadHashes(crdt, crdt.register(s).value)
    requires op2.children == HeadHashes(crdt, crdt.register(s).value)
    requires op1.hash != op2.hash && op1.hash !in op2.children
    requires crdt.addOp(s, op1).Ok? && crdt.addOp(crdt.addOp(s, op1).value, op2).Ok?
    ensures var both := crdt.addOp(crdt.addOp(s, op1).value, op2).value;
            && crdt.register(both).Ok?
            && Heads(crdt, crdt.register(both).value) == {(op1.hash, op1.value), (op2.hash, op2.value)}
            && ValueSet(crdt, crdt.register(both).value) == {op1.value, op2.value}
  {
    var reg := crdt.register(s).value;
    NoSurvivorsOfAllHeads(crdt, reg);
    var s1 := crdt.addOp(s, op1).value;
    assert Heads(crdt, crdt.register(s1).value) == {(op1.hash, op1.value)};
    var both := crdt.addOp(s1, op2).value;
    assert Survivors({(op1.hash, op1.value)}, op2.children) == {(op1.hash, op1.value)};
    assert Heads(crdt, crdt.register(both).value) == {(op1.hash, op1.value), (op2.hash, op2.value)};
    assert forall e :: e in crdt.read(crdt.register(both).value) <==>
             e == (op1.hash, op1.value) || e == (op2.hash, op2.value);
  }
}
