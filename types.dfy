/**
 * Identity types shared by every component. Peer ids, public keys and names are
 * opaque: the model only compares them for equality, so each is a tagged natural.
 */
module Types {

  newtype byte = b: int | 0 <= b < 256

  /** libp2p `PeerId`. */
  datatype PeerId = PeerId(id: nat)

  /** BLS public key: a cash note's `UniquePubkey` or a register owner's key. */
  datatype PublicKey = PublicKey(id: nat)

  /** BLS secret key; `PublicKeyOf` stands for `SecretKey::public_key`. */
  datatype SecretKey = SecretKey(id: nat)

  function PublicKeyOf(sk: SecretKey): PublicKey
  {
    PublicKey(sk.id)
  }

  /** `XorName`, the 256-bit name of a register (opaque here). */
  datatype XorName = XorName(id: nat)

  /** `RegisterAddress`: a register is named by its name and owner. */
  datatype RegisterAddress = RegisterAddress(name: XorName, owner: PublicKey)

  /** `NetworkAddress`: a point of the XOR space, with the kind of thing it names. */
  datatype NetworkAddress =
    | PeerAddress(peer: PeerId)
    | SpendAddress(uniquePubkey: PublicKey)
    | RegisterAddr(register: RegisterAddress)
    | ChunkAddress(name: XorName)

  /** libp2p `RecordKey`; `NetworkAddress::to_record_key` is injective. */
  datatype RecordKey = RecordKey(address: NetworkAddress)

  function ToRecordKey(a: NetworkAddress): RecordKey
  {
    RecordKey(a)
  }

  /** `NetworkAddress::from_record_key`. */
  function FromRecordKey(k: RecordKey): NetworkAddress
  {
    k.address
  }

  /** libp2p `kad::Record` with `publisher` and `expires` both `None`. */
  datatype Record = Record(key: RecordKey, value: seq<byte>)
}
