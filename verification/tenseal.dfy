/** An abstract model of the parts of the TenSEAL library (CKKS scheme) that
    the aggregation code relies on.

    A ciphertext is modelled by the expression that produced it: a fresh
    encryption, a homomorphic sum of two ciphertexts, or a ciphertext
    multiplied by a plaintext scalar. Its meaning, `Decrypted`, is the vector
    of slots it encrypts, computed with exact reals: an idealisation of CKKS,
    whose results are approximate. Bytes produced by the library are modelled
    by `Blob`, which records what was serialised. */
module Tenseal {
  import opened Wrappers
  import opened Errors

  /** Identity of the key pair a new context generates. Key generation is
      random, so the caller supplies it. */
  type KeyId = nat

  datatype Scheme = CKKS

  /** The parameters fixed when a context is created. */
  datatype Params = Params(scheme: Scheme, polyModulusDegree: nat, coeffModBitSizes: seq<nat>)

  datatype SecretKey = SecretKey(owner: KeyId)

  /** The state of a context: public material, and the secret key only where
      it has not been stripped by serialisation. */
  datatype ContextData = ContextData(
    params: Params,
    keyId: KeyId,              // the public key, always present
    galoisKeys: bool,
    relinKeys: bool,
    globalScale: Option<nat>,
    secretKey: Option<SecretKey>)
  {
    predicate IsPublic() {
      secretKey.None?
    }

    /** The same context without its secret key. */
    function Public(): (p: ContextData)
      ensures p.IsPublic()
      ensures p.(secretKey := secretKey) == this
    {
      this.(secretKey := None)
    }

    /** This context holds the secret key of the key pair `c` was made under. */
    predicate CanDecrypt(c: Ciphertext) {
      secretKey.Some? && UnderKey(c, params, secretKey.value.owner)
    }

    /** `vec.decrypt()` for a vector linked to this context: it needs the
        secret key of the key pair the vector was encrypted under. With any
        other secret key no plaintext is recovered. */
    function Decrypt(c: Ciphertext): (r: Result<seq<real>, Error>)
      ensures r.Success? <==> CanDecrypt(c)
      ensures r.Success? ==> r.value == Decrypted(c)
      ensures IsPublic() ==> r == Failure(MissingSecretKey)
      ensures !IsPublic() && !CanDecrypt(c) ==> r == Failure(KeyMismatch)
    {
      match secretKey
      case None => Failure(MissingSecretKey)
      case Some(key) => if UnderKey(c, params, key.owner) then Success(Decrypted(c)) else Failure(KeyMismatch)
    }
  }

  /** A library context object: `ts.context(...)` creates it with a fresh key
      pair, and the caller then generates evaluation keys and sets the scale
      on it in place. */
  class Context {
    const params: Params
    const keyId: KeyId
    const secretKey: Option<SecretKey>
    var galoisKeys: bool
    var relinKeys: bool
    var globalScale: Option<nat>

    constructor (params: Params, keyId: KeyId)
      ensures this.params == params && this.keyId == keyId
      ensures secretKey == Some(SecretKey(keyId))
      ensures !galoisKeys && !relinKeys && globalScale == None
    {
      this.params := params;
      this.keyId := keyId;
      secretKey := Some(SecretKey(keyId));
      galoisKeys := false;
      relinKeys := false;
      globalScale := None;
    }

    /** The current state of this context as a value. */
    function Data(): ContextData
      reads this
    {
      ContextData(params, keyId, galoisKeys, relinKeys, globalScale, secretKey)
    }

    method GenerateGaloisKeys()
      modifies this`galoisKeys
      ensures galoisKeys
    {
      galoisKeys := true;
    }

    method GenerateRelinKeys()
      modifies this`relinKeys
      ensures relinKeys
    {
      relinKeys := true;
    }

    method SetGlobalScale(scale: nat)
      modifies this`globalScale
      ensures globalScale == Some(scale)
    {
      globalScale := Some(scale);
    }

    /** `context.serialize(save_secret_key=...)`: every other part of the
        context is kept. */
    function Serialize(saveSecretKey: bool): (b: Blob)
      reads this
      ensures b.ContextBytes?
      ensures b.context.IsPublic() <==> !saveSecretKey || secretKey.None?
      ensures b.context.(secretKey := secretKey) == Data()
      ensures saveSecretKey ==> b.context == Data()
    {
      ContextBytes(if saveSecretKey then Data() else Data().Public())
    }
  }

  /** A ciphertext, as the expression of library operations that made it. */
  datatype Ciphertext =
    | Encrypted(params: Params, keyId: KeyId, slots: seq<real>)  // ts.ckks_vector(context, slots)
    | Added(left: Ciphertext, right: Ciphertext)                // left + right
    | Scaled(operand: Ciphertext, factor: real)                 // operand * factor, a plaintext scalar

  /** Slot-wise sum. Adding vectors of different sizes is left to the
      library; here the sum covers the slots both have. */
  function AddSlots(a: seq<real>, b: seq<real>): seq<real> {
    var n := if |a| <= |b| then |a| else |b|;
    seq(n, i requires 0 <= i < n => a[i] + b[i])
  }

  function ScaleSlots(a: seq<real>, k: real): seq<real> {
    seq(|a|, i requires 0 <= i < |a| => a[i] * k)
  }

  /** The plaintext slots a ciphertext encrypts, under exact arithmetic. */
  function Decrypted(c: Ciphertext): seq<real> {
    match c
    case Encrypted(_, _, slots) => slots
    case Added(a, b) => AddSlots(Decrypted(a), Decrypted(b))
    case Scaled(a, k) => ScaleSlots(Decrypted(a), k)
  }

  /** Every fresh encryption inside `c` was made under these parameters and
      this key pair. */
  predicate UnderKey(c: Ciphertext, params: Params, keyId: KeyId) {
    match c
    case Encrypted(p, k, _) => p == params && k == keyId
    case Added(a, b) => UnderKey(a, params, keyId) && UnderKey(b, params, keyId)
    case Scaled(a, _) => UnderKey(a, params, keyId)
  }

  /** A ciphertext is made under at most one parameter set and key pair. */
  lemma {:induction false} UnderOneKey(c: Ciphertext, p1: Params, k1: KeyId, p2: Params, k2: KeyId)
    requires UnderKey(c, p1, k1) && UnderKey(c, p2, k2)
    ensures p1 == p2 && k1 == k2
  {
    match c
    case Encrypted(_, _, _) =>
    case Added(a, _) => UnderOneKey(a, p1, k1, p2, k2);
    case Scaled(a, _) => UnderOneKey(a, p1, k1, p2, k2);
  }

  /** Number of homomorphic additions performed to produce `c`. */
  function Additions(c: Ciphertext): nat {
    match c
    case Encrypted(_, _, _) => 0
    case Added(a, b) => Additions(a) + Additions(b) + 1
    case Scaled(a, _) => Additions(a)
  }

  /** Number of plaintext-scalar multiplications performed to produce `c`;
      each consumes one level of the modulus chain. */
  function Multiplications(c: Ciphertext): nat {
    match c
    case Encrypted(_, _, _) => 0
    case Added(a, b) => Multiplications(a) + Multiplications(b)
    case Scaled(a, _) => Multiplications(a) + 1
  }

  /** `ts.ckks_vector(context, slots)`: encryption needs only public material. */
  function Encrypt(context: ContextData, slots: seq<real>): (c: Ciphertext)
    ensures Decrypted(c) == slots
    ensures UnderKey(c, context.params, context.keyId)
    ensures Additions(c) == 0 && Multiplications(c) == 0
  {
    Encrypted(context.params, context.keyId, slots)
  }

  /** Bytes written by the library, or any other bytes. */
  datatype Blob =
    | ContextBytes(context: ContextData)
    | VectorBytes(vector: Ciphertext)
    | OtherBytes(raw: seq<bv8>)

  /** `vec.serialize()`: vector bytes that carry the whole ciphertext. */
  function SerializeVector(c: Ciphertext): (b: Blob)
    ensures b.VectorBytes? && b.vector == c
  {
    VectorBytes(c)
  }
}
