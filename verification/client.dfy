/** client/client.py: the originator. It owns the full context, encrypts
    one single-slot vector per value, sends only the public context, and
    decrypts the result with the context it kept. The HTTP post to the
    backend's `/compute` is modelled as a call of `Backend.Compute`. */
module Client {
  import opened Wrappers
  import opened Errors
  import opened Tenseal
  import opened Wire
  import opened Crypto
  import opened Backend

  const PolyModulusDegree: nat := 8192
  const CoeffModBitSizes: seq<nat> := [60, 40, 40, 60]
  const GlobalScale: nat := 1_099_511_627_776  // 2^40
  const ClientParams := Params(CKKS, PolyModulusDegree, CoeffModBitSizes)

  /** Status FastAPI answers with when an endpoint raises. */
  const InternalServerError: nat := 500

  datatype AnalyzeRequest = AnalyzeRequest(values: seq<real>, operation: string)

  datatype AnalyzeResponse = AnalyzeResponse(result: real)

  /** `create_context`: a CKKS context with fixed parameters, a fresh key
      pair, galois and relinearisation keys, and global scale 2^40. */
  method CreateContext(keyId: KeyId) returns (context: Context)
    ensures fresh(context)
    ensures context.Data() ==
      ContextData(ClientParams, keyId, true, true, Some(GlobalScale), Some(SecretKey(keyId)))
  {
    context := new Context(ClientParams, keyId);
    context.GenerateGaloisKeys();
    context.GenerateRelinKeys();
    context.SetGlobalScale(GlobalScale);
  }

  /** `encrypt_values`: one base64 text per value, in input order, each the
      encryption of the one-slot vector `[v]`. */
  method EncryptValues(context: Context, values: seq<real>) returns (encrypted: seq<Text>)
    ensures |encrypted| == |values|
    ensures forall i :: 0 <= i < |values| ==>
      encrypted[i] == EncodeText(Base64, SerializeVector(Encrypt(context.Data(), [values[i]])))
  {
    encrypted := [];
    for i := 0 to |values|
      invariant |encrypted| == i
      invariant forall k :: 0 <= k < i ==>
        encrypted[k] == EncodeText(Base64, SerializeVector(Encrypt(context.Data(), [values[k]])))
    {
      var enc := Encrypt(context.Data(), [values[i]]);
      encrypted := encrypted + [EncodeText(Base64, SerializeVector(enc))];
    }
  }

  /** `decrypt_result`: decode, load under `context`, decrypt, take slot 0.
      Only a context holding its secret key yields a value. */
  function DecryptResult(context: ContextData, encryptedResult: Text): (r: Result<real, Error>)
    ensures r.Success? ==> !context.IsPublic()
    ensures r.Success? ==>
      (DecodeVector(Base64, context, encryptedResult).Success? &&
       var slots := Decrypted(DecodeVector(Base64, context, encryptedResult).value);
       |slots| > 0 && r.value == slots[0])
    ensures DecodeVector(Base64, context, encryptedResult).Failure? ==>
      r == Failure(DecodeVector(Base64, context, encryptedResult).error)
    ensures DecodeVector(Base64, context, encryptedResult).Success? && context.IsPublic() ==>
      r == Failure(MissingSecretKey)
    ensures var vec := DecodeVector(Base64, context, encryptedResult);
      vec.Success? && !context.IsPublic() && !context.CanDecrypt(vec.value) ==>
        r == Failure(KeyMismatch)
    ensures var vec := DecodeVector(Base64, context, encryptedResult);
      vec.Success? && context.CanDecrypt(vec.value) ==>
        (var slots := Decrypted(vec.value);
         r == if |slots| > 0 then Success(slots[0]) else Failure(IndexError))
  {
    var vec :- DecodeVector(Base64, context, encryptedResult);
    var slots :- context.Decrypt(vec);
    if |slots| == 0 then Failure(IndexError) else Success(slots[0])
  }

  /** The payload of `analyze`: the context serialised without its secret
      key, the encrypted values, and the operation string as given. */
  function Payload(context: Context, encryptedVectors: seq<Text>, operation: string): (p: ComputeRequest)
    reads context
    ensures RequestContext(Base64, p.context) == Success(context.Data().Public())
    ensures RequestContext(Base64, p.context).value.IsPublic()
    ensures p.encryptedVectors == encryptedVectors && p.operation == operation
  {
    ComputeRequest(EncodeText(Base64, context.Serialize(false)), encryptedVectors, operation)
  }

  /** A value encrypted by the client decrypts back to itself under the full
      context, and not at all under its public projection. */
  lemma EncryptDecryptRoundTrip(context: ContextData, v: real)
    requires context.secretKey == Some(SecretKey(context.keyId))
    ensures DecryptResult(context, EncodeText(Base64, SerializeVector(Encrypt(context, [v])))) == Success(v)
    ensures DecryptResult(context.Public(), EncodeText(Base64, SerializeVector(Encrypt(context, [v])))) ==
      Failure(MissingSecretKey)
  {
  }

  /** One fresh single-slot encryption per value, in order. */
  function Encryptions(context: ContextData, values: seq<real>): (vs: seq<Ciphertext>)
    ensures |vs| == |values|
    ensures HaveSlots(vs, 1)
    ensures forall i :: 0 <= i < |values| ==> vs[i] == Encrypt(context, [values[i]])
  {
    seq(|values|, i requires 0 <= i < |values| => Encrypt(context, [values[i]]))
  }

  /** What the backend decodes from the client's payload: the client's
      encryptions, in order. */
  lemma PayloadVectors(context: ContextData, values: seq<real>, encrypted: seq<Text>)
    requires |encrypted| == |values|
    requires forall i :: 0 <= i < |values| ==>
      encrypted[i] == EncodeText(Base64, SerializeVector(Encrypt(context, [values[i]])))
    ensures RequestVectors(Base64, EncodeText(Base64, ContextBytes(context.Public())), encrypted) ==
      Success(Encryptions(context, values))
  {
    var loaded := context.Public();
    assert RequestContext(Base64, EncodeText(Base64, ContextBytes(loaded))) == Success(loaded);
    DecodeAllInOrder(Base64, loaded, encrypted);
    assert forall i :: 0 <= i < |encrypted| ==>
      DecodeVector(Base64, loaded, encrypted[i]) == Success(Encrypt(context, [values[i]]));
    var decoded := DecodeAll(Base64, loaded, encrypted);
    assert decoded.Success?;
    assert decoded.value == Encryptions(context, values);
  }

  /** Single-slot encryptions of `values` sum, in slot 0, to the sum of the values. */
  lemma SumOfEncryptions(context: ContextData, values: seq<real>)
    requires |values| > 0
    ensures var vs := Encryptions(context, values);
      |Decrypted(SumFold(vs))| == 1 && Decrypted(SumFold(vs))[0] == SumOf(values) &&
      |Decrypted(Averaged(vs))| == 1 && Decrypted(Averaged(vs))[0] == SumOf(values) / (|values| as real)
  {
    var vs := Encryptions(context, values);
    SumFoldDecrypts(vs, 1);
    AveragedDecrypts(vs, 1);
    assert Column(vs, 0) == values;
  }

  /** The encrypted sum and average of the client's values decrypt under
      exactly those contexts that hold the secret key of the encrypting key
      pair, with the same parameters, and then to the sum and the mean. */
  lemma AggregateDecryptsOnlyUnderOwnKey(owner: ContextData, other: ContextData, values: seq<real>)
    requires |values| > 0
    ensures var sum := EncodeText(Base64, SerializeVector(SumFold(Encryptions(owner, values))));
      (DecryptResult(other, sum).Success? <==>
         other.params == owner.params && other.secretKey == Some(SecretKey(owner.keyId))) &&
      (DecryptResult(other, sum).Success? ==> DecryptResult(other, sum).value == SumOf(values))
    ensures var avg := EncodeText(Base64, SerializeVector(Averaged(Encryptions(owner, values))));
      (DecryptResult(other, avg).Success? <==>
         other.params == owner.params && other.secretKey == Some(SecretKey(owner.keyId))) &&
      (DecryptResult(other, avg).Success? ==>
         DecryptResult(other, avg).value == SumOf(values) / (|values| as real))
  {
    var vs := Encryptions(owner, values);
    SumFoldUnderKey(vs, owner.params, owner.keyId);
    SumOfEncryptions(owner, values);
    DecryptsOnlyUnderOwnKey(SumFold(vs), owner, other);
    DecryptsOnlyUnderOwnKey(Averaged(vs), owner, other);
  }

  /** A returned ciphertext made under `owner`'s key pair yields its slot 0
      exactly to a context holding that key pair's secret key. */
  lemma DecryptsOnlyUnderOwnKey(c: Ciphertext, owner: ContextData, other: ContextData)
    requires UnderKey(c, owner.params, owner.keyId)
    requires |Decrypted(c)| > 0
    ensures var t := EncodeText(Base64, SerializeVector(c));
      (DecryptResult(other, t).Success? <==>
         other.params == owner.params && other.secretKey == Some(SecretKey(owner.keyId))) &&
      (DecryptResult(other, t).Success? ==> DecryptResult(other, t).value == Decrypted(c)[0])
  {
    var t := EncodeText(Base64, SerializeVector(c));
    assert DecodeVector(Base64, other, t) == Success(c);
    if other.secretKey.Some? && UnderKey(c, other.params, other.secretKey.value.owner) {
      UnderOneKey(c, owner.params, owner.keyId, other.params, other.secretKey.value.owner);
    }
  }

  /** `analyze`: a fresh context encrypts the values and decrypts the
      result. The whole round trip yields the exact sum or mean; an unknown
      operation or an empty list makes the backend raise, which reaches the
      client as an HTTP error before any decryption. */
  method Analyze(req: AnalyzeRequest, keyId: KeyId) returns (r: Result<AnalyzeResponse, Error>)
    ensures req.operation == "sum" && |req.values| > 0 ==>
      r == Success(AnalyzeResponse(SumOf(req.values)))
    ensures req.operation == "average" && |req.values| > 0 ==>
      r == Success(AnalyzeResponse(SumOf(req.values) / (|req.values| as real)))
    ensures req.operation != "sum" && req.operation != "average" ==>
      r == Failure(HttpError(InternalServerError))
    ensures |req.values| == 0 ==> r == Failure(HttpError(InternalServerError))
  {
    var context := CreateContext(keyId);
    var encryptedVectors := EncryptValues(context, req.values);
    var payload := Payload(context, encryptedVectors, req.operation);
    ghost var full := context.Data();
    ghost var vs := Encryptions(full, req.values);
    assert payload.context == EncodeText(Base64, ContextBytes(full.Public()));
    PayloadVectors(full, req.values, encryptedVectors);
    assert RequestVectors(Base64, payload.context, payload.encryptedVectors) == Success(vs);
    var response := Compute(payload);
    if response.Failure? {
      return Failure(HttpError(InternalServerError));
    }
    assert |req.values| > 0 && (req.operation == "sum" || req.operation == "average");
    AggregateDecryptsOnlyUnderOwnKey(full, full, req.values);
    ghost var aggregate := if req.operation == "sum" then SumFold(vs) else Averaged(vs);
    assert response.value.encryptedResult == EncodeText(Base64, SerializeVector(aggregate));
    var decrypted := DecryptResult(context.Data(), response.value.encryptedResult);
    match decrypted
    case Success(result) =>
      r := Success(AnalyzeResponse(result));
    case Failure(e) =>
      r := Failure(e);
  }
}
