/** backend/main.py: the two aggregation endpoints. Each loads the context
    received in the request, deserialises every ciphertext under it in
    order, aggregates, and returns one encoded ciphertext. Neither creates a
    context nor decrypts. */
module Backend {
  import opened Wrappers
  import opened Errors
  import opened Tenseal
  import opened Wire
  import opened Crypto

  /** Body of `POST /compute`: base64 text throughout. */
  datatype ComputeRequest = ComputeRequest(context: Text, encryptedVectors: seq<Text>, operation: string)

  datatype ComputeResponse = ComputeResponse(encryptedResult: Text)

  /** Body of `POST /population/average`: hex text throughout. */
  datatype PopulationRequest = PopulationRequest(publicContext: Text, encryptedValues: seq<Text>)

  datatype PopulationResponse = PopulationResponse(encryptedAverage: Text)

  /** Decode the context text, then load the context. */
  function RequestContext(codec: Codec, contextText: Text): (r: Result<ContextData, Error>)
    ensures r.Success? <==> exists c :: contextText == EncodeText(codec, ContextBytes(c))
    ensures r.Success? ==> contextText == EncodeText(codec, ContextBytes(r.value))
    ensures DecodeText(codec, contextText).Failure? ==> r == Failure(MalformedEncoding)
    ensures DecodeText(codec, contextText).Success? && r.Failure? ==> r.error == MalformedContext
  {
    var contextBytes :- DecodeText(codec, contextText);
    LoadContext(contextBytes)
  }

  /** Decode one vector text, then deserialise it under `context`. */
  function DecodeVector(codec: Codec, context: ContextData, t: Text): (r: Result<Ciphertext, Error>)
    ensures r.Success? <==> exists c :: t == EncodeText(codec, SerializeVector(c))
    ensures r.Success? ==> t == EncodeText(codec, SerializeVector(r.value))
    ensures DecodeText(codec, t).Failure? ==> r == Failure(MalformedEncoding)
    ensures DecodeText(codec, t).Success? && r.Failure? ==> r.error == MalformedCiphertext
  {
    var raw :- DecodeText(codec, t);
    DeserializeVector(context, raw)
  }

  /** Decode the texts front to back, stopping at the first failure. */
  function DecodeAll(codec: Codec, context: ContextData, texts: seq<Text>): Result<seq<Ciphertext>, Error>
    decreases |texts|
  {
    if |texts| == 0 then Success([])
    else
      var init :- DecodeAll(codec, context, texts[..|texts| - 1]);
      var last :- DecodeVector(codec, context, texts[|texts| - 1]);
      Success(init + [last])
  }

  /** Everything an endpoint does before it aggregates: load the context,
      then decode every vector under it. */
  function RequestVectors(codec: Codec, contextText: Text, texts: seq<Text>): Result<seq<Ciphertext>, Error> {
    var context :- RequestContext(codec, contextText);
    DecodeAll(codec, context, texts)
  }

  /** Once a vector fails to decode, the whole list fails with its error. */
  lemma {:induction false} DecodeAllStopsAtFailure(codec: Codec, context: ContextData, texts: seq<Text>, i: nat)
    requires i < |texts|
    requires DecodeAll(codec, context, texts[..i]).Success?
    requires DecodeVector(codec, context, texts[i]).Failure?
    ensures DecodeAll(codec, context, texts) == Failure(DecodeVector(codec, context, texts[i]).error)
    decreases |texts|
  {
    var n := |texts|;
    if i == n - 1 {
      assert texts[..n - 1] == texts[..i];
    } else {
      var init := texts[..n - 1];
      assert init[..i] == texts[..i];
      assert init[i] == texts[i];
      DecodeAllStopsAtFailure(codec, context, init, i);
    }
  }

  /** Decoding succeeds exactly when every text decodes; it then yields one
      ciphertext per text, in the same order. Otherwise it fails with the
      error of the first text that does not decode. */
  lemma {:induction false} DecodeAllInOrder(codec: Codec, context: ContextData, texts: seq<Text>)
    ensures DecodeAll(codec, context, texts).Success? <==>
      forall i :: 0 <= i < |texts| ==> DecodeVector(codec, context, texts[i]).Success?
    ensures DecodeAll(codec, context, texts).Success? ==>
      |DecodeAll(codec, context, texts).value| == |texts| &&
      forall i :: 0 <= i < |texts| ==>
        DecodeAll(codec, context, texts).value[i] == DecodeVector(codec, context, texts[i]).value
    ensures DecodeAll(codec, context, texts).Failure? ==>
      exists k :: 0 <= k < |texts| &&
        DecodeVector(codec, context, texts[k]) == Failure(DecodeAll(codec, context, texts).error) &&
        forall i :: 0 <= i < k ==> DecodeVector(codec, context, texts[i]).Success?
    decreases |texts|
  {
    if |texts| > 0 {
      var n := |texts|;
      var init := texts[..n - 1];
      DecodeAllInOrder(codec, context, init);
      assert forall i :: 0 <= i < n - 1 ==> init[i] == texts[i];
      if DecodeAll(codec, context, init).Success? && DecodeVector(codec, context, texts[n - 1]).Failure? {
        assert forall i :: 0 <= i < n - 1 ==> DecodeVector(codec, context, texts[i]).Success?;
      }
    }
  }

  /** The decoding loop of both endpoints: append each decoded vector in turn. */
  method DeserializeVectors(codec: Codec, context: ContextData, texts: seq<Text>)
    returns (r: Result<seq<Ciphertext>, Error>)
    ensures r == DecodeAll(codec, context, texts)
  {
    var vectors := [];
    for i := 0 to |texts|
      invariant DecodeAll(codec, context, texts[..i]) == Success(vectors)
    {
      var rawBytes := DecodeText(codec, texts[i]);
      if rawBytes.Failure? {
        DecodeAllStopsAtFailure(codec, context, texts, i);
        return Failure(rawBytes.error);
      }
      var vec := DeserializeVector(context, rawBytes.value);
      if vec.Failure? {
        DecodeAllStopsAtFailure(codec, context, texts, i);
        return Failure(vec.error);
      }
      assert texts[..i + 1][..i] == texts[..i];
      vectors := vectors + [vec.value];
    }
    assert texts[..|texts|] == texts;
    return Success(vectors);
  }

  /** `POST /compute`. The operation is compared, exactly and only after all
      decoding, with "sum" and "average"; anything else raises and produces
      no result. An empty vector list fails inside the aggregation. */
  method Compute(req: ComputeRequest) returns (r: Result<ComputeResponse, Error>)
    ensures var decoded := RequestVectors(Base64, req.context, req.encryptedVectors);
      decoded.Failure? ==> r == Failure(decoded.error)
    ensures var decoded := RequestVectors(Base64, req.context, req.encryptedVectors);
      decoded.Success? && req.operation != "sum" && req.operation != "average" ==>
        r == Failure(UnsupportedOperation)
    ensures var decoded := RequestVectors(Base64, req.context, req.encryptedVectors);
      decoded.Success? && |decoded.value| == 0 && (req.operation == "sum" || req.operation == "average") ==>
        r == Failure(IndexError)
    ensures var decoded := RequestVectors(Base64, req.context, req.encryptedVectors);
      decoded.Success? && |decoded.value| > 0 && req.operation == "sum" ==>
        r == Success(ComputeResponse(EncodeText(Base64, SerializeVector(SumFold(decoded.value)))))
    ensures var decoded := RequestVectors(Base64, req.context, req.encryptedVectors);
      decoded.Success? && |decoded.value| > 0 && req.operation == "average" ==>
        r == Success(ComputeResponse(EncodeText(Base64, SerializeVector(Averaged(decoded.value)))))
  {
    var contextBytes :- DecodeText(Base64, req.context);
    var context :- LoadContext(contextBytes);
    var vectors :- DeserializeVectors(Base64, context, req.encryptedVectors);
    var encryptedResult;
    if req.operation == "sum" {
      encryptedResult :- ComputeSum(vectors);
    } else if req.operation == "average" {
      encryptedResult :- ComputeAverage(vectors);
    } else {
      return Failure(UnsupportedOperation);
    }
    return Success(ComputeResponse(EncodeText(Base64, SerializeVector(encryptedResult))));
  }

  /** `POST /population/average`: no operation field, always the average,
      hex text in and out. */
  method EncryptedPopulationAverage(req: PopulationRequest) returns (r: Result<PopulationResponse, Error>)
    ensures var decoded := RequestVectors(Hex, req.publicContext, req.encryptedValues);
      decoded.Failure? ==> r == Failure(decoded.error)
    ensures var decoded := RequestVectors(Hex, req.publicContext, req.encryptedValues);
      decoded.Success? && |decoded.value| == 0 ==> r == Failure(IndexError)
    ensures var decoded := RequestVectors(Hex, req.publicContext, req.encryptedValues);
      decoded.Success? && |decoded.value| > 0 ==>
        r == Success(PopulationResponse(EncodeText(Hex, SerializeVector(Averaged(decoded.value)))))
  {
    var contextBytes :- DecodeText(Hex, req.publicContext);
    var context :- LoadContext(contextBytes);
    var vectors :- DeserializeVectors(Hex, context, req.encryptedValues);
    var encryptedAvg :- ComputeAverage(vectors);
    return Success(PopulationResponse(EncodeText(Hex, SerializeVector(encryptedAvg))));
  }

  /** The only context an endpoint holds is the one in the request; when the
      request carries a public context, that context cannot decrypt. */
  lemma BackendCannotDecrypt(codec: Codec, context: ContextData, c: Ciphertext)
    requires context.IsPublic()
    ensures RequestContext(codec, EncodeText(codec, ContextBytes(context))) == Success(context)
    ensures context.Decrypt(c) == Failure(MissingSecretKey)
  {
  }
}
