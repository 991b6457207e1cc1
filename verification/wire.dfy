/** Text encodings of bytes carried in JSON fields: base64 (the `/compute`
    endpoint and the client) and hex (the `/population/average` endpoint).
    The alphabets are not modelled: a text records which codec wrote which
    bytes, and decoding it with the other codec, or decoding text no codec
    wrote, fails. */
module Wire {
  import opened Wrappers
  import opened Errors
  import opened Tenseal

  datatype Codec = Base64 | Hex

  datatype Text =
    | Encoded(codec: Codec, bytes: Blob)
    | Malformed(chars: string)

  /** `base64.b64encode(b).decode()` or `b.hex()`: the same codec decodes
      the text back to `b`, and the other codec rejects it. */
  function EncodeText(codec: Codec, b: Blob): (t: Text)
    ensures DecodeText(codec, t) == Success(b)
    ensures forall other :: other != codec ==> DecodeText(other, t) == Failure(MalformedEncoding)
  {
    Encoded(codec, b)
  }

  /** `base64.b64decode(t)` or `bytes.fromhex(t)`: only text this codec
      wrote decodes, to the bytes it carries. */
  function DecodeText(codec: Codec, t: Text): (r: Result<Blob, Error>)
    ensures r.Success? <==> t.Encoded? && t.codec == codec
    ensures r.Success? ==> r.value == t.bytes
    ensures r.Failure? ==> r.error == MalformedEncoding
  {
    if t.Encoded? && t.codec == codec then Success(t.bytes) else Failure(MalformedEncoding)
  }

  /** Text that decodes was written by that codec from the decoded bytes. */
  lemma DecodedWasEncoded(codec: Codec, t: Text)
    requires DecodeText(codec, t).Success?
    ensures EncodeText(codec, DecodeText(codec, t).value) == t
  {
  }
}
