# Encrypted aggregation: a Dafny model

This project models the core of a small system for computing the sum or
average of values that a remote service never sees in the clear. The client
(`client/client.py`) creates a CKKS context with the TenSEAL library. It
encrypts one single-slot vector per value and sends the encrypted values
with a copy of the context that has no secret key. The backend
(`backend/main.py`, `backend/crypto.py`) loads that context and deserialises
the ciphertexts. It then folds them into one ciphertext, the homomorphic sum
or average, and sends it back. The client decrypts slot 0 of the result with
the full context it kept.

Modules, one per source file plus two for the pieces the code calls into:

- `Tenseal` (tenseal.dfy) is an abstract model of the library.
  - `Context` is a class: `create_context` changes a context object in place.
  - `ContextData` is the value of a context; `Public()` drops the secret key.
  - A `Ciphertext` is the expression that produced it: `Encrypted`, `Added`
    or `Scaled`. `Decrypted` gives its plaintext slots in exact real
    arithmetic, an idealisation of CKKS.
  - `Blob` stands for the bytes the library writes.
- `Wire` (wire.dfy) holds the base64 and hex text encodings, as tagged values.
- `Crypto` (crypto.dfy) is `backend/crypto.py`: `compute_sum` is a loop method
  proved against the left fold `SumFold`.
- `Backend` (backend.dfy) is `backend/main.py`: the decoding loop and both endpoints.
- `Client` (client.dfy) is `client/client.py`. `Analyze` calls
  `Backend.Compute` where the source posts to the backend's `/compute` URL.
  This makes `Analyze`'s contract the end-to-end statement of the protocol.
- `Wrappers` and `Errors` (wrappers.dfy) hold `Option`, `Result` and the
  kinds of exception the code raises.

The code defines no exception types. Its one explicit raise is a
`ValueError` for an unknown operation (backend/main.py:51). Otherwise:

- an empty list fails with an `IndexError` at `vectors[0]`;
- the operation string is compared only after every vector has been
  deserialised;
- nothing checks the received context's parameters or multiplicative depth.

## Model

| member | source | states |
|---|---|---|
| `Crypto.LoadContext` | backend/crypto.py:3-8 | bytes that are a serialised context load as exactly that context; any other bytes fail with MalformedContext |
| `Crypto.DeserializeVector` | backend/crypto.py:11-15 | bytes that are a serialised vector load as exactly that ciphertext; any other bytes fail with MalformedCiphertext |
| `Crypto.SerializationRoundTrip` | backend/crypto.py:3-15 | serialising then loading gives back the same ciphertext (under any context) and the same context |
| `Crypto.ComputeSum` | backend/crypto.py:18-25 | an empty list fails with IndexError; one vector is returned unchanged with no addition; otherwise the result is the left fold ((v0+v1)+v2)+… in list order |
| `Crypto.ComputeAverage` | backend/crypto.py:28-34 | an empty list fails in the sum (IndexError), so 1/len is never formed for len 0; otherwise the result is the fold multiplied once by the plaintext 1/len |
| `Crypto.SumFoldDecrypts` | backend/crypto.py:18-25 | when every input has n slots, the sum has n slots and slot j decrypts to the sum of the inputs' slot j |
| `Crypto.AveragedDecrypts` | backend/crypto.py:28-34 | when every input has n slots, slot j of the average decrypts to the mean of the inputs' slot j |
| `Crypto.AverageOfOne` | backend/crypto.py:32-33 | the average of one ciphertext decrypts to that ciphertext's plaintext |
| `Crypto.SumFoldOperations` | backend/crypto.py:22-34 | the fold performs exactly len−1 additions of its own and no multiplication; the average adds exactly one plaintext multiplication |
| `Crypto.SumFoldUnderKey` | backend/crypto.py:18-34 | if every input was encrypted under the same parameters and key pair, so are the sum and the average: the aggregation uses only the ciphertexts given |
| `Crypto.ColumnPermutation` | backend/crypto.py:22-25 | reordering the inputs leaves the sum of every slot unchanged |
| `Crypto.SumFoldPermutation` | backend/crypto.py:22-34 | sum and average decrypt to the same plaintext for any reordering of the inputs |
| `Backend.DecodeAllStopsAtFailure` | backend/main.py:40-44 | the first vector that fails to decode makes the whole list fail with that vector's error |
| `Backend.DecodeAllInOrder` | backend/main.py:40-44 | decoding succeeds exactly when every entry decodes; it then gives one ciphertext per entry in the same order, and otherwise the error of the first entry that fails |
| `Backend.DeserializeVectors` | backend/main.py:40-44 | the append loop computes exactly the in-order decoding of all entries under the one loaded context |
| `Backend.Compute` | backend/main.py:35-57 | a decoding failure comes first; then "sum" gives the base64 text of the fold and "average" that of the average, by exact string match; any other operation raises UnsupportedOperation with no result; an empty list raises IndexError |
| `Backend.EncryptedPopulationAverage` | backend/main.py:60-77 | with no operation field, the result is always the hex text of the average of the hex-decoded vectors; decoding errors and an empty list raise |
| `Backend.BackendCannotDecrypt` | backend/main.py:63-65 | a request that carries a public context loads exactly that context, and decryption with it fails with MissingSecretKey |
| `Wire.EncodeText` | backend/main.py:53-57 | text written by a codec (base64 at main.py:53-57 and client.py:43, hex at main.py:76) decodes back to the same bytes under that codec; in the model the other codec rejects it |
| `Wire.DecodeText` | backend/main.py:37 | text decodes exactly when it is text of this codec, to the bytes it carries; anything else fails with MalformedEncoding |
| `Wire.DecodedWasEncoded` | backend/main.py:64 | text that decodes is exactly what that codec writes for the decoded bytes |
| `Backend.RequestContext` | backend/main.py:37-38 | the context text loads exactly when it is the encoding of a serialised context, and then as that context; a decoding failure gives MalformedEncoding, decodable bytes that are no context give MalformedContext |
| `Backend.DecodeVector` | backend/main.py:42-43 | a vector text loads exactly when it is the encoding of a serialised ciphertext, and then as that ciphertext; a decoding failure gives MalformedEncoding, decodable bytes that are no ciphertext give MalformedCiphertext (the hex endpoint does the same at main.py:69-70) |
| `Tenseal.ContextData.Public` | client/client.py:76-79 | the public projection has no secret key and differs from the context in nothing else |
| `Tenseal.ContextData.Decrypt` | client/client.py:50 | decryption succeeds exactly when the context holds the secret key of the key pair the ciphertext was made under, and then yields its plaintext; a context without secret key gives MissingSecretKey, one with another key pair's key gives KeyMismatch |
| `Tenseal.UnderOneKey` | client/client.py:42 | a ciphertext is made under at most one parameter set and key pair, so at most one secret key decrypts it |
| `Tenseal.Context.Serialize` | client/client.py:76-79 | the serialised context keeps everything but the secret key, which is absent whenever save_secret_key is false and is the context's own key when it is true |
| `Tenseal.SerializeVector` | backend/main.py:55 | the bytes written for a ciphertext are vector bytes that carry that whole ciphertext |
| `Tenseal.Context.constructor` | client/client.py:28-32 | `ts.context` creates a context with the given parameters and its own fresh key pair, with no evaluation keys and no global scale yet |
| `Tenseal.Context.GenerateGaloisKeys` | client/client.py:33 | the context now holds galois keys; nothing else changes |
| `Tenseal.Context.GenerateRelinKeys` | client/client.py:34 | the context now holds relinearisation keys; nothing else changes |
| `Tenseal.Context.SetGlobalScale` | client/client.py:35 | the context's global scale is now the given value; nothing else changes |
| `Tenseal.Encrypt` | client/client.py:42 | a fresh encryption decrypts to the given slots, is bound to the context's parameters and key pair, and involves no homomorphic operation |
| `Client.CreateContext` | client/client.py:27-36 | a fresh CKKS context with degree 8192, chain [60, 40, 40, 60], galois and relinearisation keys, global scale 2^40 and its own secret key |
| `Client.EncryptValues` | client/client.py:39-44 | exactly one base64 text per value, in input order, each the encryption of the one-slot vector [v] |
| `Client.DecryptResult` | client/client.py:47-50 | text that does not decode gives its decoding error; a decodable ciphertext under a context without secret key gives MissingSecretKey; under another key pair's secret key it gives KeyMismatch; under the encrypting key pair's secret key it gives slot 0 of its plaintext, or IndexError when the plaintext has no slot |
| `Client.EncryptDecryptRoundTrip` | client/client.py:39-50 | a value the client encrypts decrypts back to itself under the full context holding its own key pair's secret key and fails with MissingSecretKey under the public one |
| `Client.Payload` | client/client.py:76-82 | the context the backend loads from the payload is the client context's public projection; vectors and operation string are forwarded unchanged |
| `Client.Encryptions` | client/client.py:39-44 | one single-slot encryption per value, in order |
| `Client.PayloadVectors` | client/client.py:72-82 | the backend decodes the payload into the client's encryptions, one per value, in order |
| `Client.SumOfEncryptions` | client/client.py:39-44 | the sum of the single-slot encryptions decrypts to the sum of the values, and the average to their mean |
| `Client.DecryptsOnlyUnderOwnKey` | client/client.py:47-50 | a returned ciphertext made under one context's key pair decrypts exactly under a context holding that key pair's secret key and parameters, and then to its slot 0 |
| `Client.AggregateDecryptsOnlyUnderOwnKey` | client/client.py:72-88 | the encrypted sum and average of the client's values decrypt exactly under the context that encrypted them (its secret key and parameters), and then to the sum and the mean; every other context fails |
| `Client.Analyze` | client/client.py:70-90 | end to end: "sum" with at least one value returns exactly their sum and "average" their mean; any other operation or an empty list makes the backend raise, which reaches the client as HTTP 500 before any decryption |

## Left out

- TenSEAL internals are abstract: key generation, the CKKS encoding and
  encryption, noise, and the byte formats of contexts and ciphertexts. A
  ciphertext records the operations that made it. The random key pair is a
  `KeyId` parameter of `Client.CreateContext`.
- Approximate arithmetic: `Decrypted` uses exact reals, and the float
  `1/len(vectors)` becomes the exact real `1/len`. The model states no error
  bounds.
- Aliasing: `result += v` may update `vectors[0]` in place. The model
  builds a fresh accumulator instead.
- `Wire.EncodeText`, `Wire.DecodeText`, `Wire.DecodedWasEncoded`: base64
  and hex alphabets are not modelled, and text that the other codec wrote,
  or that no codec wrote, fails to decode. The real decoders are more
  lenient. `base64.b64decode` without validation discards characters
  outside its alphabet. It also accepts hex text of an even number of
  bytes, since every hex digit is a base64 character. `bytes.fromhex`
  accepts upper case and whitespace. "Rejected by the other codec" and
  "text that decodes is what that codec writes" hold of the model only.
- Transport: FastAPI routing, pydantic validation, CORS and network failures
  of `requests.post` are left out. `Client.Analyze` calls `Backend.Compute`
  directly. Every exception the backend raises reaches the client as
  status 500, which `raise_for_status` turns into `HttpError(500)`.
- `Tenseal.Decrypted`, `Crypto.ComputeSum`: adding vectors of different
  slot counts or parameters is library-defined (it may raise). The model
  sums the slots both have, so `ComputeSum` and `Backend.Compute` succeed
  on such lists. No lemma relies on this: each assumes equal slot counts.
- `Tenseal.ContextData.Decrypt`, `Client.DecryptResult`: decrypting with another key pair's
  secret key yields noise in CKKS and raises nothing. The model returns
  `KeyMismatch` instead, which marks that no plaintext is recovered.
- `Crypto.DeserializeVector`: the link `ckks_vector_from` makes between a
  vector and the context it was loaded under is not kept, and the context
  argument is unused. Which key pair a ciphertext belongs to is recorded
  in the ciphertext itself (`Tenseal.UnderKey`), and decryption checks it.
- `Client.Analyze`: the context object it creates and decrypts with is
  local, so its contract states the exact sum and mean it returns but
  names no context. That only the encrypting context can decrypt the
  result is stated for context values by
  `Client.AggregateDecryptsOnlyUnderOwnKey`, which the proof of `Analyze`
  uses.
- `Crypto.ComputeAverage`, `Backend.Compute`,
  `Backend.EncryptedPopulationAverage`: the multiplication by `1/len`
  consumes one level of the modulus chain. The contexts this repository
  builds (client.py:29-31, batch_encrypt.py:18-22) have a level to spare,
  but both endpoints load whatever context the request carries and check
  nothing. Under a received context with no level left the library raises
  at crypto.py:33, while these members return `Success`. The model does not
  track levels beyond `Tenseal.Multiplications`.
- Encrypting with no global scale set is a library failure the code never
  triggers: `create_context` always sets the scale before encrypting.
- `frontend/src/App.jsx` (display and risk thresholds),
  `batch_encrypt.py` and `preprocess_kaggle.py` are file and UI plumbing.
  None of them is part of this model.
