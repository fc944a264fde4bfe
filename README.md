# ndn-js ContentObject: a verified model of the packet's field codec

This project models the field-level serialisation contract of a signed Named
Data Networking packet (a ContentObject in the ccnb "binary XML" encoding), as
written in `js/ContentObject.js` of ndn-js, and proves properties of it in
Dafny.

The encoder and decoder are modelled as token streams rather than bytes. A
token is one of four kinds:

- `Start(tag)` opens an element;
- `Elem(tag, payload)` is a leaf element;
- `Inner(body)` is the opaque body of a sub-object;
- `End` closes an element.

Sub-objects whose own code lives elsewhere (Name, PublisherPublicKeyDigest,
KeyLocator) are written as `[Start(tag), Inner(body), End]`. The
`BinaryXml.Encoder` class holds an output sequence that only grows. The
`BinaryXml.Decoder` class holds a fixed input and a cursor. Its
`PeekStartElement` has no `modifies` clause, so it cannot move the cursor.

Each decoder method is specified by a pure function of the unread stream. The
function returns the decoded fields and the remaining stream, or `None` where
the JavaScript throws.

The modules are:

- `Wrappers`: `Option` for JavaScript's null on object fields, and `Result`.
- `BinaryXml`: tags, payload values, tokens, the encoder and decoder classes,
  and the stream readers that specify them.
- `ContentTypes`: the `ContentType`, `ContentTypeValue` and
  `ContentTypeValueReverse` tables.
- `Signatures`: the `Signature` class with `validate`, `to_ndnb` and
  `from_ndnb`.
- `SignedInfos`: the `SignedInfo` class with its constructor, `setFields`,
  `validate`, `to_ndnb` and `from_ndnb`.
- `ContentObjects`: the `ContentObject` class with its constructor,
  `encodeObject`, `encodeContent`, `sign`, `verify` and `saveRawData`.

JavaScript null on a scalar field is `Value.Null`. Null on an object field is
`Option.None`. Two source fields are renamed because their names are Dafny
keywords: `type` becomes `contentType`, and `witness` becomes `witnessData`.

Where the model parametrises behaviour:

- `SignedInfo.to_ndnb` writes the type under `NDNProtocolDTags.type`
  (lower case, line 334). `from_ndnb` reads it under `NDNProtocolDTags.Type`
  (lines 275-276). The write tag is therefore the `typeTag` parameter of
  `SignedInfo.ToNdnb`, while the read tag is fixed to `Type`.
  - The round trip is proved for `typeTag == Type`.
  - `MisTaggedTypeRejected` proves that decoding fails whenever the type is
    written under a tag other than the six field tags the decoder looks for
    (`FieldTags`). Under one of those tags the element can be taken for
    another field instead.
- The DigestAlgorithm branch of `Signature.to_ndnb` (lines 157-158) calls
  `NDNDigestHelper` and `OIDLookup`, which the file never imports (lines 7-18
  and 374), and it reads the misspelled property `this.DigestAlgorithm`. The
  model assumes working helpers: the test is the parameter `isDefaultDigest`,
  and the payload written is the parameter `digestOid`. The payload does not
  depend on the field, just as in the source.
- `setFields` reads the process-wide key manager and the clock. It is modelled
  as taking an `Identity` (the key id and the DER form of the public key) and
  the time `now`.
  - The constructor calls it unconditionally (line 197).
  - The constructor's contract therefore states that publisher, timestamp,
    type and locator are always overwritten.
- `sign` and `verify` take the RSA primitives as function parameters
  (`rsaSign`, `rsaVerify`). The encoder's byte form (`getReducedOstream`) is
  the parameter `serialize`. The private key is a parameter.
- The constructor takes the text-to-Name parser and
  `DataUtils.toNumbersFromString` as parameters.
- `saveRawData` uses Node's `Buffer.slice`, whose semantics are not in this
  file. The model's `Slice` follows Node 0.10's `clamp`:
  - an index that is not a number takes its default (0 for the start, the
    length for the end);
  - a negative index counts from the end;
  - both indices are clamped to the buffer;
  - the result is empty when the indices cross.

Notes on the source as written:

- The SignedInfo constructor's doc comment says "Create a new SignedInfo with
  the optional values" (lines 185-188). The constructor then calls
  `setFields()` unconditionally (line 197), so passed-in publisher,
  timestamp, type and locator are always replaced. The model follows the
  code.
- `sign` never fills `rawSignatureData`. After construction and `sign` that
  field is still null, and `verify` hands null to the verifier. The model
  keeps this: only `SaveRawData` sets it. `SignSaveVerify` shows the path on
  which `verify` accepts: `sign`, then `saveRawData` over wire bytes that hold
  the signed encodings.

## Model

| member | source | states |
|---|---|---|
| ContentTypes.ContentTypeValueDomain | js/ContentObject.js:179-180 | the forward table is defined on exactly the six classes DATA, ENCR, GONE, KEY, LINK, NACK |
| ContentTypes.ReverseUndoesValue | js/ContentObject.js:180-181 | looking up a class's wire code in the reverse table gives the class back |
| ContentTypes.ValueUndoesReverse | js/ContentObject.js:180-181 | looking up a wire code's class in the forward table gives the code back |
| ContentTypes.WireCodesDistinct | js/ContentObject.js:180 | no two content classes share a wire code |
| Signatures.Signature.constructor | js/ContentObject.js:117-121 | the three fields hold the arguments |
| Signatures.Signature.ToNdnb | js/ContentObject.js:149-176 | refuses, appending nothing, exactly when the signature bits are null; otherwise appends Start(Signature), the DigestAlgorithm element only for a non-default algorithm (with the digest helpers assumed to work), Witness only when non-null, then SignatureBits and End |
| Signatures.Signature.FromNdnb | js/ContentObject.js:125-146 | the cursor advance and the new fields are exactly what the stream reader `ParseSignature` gives for the unread stream and the old fields; the decode fails exactly where that reader does |
| Signatures.Signature.Validate | js/ContentObject.js:174-176 | true exactly when the signature bits are present |
| Signatures.SignatureRoundTrip | js/ContentObject.js:125-169 | decoding the encoding of a valid Signature, whatever follows it, gives back the witness and the signature bits, keeps the old witness when none was written, and stops just past the block |
| Signatures.MissingSignatureBitsFails | js/ContentObject.js:139-142 | a stream with no SignatureBits element never decodes as a Signature |
| Signatures.ParsedSignatureShape | js/ContentObject.js:139-144 | a successful decode consumed a SignatureBits element and stopped just past a closing token |
| SignedInfos.SignedInfo.constructor | js/ContentObject.js:189-198 | publisher, timestamp, type and locator come from the signing identity and the clock whatever was passed; freshness and final block id are the arguments; the result validates |
| SignedInfos.SignedInfo.SetFields | js/ContentObject.js:202-258 | publisher becomes the key id's digest, timestamp the current time, type DATA, locator the DER public key of kind KEY; the other fields are unchanged and the result validates |
| SignedInfos.SignedInfo.ToNdnb | js/ContentObject.js:316-350 | refuses, appending nothing, exactly when publisher, timestamp or locator is missing; otherwise appends the six fields in source order, each only when set, with the type left out when it is DATA |
| SignedInfos.SignedInfo.FromNdnb | js/ContentObject.js:260-314 | the cursor advance and the new fields are exactly what the stream reader `ParseSignedInfo` gives for the unread stream and the old fields, including the DATA default and the failure on a null type payload |
| SignedInfos.SignedInfo.Validate | js/ContentObject.js:365-371 | true exactly when publisher, timestamp and locator are present |
| SignedInfos.ValidityIgnoresOptionalFields | js/ContentObject.js:365-371 | type, freshness and final block id never change whether a SignedInfo validates |
| SignedInfos.SignedInfo.ReadContentType | js/ContentObject.js:275-295 | the cursor advance and the type are what `ParseType` gives: the Type element's payload when the lookahead sees it, failure on a null payload, DATA with nothing consumed when it is absent |
| SignedInfos.SignedInfoRoundTrip | js/ContentObject.js:260-350 | the encode-then-decode round trip, whatever follows the block: every present field comes back unchanged, absent fields keep the decoding object's value, a missing or DATA type comes back as DATA, and reading stops just past the block |
| SignedInfos.DecodedTypeIsDataIffOmitted | js/ContentObject.js:275-295 | after the round trip, the type is DATA exactly when the encoder left the Type element out |
| SignedInfos.MisTaggedTypeRejected | js/ContentObject.js:332-335 | when the type is written under a tag the decoder never looks for, a SignedInfo whose type is set and is not DATA fails to decode |
| SignedInfos.AbsentFieldsUnchanged | js/ContentObject.js:262-313 | on any stream that decodes, each field whose tag occurs nowhere in the stream read (including past the block) keeps its old value (the type becomes DATA), and decoding stops just past a closing token |
| SignedInfos.PublisherFrame | js/ContentObject.js:264-313 | decoding from the publisher field on: each field whose tag occurs nowhere in the stream read (including past the block) keeps its value (the type becomes DATA), and decoding stops just past a closing token |
| SignedInfos.TimestampFrame | js/ContentObject.js:270-313 | decoding from the timestamp field on: the publisher is untouched, each later field whose tag occurs nowhere in the stream read (including past the block) keeps its value (the type becomes DATA), and decoding stops just past a closing token |
| SignedInfos.TypeFrame | js/ContentObject.js:275-313 | decoding from the type field on: the earlier fields are untouched, a Type tag occurring nowhere in the stream read gives DATA, each later field whose tag occurs nowhere there keeps its value, and decoding stops just past a closing token |
| SignedInfos.FreshnessFrame | js/ContentObject.js:297-313 | decoding from the freshness field on: the earlier fields are untouched, each later field whose tag occurs nowhere in the stream read keeps its value, and decoding stops just past a closing token |
| SignedInfos.FinalBlockIDFrame | js/ContentObject.js:302-313 | decoding from the final block id on: the earlier fields are untouched, each later field whose tag occurs nowhere in the stream read keeps its value, and decoding stops just past a closing token |
| SignedInfos.LocatorFrame | js/ContentObject.js:307-313 | decoding the locator: the other fields are untouched, a KeyLocator tag occurring nowhere in the stream read leaves the locator unchanged, and decoding stops just past a closing token |
| ContentObjects.ContentObject.constructor | js/ContentObject.js:28-50 | a string name is parsed and string content becomes its bytes, other arguments are stored as given; the signature is new and empty, and the offsets and signed bytes are null |
| ContentObjects.ContentObject.EncodeName | js/ContentObject.js:80-89 | fails exactly when the name is missing; otherwise gives the bytes of the name's own encoding |
| ContentObjects.ContentObject.EncodeSignedInfo | js/ContentObject.js:80-89 | fails exactly when the SignedInfo is missing or does not validate; otherwise gives the bytes of its block's encoding |
| ContentObjects.ContentObject.EncodeContent | js/ContentObject.js:92-101 | gives the bytes of a single Content element holding the content |
| ContentObjects.ContentObject.Sign | js/ContentObject.js:54-66 | succeeds exactly when name and a valid SignedInfo are present; then the signature bits are the signer's output over the name, SignedInfo and content encodings concatenated in that order; witness, digest algorithm, the signature object and the saved signed bytes are never changed |
| ContentObjects.ContentObject.Verify | js/ContentObject.js:69-77 | throws exactly when the key or its PEM form is null; otherwise returns the verifier's verdict on the saved signed bytes and the signature bits |
| ContentObjects.VerifyOutcome | js/ContentObject.js:69-77 | fails with the source's message exactly when the key or its PEM form is null |
| ContentObjects.SignedVerifies | js/ContentObject.js:54-77 | for a matching key pair (the verifier accepts the signer's output over any bytes), saved bytes with bits signed over exactly them verify as true |
| ContentObjects.ContentObject.SaveRawData | js/ContentObject.js:104-109 | the saved signed bytes are the slice of the wire bytes between the saved offsets; no other field, the Signature object included, changes |
| ContentObjects.Slice | js/ContentObject.js:106 | a slice is never longer than the buffer |
| ContentObjects.SliceIndex | js/ContentObject.js:106 | an index within the buffer is kept, a negative one counts from the end, a missing one takes its default, and the result lies within the buffer |
| ContentObjects.SliceInBounds | js/ContentObject.js:104-109 | with `0 <= startSIG <= endSIG <= length`, the saved bytes are exactly `bytes[startSIG..endSIG]`, and there are `endSIG - startSIG` of them |
| ContentObjects.SliceIsWindow | js/ContentObject.js:106 | whatever the offsets, the saved bytes are a contiguous window of the wire bytes |
| ContentObjects.SliceFromEnd | js/ContentObject.js:106 | negative offsets count back from the end of the wire bytes |
| ContentObjects.SliceWhole | js/ContentObject.js:106 | with both offsets null, the whole buffer is saved |
| ContentObjects.SavedRegionVerifies | js/ContentObject.js:104-109 | for a matching key pair and in-bounds offsets, the slice `saveRawData` keeps verifies against bits signed over `bytes[startSIG..endSIG]` |
| ContentObjects.SignSaveVerify | js/ContentObject.js:54-109 | for a packet with a name and a valid SignedInfo whose wire bytes hold the name, SignedInfo (type written under `Type`) and content encodings between the saved offsets, `sign` then `saveRawData` leaves a packet that `verify` accepts under the matching public key |

## Left out

- RSA-SHA256 signing and verification (lines 59-64 and 74-76) are foreign cryptographic calls. They are the parameters `rsaSign` and `rsaVerify`. In particular, a Node `crypto` error on null signed bytes is not modelled.
- The byte-level binary XML grammar of BinaryXMLEncoder and BinaryXMLDecoder is not part of this model. The encoder's byte form is the parameter `serialize`. The typed readers (`readBinaryElement`, `readUTF8Element`, `readIntegerElement`, `readDateTime`) are one reader, `ReadElement`, that returns the payload under its tag.
- PublisherPublicKeyDigest, KeyLocator and Name encode and decode their own bodies in files that are not part of this model. Here they are opaque bodies between their own start and end tokens.
- The partial state after a failed decode is not modelled: a throwing `from_ndnb` may have assigned some fields. The specification function returns `None`, and the methods promise nothing about the fields on failure.
- `ContentObject.from_ndnb`, `to_ndnb`, `encode` and `decode` (lines 374-408) delegate to BinaryXmlWireFormat, which is not part of this model. That code is also what sets `startSIG`, `endSIG` and `endContent`, which are plain fields here.
- `valueToType` (lines 352-359) is a stub that always returns null and has no caller in the file.
- `getElementLabel` of the three classes is the function `ElementLabel`, which has no contract.
- Logging (`LOG`, `console.log`) is left out. So is the `publicKeyBytes` reference on line 252: it names a variable that is only declared inside a comment, and it runs only when logging is above level 4.
- JavaScript's loose equality is not modelled. The type test `this.type != 0` on line 332 is modelled as "not the integer 0", so a string "0" counts as written.
- Slice: the null-offset default follows Node 0.10's `Buffer.slice`. Other runtimes read a null end offset as 0. For offsets that are numbers, the runtimes agree.
- Signatures.Signature.ToNdnb: the DigestAlgorithm element is abstract, through `isDefaultDigest` and `digestOid`, and the model assumes those helpers work. As written, a non-null `digestAlgorithm` makes line 157 throw: the helpers are never imported, and a decoded algorithm is a string (line 132), which has no `.equals`. That throw comes after line 155 has written `Start(Signature)`, so it is a partial write. The model does not capture it: it writes the whole block.

## Findings

| source | as written | input that shows it | evidently intended | confidence | as-written member | corrected member |
|---|---|---|---|---|---|---|
| js/ContentObject.js:334 | `to_ndnb` writes the type under `NDNProtocolDTags.type`, while `from_ndnb` looks for `NDNProtocolDTags.Type` (line 275) | a SignedInfo of type KEY (3) written under a tag other than the six field tags the decoder looks for fails to decode | the type is written under `Type`, so that encode-then-decode returns it | medium, not executed; it depends on NDNProtocolDTags, which is not part of this model | SignedInfos.MisTaggedTypeRejected | SignedInfos.SignedInfoRoundTrip |
