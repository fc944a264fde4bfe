/**
 * The Signature block of a packet: an optional digest algorithm, an optional
 * witness and the signature bits (js/ContentObject.js, `Signature`).
 */
module Signatures {
  import opened Wrappers
  import opened BinaryXml

  /** The three fields of a Signature as plain values. */
  datatype SignatureFields = SignatureFields(witnessData: Value, signature: Value, digestAlgorithm: Value)

  /** `validate()`: the signature bits are present. */
  predicate ValidSignature(s: SignatureFields)
  {
    s.signature != Null
  }

  /**
   * The tokens `to_ndnb` writes for a valid signature. The digest-algorithm
   * helpers the source calls are parameters: `isDefaultDigest` is the
   * comparison with the default algorithm and `digestOid` the payload written,
   * which the source looks up from a misspelled property and which therefore
   * does not depend on the field.
   */
  function SignatureTokens(s: SignatureFields, isDefaultDigest: Value -> bool, digestOid: Value): seq<Token>
  {
    [Start(Tag.Signature)]
    + (if s.digestAlgorithm != Null && !isDefaultDigest(s.digestAlgorithm) then [Elem(DigestAlgorithm, digestOid)] else [])
    + (if s.witnessData != Null then [Elem(Witness, s.witnessData)] else [])
    + [Elem(SignatureBits, s.signature), End]
  }

  /**
   * What `from_ndnb` does to a Signature whose fields were `init`, reading
   * the stream `s`: the new fields and what is left after the closing token,
   * or None where the source throws.
   */
  function ParseSignature(s: seq<Token>, init: SignatureFields): Option<(SignatureFields, seq<Token>)>
  {
    var r0 :- ReadStart(s, Tag.Signature);
    var d :- OptElem(r0, DigestAlgorithm, init.digestAlgorithm);
    var w :- OptElem(d.1, Witness, init.witnessData);
    var b :- ReadElem(w.1, SignatureBits);
    var r :- ReadEnd(b.1);
    Some((SignatureFields(w.0, b.0, d.0), r))
  }

  /** The fields a decoder recovers from `SignatureTokens(s, ...)` over a Signature holding `init`. */
  function DecodedSignature(s: SignatureFields, init: SignatureFields, isDefaultDigest: Value -> bool, digestOid: Value): SignatureFields
  {
    SignatureFields(
      Merged(s.witnessData, init.witnessData),
      s.signature,
      if s.digestAlgorithm != Null && !isDefaultDigest(s.digestAlgorithm) then digestOid else init.digestAlgorithm)
  }

  /**
   * Encode-then-decode, whatever follows the block: the witness and the
   * signature bits come back unchanged, an absent witness leaves the decoding
   * object's witness alone, and reading stops just past the block.
   */
  lemma SignatureRoundTrip(s: SignatureFields, init: SignatureFields, isDefaultDigest: Value -> bool, digestOid: Value, rest: seq<Token>)
    requires ValidSignature(s)
    ensures ParseSignature(SignatureTokens(s, isDefaultDigest, digestOid) + rest, init)
      == Some((DecodedSignature(s, init, isDefaultDigest, digestOid), rest))
  {
    var hasDigest := s.digestAlgorithm != Null && !isDefaultDigest(s.digestAlgorithm);
    var digestSeg: seq<Token> := if hasDigest then [Elem(DigestAlgorithm, digestOid)] else [];
    var witnessSeg := OptionalElem(Witness, s.witnessData);
    var bits: seq<Token> := [Elem(SignatureBits, s.signature), End];
    var enc := SignatureTokens(s, isDefaultDigest, digestOid);
    assert enc + rest == [Start(Tag.Signature)] + (digestSeg + (witnessSeg + (bits + rest)));
    assert (enc + rest)[1..] == digestSeg + (witnessSeg + (bits + rest));
    var d := OptElem(digestSeg + (witnessSeg + (bits + rest)), DigestAlgorithm, init.digestAlgorithm);
    if hasDigest {
      assert (digestSeg + (witnessSeg + (bits + rest)))[1..] == witnessSeg + (bits + rest);
    } else {
      assert digestSeg + (witnessSeg + (bits + rest)) == witnessSeg + (bits + rest);
    }
    assert d == Some((DecodedSignature(s, init, isDefaultDigest, digestOid).digestAlgorithm, witnessSeg + (bits + rest)));
    OptElemStep(Witness, s.witnessData, init.witnessData, bits + rest);
    assert (bits + rest)[1..][1..] == rest;
  }

  /** Decoding fails when no SignatureBits element follows the opening token. */
  lemma MissingSignatureBitsFails(s: seq<Token>, init: SignatureFields)
    requires !Mentions(s, SignatureBits)
    ensures ParseSignature(s, init) == None
  {
    var r0 := ReadStart(s, Tag.Signature);
    if r0.Some? {
      var d := OptElem(r0.value, DigestAlgorithm, init.digestAlgorithm);
      if d.Some? {
        SuffixTrans(s, r0.value, d.value.1);
        var w := OptElem(d.value.1, Witness, init.witnessData);
        if w.Some? {
          SuffixTrans(s, d.value.1, w.value.1);
          if Mentions(w.value.1, SignatureBits) {
            MentionsSuffix(s, w.value.1, SignatureBits);
          }
        }
      }
    }
  }

  /** A successful decode consumed a SignatureBits element and stopped just past a closing token. */
  lemma ParsedSignatureShape(s: seq<Token>, init: SignatureFields)
    requires ParseSignature(s, init).Some?
    ensures Mentions(s, SignatureBits)
    ensures ClosedBefore(s, ParseSignature(s, init).value.1)
  {
    if !Mentions(s, SignatureBits) {
      MissingSignatureBitsFails(s, init);
    }
    var r0 := ReadStart(s, Tag.Signature).value;
    var d := OptElem(r0, DigestAlgorithm, init.digestAlgorithm).value.1;
    var w := OptElem(d, Witness, init.witnessData).value.1;
    var b := ReadElem(w, SignatureBits).value.1;
    SuffixTrans(s, r0, d);
    SuffixTrans(s, d, w);
    SuffixTrans(s, w, b);
    ClosedBeforeTrans(s, b, b[1..]);
  }

  class Signature {
    var witnessData: Value  // the source's `witness` (a Dafny keyword)
    var signature: Value
    var digestAlgorithm: Value

    constructor (witnessData: Value, signature: Value, digestAlgorithm: Value)
      ensures this.witnessData == witnessData && this.signature == signature && this.digestAlgorithm == digestAlgorithm
    {
      this.witnessData := witnessData;
      this.signature := signature;
      this.digestAlgorithm := digestAlgorithm;
    }

    function Fields(): SignatureFields
      reads this
    {
      SignatureFields(witnessData, signature, digestAlgorithm)
    }

    function ElementLabel(): Tag
    {
      Tag.Signature
    }

    /** `validate()`: true exactly when the signature bits are present. */
    predicate Validate()
      reads this
      ensures Validate() <==> signature != Null
    {
      ValidSignature(Fields())
    }

    /**
     * `from_ndnb`: optional DigestAlgorithm and Witness, mandatory
     * SignatureBits, each step as the decoder allows it.
     */
    method FromNdnb(decoder: Decoder) returns (ok: bool)
      modifies this, decoder
      ensures ParseSignature(old(decoder.Rest()), old(Fields())) == if ok then Some((Fields(), decoder.Rest())) else None
    {
      ok := decoder.ReadStartElement(ElementLabel());
      if !ok { return; }
      ok, digestAlgorithm := decoder.ReadOptionalElement(DigestAlgorithm, digestAlgorithm);
      if !ok { return; }
      ok, witnessData := decoder.ReadOptionalElement(Witness, witnessData);
      if !ok { return; }
      ok, signature := decoder.ReadElement(SignatureBits);
      if !ok { return; }
      ok := decoder.ReadEndElement();
    }

    /**
     * `to_ndnb`: refuses an invalid signature before writing anything, and
     * otherwise appends exactly the block's tokens.
     */
    method ToNdnb(encoder: Encoder, isDefaultDigest: Value -> bool, digestOid: Value) returns (ok: bool)
      modifies encoder
      ensures ok <==> signature != Null
      ensures encoder.output == old(encoder.output) + (if ok then SignatureTokens(Fields(), isDefaultDigest, digestOid) else [])
    {
      ok := Validate();
      if !ok { return; }
      encoder.WriteStartElement(ElementLabel());
      if digestAlgorithm != Null && !isDefaultDigest(digestAlgorithm) {
        encoder.WriteElement(DigestAlgorithm, digestOid);
      }
      encoder.WriteOptionalElement(Witness, witnessData);
      encoder.WriteElement(SignatureBits, signature);
      encoder.WriteEndElement();
    }
  }
}
