/**
 * A whole packet: name, SignedInfo, content and Signature, with the signing
 * side of the packet (js/ContentObject.js, `ContentObject`). The RSA
 * primitives, the byte form of an encoder's output and the parsing of a
 * name from text are parameters.
 */
module ContentObjects {
  import opened Wrappers
  import opened BinaryXml
  import opened SignedInfos
  import opened Signatures

  /** The `name` argument of the constructor: a URI string, or anything else stored as is. */
  datatype NameArg = NameText(uri: string) | NameObject(obj: Option<Opaque>)

  /** The `content` argument of the constructor: a string, or a value stored as is. */
  datatype ContentArg = ContentText(text: string) | ContentValue(v: Value)

  /** A `Key` as `verify` sees it: only its PEM form is read. */
  datatype PublicKey = PublicKey(publicKeyPem: Option<string>)

  /** The tokens `encodeContent` writes: one Content element holding the content. */
  function ContentTokens(content: Value): seq<Token>
  {
    [Elem(Tag.Content, content)]
  }

  /**
   * The bytes `sign` feeds to the signer, given a name, a SignedInfo that
   * validates and the content: the three encodings, one after the other.
   */
  function SignedData(name: Opaque, si: SignedInfoFields, content: Value, typeTag: Tag,
                      serialize: seq<Token> -> seq<byte>): seq<byte>
  {
    serialize(NestedTokens(Tag.Name, name)) + serialize(SignedInfoTokens(si, typeTag)) + serialize(ContentTokens(content))
  }

  /**
   * Buffer.slice's reading of one index: a non-number takes the default,
   * a negative index counts from the end, and the result is clamped to
   * the buffer.
   */
  function SliceIndex(index: Option<int>, len: nat, default: nat): (r: nat)
    requires default <= len
    ensures r <= len
    ensures index.Some? && 0 <= index.value <= len ==> r == index.value
    ensures index.Some? && -(len as int) <= index.value < 0 ==> r == index.value + len
    ensures index.None? ==> r == default
  {
    if index.None? then default
    else if index.value >= len then len
    else if index.value >= 0 then index.value
    else if index.value + len >= 0 then index.value + len
    else 0
  }

  /** `bytes.slice(start, end)`: the bytes between the two clamped indices, empty when they cross. */
  function Slice(bytes: seq<byte>, start: Option<int>, end: Option<int>): (r: seq<byte>)
    ensures |r| <= |bytes|
  {
    var b := SliceIndex(start, |bytes|, 0);
    var e := SliceIndex(end, |bytes|, |bytes|);
    if e <= b then [] else bytes[b..e]
  }

  /** Within the buffer, a slice is exactly the bytes from `start` up to, not including, `end`. */
  lemma SliceInBounds(bytes: seq<byte>, start: int, end: int)
    requires 0 <= start <= end <= |bytes|
    ensures Slice(bytes, Some(start), Some(end)) == bytes[start..end]
    ensures |Slice(bytes, Some(start), Some(end))| == end - start
  {
  }

  /** Whatever the indices, a slice is a contiguous window of the buffer. */
  lemma SliceIsWindow(bytes: seq<byte>, start: Option<int>, end: Option<int>)
    ensures exists b, e :: 0 <= b <= e <= |bytes| && Slice(bytes, start, end) == bytes[b..e]
  {
    var b := SliceIndex(start, |bytes|, 0);
    var e := SliceIndex(end, |bytes|, |bytes|);
    if e <= b {
      assert Slice(bytes, start, end) == bytes[b..b];
    } else {
      assert Slice(bytes, start, end) == bytes[b..e];
    }
  }

  /** Negative indices count back from the end of the buffer. */
  lemma SliceFromEnd(bytes: seq<byte>, start: int, end: int)
    requires -|bytes| <= start <= end < 0
    ensures Slice(bytes, Some(start), Some(end)) == bytes[|bytes| + start..|bytes| + end]
  {
  }

  /** With no indices set, a slice copies the whole buffer. */
  lemma SliceWhole(bytes: seq<byte>)
    ensures Slice(bytes, None, None) == bytes
  {
  }

  /**
   * What `verify` returns for a key, the saved signed bytes and the
   * signature bits: an error when the key or its PEM form is missing, and
   * otherwise the verifier's verdict.
   */
  function VerifyOutcome(key: Option<PublicKey>, rawSignatureData: Option<seq<byte>>, signatureBits: Value,
                         rsaVerify: (Option<seq<byte>>, string, Value) -> bool): (r: Result<bool>)
    ensures r.Failure? <==> key.None? || key.value.publicKeyPem.None?
    ensures r.Failure? ==> r.error == "Cannot verify ContentObject without a public key."
  {
    if key.None? || key.value.publicKeyPem.None? then
      Failure("Cannot verify ContentObject without a public key.")
    else
      Success(rsaVerify(rawSignatureData, key.value.publicKeyPem.value, signatureBits))
  }

  /**
   * The signer and the verifier are a matching key pair: the verifier
   * accepts the signer's output over any bytes.
   */
  ghost predicate KeyPair(privateKey: string, pem: string,
                          rsaSign: (seq<byte>, string) -> seq<byte>,
                          rsaVerify: (Option<seq<byte>>, string, Value) -> bool)
  {
    forall d: seq<byte> {:trigger rsaSign(d, privateKey)} :: rsaVerify(Some(d), pem, Bytes(rsaSign(d, privateKey)))
  }

  /**
   * With a matching key pair, `verify` accepts saved bytes whose signature
   * bits are the signer's output over exactly those bytes.
   */
  lemma SignedVerifies(data: seq<byte>, privateKey: string, pem: string,
                       rsaSign: (seq<byte>, string) -> seq<byte>,
                       rsaVerify: (Option<seq<byte>>, string, Value) -> bool)
    requires KeyPair(privateKey, pem, rsaSign, rsaVerify)
    ensures VerifyOutcome(Some(PublicKey(Some(pem))), Some(data), Bytes(rsaSign(data, privateKey)), rsaVerify) == Success(true)
  {
    assert rsaVerify(Some(data), pem, Bytes(rsaSign(data, privateKey)));
  }

  /**
   * When the signed bytes sit at `[startSIG, endSIG)` of the wire bytes, the
   * copy `saveRawData` keeps is exactly them, so with a matching key pair
   * `verify` accepts bits made over them.
   */
  lemma SavedRegionVerifies(bytes: seq<byte>, startSIG: int, endSIG: int, privateKey: string, pem: string,
                            rsaSign: (seq<byte>, string) -> seq<byte>,
                            rsaVerify: (Option<seq<byte>>, string, Value) -> bool)
    requires 0 <= startSIG <= endSIG <= |bytes|
    requires KeyPair(privateKey, pem, rsaSign, rsaVerify)
    ensures VerifyOutcome(Some(PublicKey(Some(pem))), Some(Slice(bytes, Some(startSIG), Some(endSIG))),
                          Bytes(rsaSign(bytes[startSIG..endSIG], privateKey)), rsaVerify) == Success(true)
  {
    SliceInBounds(bytes, startSIG, endSIG);
    SignedVerifies(bytes[startSIG..endSIG], privateKey, pem, rsaSign, rsaVerify);
  }

  class ContentObject {
    var name: Option<Opaque>
    var signedInfo: SignedInfo?
    var content: Value
    var signature: Signature
    var startSIG: Option<int>
    var endSIG: Option<int>
    var endContent: Option<int>
    var rawSignatureData: Option<seq<byte>>

    /**
     * A string name is parsed and string content is turned into its bytes;
     * other arguments are stored as given. The packet gets an empty
     * Signature and no saved offsets or signed bytes.
     */
    constructor (name: NameArg, signedInfo: SignedInfo?, content: ContentArg,
                 parseName: string -> Opaque, toBytes: string -> seq<byte>)
      ensures this.name == (if name.NameText? then Some(parseName(name.uri)) else name.obj)
      ensures this.signedInfo == signedInfo
      ensures this.content == (if content.ContentText? then Bytes(toBytes(content.text)) else content.v)
      ensures fresh(signature)
      ensures signature.Fields() == SignatureFields(Null, Null, Null)
      ensures startSIG.None? && endSIG.None? && endContent.None? && rawSignatureData.None?
    {
      match name {
        case NameText(uri) => this.name := Some(parseName(uri));
        case NameObject(obj) => this.name := obj;
      }
      this.signedInfo := signedInfo;
      match content {
        case ContentText(text) => this.content := Bytes(toBytes(text));
        case ContentValue(v) => this.content := v;
      }
      signature := new Signature(Null, Null, Null);
      startSIG := None;
      endSIG := None;
      endContent := None;
      rawSignatureData := None;
    }

    function ElementLabel(): Tag
    {
      Tag.ContentObject
    }

    /** `encodeObject(this.name)`: fails on a missing name, else the name's own encoding. */
    method EncodeName(serialize: seq<Token> -> seq<byte>) returns (ok: bool, bytes: seq<byte>)
      ensures ok <==> name.Some?
      ensures ok ==> bytes == serialize(NestedTokens(Tag.Name, name.value))
    {
      if name.None? {
        return false, [];
      }
      var enc := new Encoder();
      enc.WriteNested(Tag.Name, name.value);
      assert enc.output == NestedTokens(Tag.Name, name.value);
      return true, serialize(enc.output);
    }

    /**
     * `encodeObject(this.signedInfo)`: fails on a missing or invalid
     * SignedInfo, else exactly its block's encoding.
     */
    method EncodeSignedInfo(typeTag: Tag, serialize: seq<Token> -> seq<byte>) returns (ok: bool, bytes: seq<byte>)
      ensures ok <==> signedInfo != null && signedInfo.Validate()
      ensures ok ==> bytes == serialize(SignedInfoTokens(signedInfo.Fields(), typeTag))
    {
      if signedInfo == null {
        return false, [];
      }
      var enc := new Encoder();
      ok := signedInfo.ToNdnb(enc, typeTag);
      if !ok {
        return false, [];
      }
      assert enc.output == SignedInfoTokens(signedInfo.Fields(), typeTag);
      bytes := serialize(enc.output);
    }

    /** `encodeContent()`: the content as a single Content element. */
    method EncodeContent(serialize: seq<Token> -> seq<byte>) returns (bytes: seq<byte>)
      ensures bytes == serialize(ContentTokens(content))
    {
      var enc := new Encoder();
      enc.WriteElement(Tag.Content, content);
      assert enc.output == ContentTokens(content);
      bytes := serialize(enc.output);
    }

    /**
     * `sign()`: signs the name, SignedInfo and content encodings in that
     * order with `privateKey` and stores the result as the signature bits.
     * It fails, changing nothing, when the name or the SignedInfo cannot be
     * encoded; the witness, the digest algorithm and the rest of the packet
     * are never touched.
     */
    method Sign(privateKey: string, typeTag: Tag, serialize: seq<Token> -> seq<byte>,
                rsaSign: (seq<byte>, string) -> seq<byte>) returns (ok: bool)
      modifies signature
      ensures ok <==> name.Some? && signedInfo != null && signedInfo.Validate()
      ensures ok ==> signature.signature == Bytes(rsaSign(SignedData(name.value, signedInfo.Fields(), content, typeTag, serialize), privateKey))
      ensures !ok ==> signature.signature == old(signature.signature)
      ensures signature.witnessData == old(signature.witnessData)
      ensures signature.digestAlgorithm == old(signature.digestAlgorithm)
      ensures rawSignatureData == old(rawSignatureData) && signature == old(signature)
    {
      var n1, n2, n3;
      ok, n1 := EncodeName(serialize);
      if !ok { return; }
      ok, n2 := EncodeSignedInfo(typeTag, serialize);
      if !ok { return; }
      n3 := EncodeContent(serialize);
      signature.signature := Bytes(rsaSign(n1 + n2 + n3, privateKey));
    }

    /** `verify(key)`: see `VerifyOutcome`. */
    function Verify(key: Option<PublicKey>, rsaVerify: (Option<seq<byte>>, string, Value) -> bool): (r: Result<bool>)
      reads this, signature
      ensures r.Failure? <==> key.None? || key.value.publicKeyPem.None?
      ensures r.Success? ==> r.value == rsaVerify(rawSignatureData, key.value.publicKeyPem.value, signature.signature)
    {
      VerifyOutcome(key, rawSignatureData, signature.signature, rsaVerify)
    }

    /** `saveRawData(bytes)`: keeps a copy of the bytes between the saved signature offsets. */
    method SaveRawData(bytes: seq<byte>)
      modifies this
      ensures rawSignatureData == Some(Slice(bytes, startSIG, endSIG))
      ensures name == old(name) && signedInfo == old(signedInfo) && content == old(content)
      ensures startSIG == old(startSIG) && endSIG == old(endSIG) && endContent == old(endContent)
      ensures signature == old(signature)
    {
      rawSignatureData := Some(Slice(bytes, startSIG, endSIG));
    }
  }

  /**
   * Sign, save the signed region, verify: for a packet with a name and a
   * valid SignedInfo whose wire bytes hold, between the saved offsets,
   * exactly the name, SignedInfo and content encodings, `sign` followed by
   * `saveRawData` leaves a packet that `verify` accepts under the matching
   * public key.
   */
  method SignSaveVerify(co: ContentObject, bytes: seq<byte>, privateKey: string, pem: string,
                        serialize: seq<Token> -> seq<byte>,
                        rsaSign: (seq<byte>, string) -> seq<byte>,
                        rsaVerify: (Option<seq<byte>>, string, Value) -> bool)
    requires co.name.Some? && co.signedInfo != null && co.signedInfo.Validate()
    requires co.startSIG.Some? && co.endSIG.Some?
    requires 0 <= co.startSIG.value <= co.endSIG.value <= |bytes|
    requires bytes[co.startSIG.value..co.endSIG.value]
             == SignedData(co.name.value, co.signedInfo.Fields(), co.content, Type, serialize)
    requires KeyPair(privateKey, pem, rsaSign, rsaVerify)
    modifies co, co.signature
    ensures co.Verify(Some(PublicKey(Some(pem))), rsaVerify) == Success(true)
  {
    var ok := co.Sign(privateKey, Type, serialize, rsaSign);
    co.SaveRawData(bytes);
    SavedRegionVerifies(bytes, co.startSIG.value, co.endSIG.value, privateKey, pem, rsaSign, rsaVerify);
  }
}
