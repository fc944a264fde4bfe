/**
 * The binary-XML (ccnb) codec seen as a stream of tokens.
 *
 * The byte grammar of the codec lives in the encoder and decoder files, which
 * are not part of this model. What the packet code relies on is the element
 * structure: a nested element opens with `Start(tag)` and closes with `End`, a
 * leaf element `Elem(tag, value)` carries one payload, and a sub-object whose
 * own encoding lives elsewhere (a publisher digest, a key locator, a name)
 * appears as `Start(tag)`, one opaque `Inner` token, `End`.
 *
 * The readers below take the part of the stream not yet read and return what
 * is left after them, or None where the decoder throws.
 */
module BinaryXml {
  import opened Wrappers

  newtype byte = x: int | 0 <= x < 256

  /** The protocol tags the packet code names (NDNProtocolDTags). */
  datatype Tag =
    | ContentObject | Name | SignedInfo | Content | Signature
    | PublisherPublicKeyDigest | Timestamp | Type | FreshnessSeconds
    | FinalBlockID | KeyLocator | DigestAlgorithm | Witness | SignatureBits
    | Other(code: nat)

  datatype KeyLocatorType = KEY | CERTIFICATE | KEYNAME

  /** A sub-object whose encoding and parsing are defined outside this model. */
  datatype Opaque =
    | Digest(digest: seq<byte>)
    | Locator(data: seq<byte>, kind: KeyLocatorType)
    | NameValue(components: seq<seq<byte>>)

  /** A leaf payload as handed to `writeElement`; `Null` is JavaScript's null. */
  datatype Value = Null | Int(n: int) | Bytes(b: seq<byte>) | Utf8(s: string) | Time(msec: int)

  datatype Token = Start(tag: Tag) | Elem(tag: Tag, value: Value) | Inner(body: Opaque) | End

  /** The tag a token opens, if any. */
  function TagOf(t: Token): Option<Tag>
  {
    match t
    case Start(g) => Some(g)
    case Elem(g, _) => Some(g)
    case _ => None
  }

  /** The tokens a sub-object's own `to_ndnb` writes. */
  function NestedTokens(tag: Tag, body: Opaque): seq<Token>
  {
    [Start(tag), Inner(body), End]
  }

  /** `peekStartElement(tag)`: the next token opens an element with `tag`. */
  predicate Peek(s: seq<Token>, tag: Tag)
  {
    |s| > 0 && TagOf(s[0]) == Some(tag)
  }

  /** Some token of `s` opens an element with `tag`. */
  predicate Mentions(s: seq<Token>, tag: Tag)
  {
    exists i :: 0 <= i < |s| && TagOf(s[i]) == Some(tag)
  }

  /** `r` is what is left of `s` after reading a prefix of it. */
  predicate Suffix(s: seq<Token>, r: seq<Token>)
  {
    |r| <= |s| && s[|s| - |r|..] == r
  }

  /** `r` is what is left of `s` after reading a non-empty prefix that ends with a closing token. */
  predicate ClosedBefore(s: seq<Token>, r: seq<Token>)
  {
    |r| < |s| && s[|s| - |r|..] == r && s[|s| - |r| - 1] == End
  }

  /** `readStartElement(tag)`. */
  function ReadStart(s: seq<Token>, tag: Tag): Option<seq<Token>>
  {
    if |s| > 0 && s[0] == Start(tag) then Some(s[1..]) else None
  }

  /** `readBinaryElement`, `readUTF8Element`, `readIntegerElement`, `readDateTime`. */
  function ReadElem(s: seq<Token>, tag: Tag): Option<(Value, seq<Token>)>
  {
    if |s| > 0 && s[0].Elem? && s[0].tag == tag then Some((s[0].value, s[1..])) else None
  }

  /** `readEndElement()`. */
  function ReadEnd(s: seq<Token>): Option<seq<Token>>
  {
    if |s| > 0 && s[0] == End then Some(s[1..]) else None
  }

  /** A sub-object's own `from_ndnb`: opening tag, opaque interior, close. */
  function ReadNested(s: seq<Token>, tag: Tag): Option<(Opaque, seq<Token>)>
  {
    if |s| > 2 && s[0] == Start(tag) && s[1].Inner? && s[2] == End then Some((s[1].body, s[3..])) else None
  }

  /** An optional leaf field: read it when the next token opens it, else keep `current`. */
  function OptElem(s: seq<Token>, tag: Tag, current: Value): Option<(Value, seq<Token>)>
  {
    if Peek(s, tag) then ReadElem(s, tag) else Some((current, s))
  }

  /** An optional sub-object field, guarded the same way. */
  function OptNested(s: seq<Token>, tag: Tag, current: Option<Opaque>): Option<(Option<Opaque>, seq<Token>)>
  {
    if Peek(s, tag) then
      var r :- ReadNested(s, tag);
      Some((Some(r.0), r.1))
    else Some((current, s))
  }

  /** The tokens of an optional leaf field: the element when the value is set, else nothing. */
  function OptionalElem(tag: Tag, v: Value): seq<Token>
  {
    if v != Null then [Elem(tag, v)] else []
  }

  /** The tokens of an optional sub-object field. */
  function OptionalNested(tag: Tag, o: Option<Opaque>): seq<Token>
  {
    if o.Some? then NestedTokens(tag, o.value) else []
  }

  /** The value an optional leaf field holds after it is read back: what was written, or `current`. */
  function Merged(v: Value, current: Value): Value
  {
    if v != Null then v else current
  }

  /** The same for an optional sub-object field. */
  function MergedOpaque(o: Option<Opaque>, current: Option<Opaque>): Option<Opaque>
  {
    if o.Some? then o else current
  }

  /** One optional leaf field read back: the written value, or `current` when it was left out. */
  lemma OptElemStep(tag: Tag, v: Value, current: Value, tail: seq<Token>)
    requires !Peek(tail, tag)
    ensures OptElem(OptionalElem(tag, v) + tail, tag, current) == Some((Merged(v, current), tail))
  {
    if v != Null {
      assert (OptionalElem(tag, v) + tail)[1..] == tail;
    } else {
      assert OptionalElem(tag, v) + tail == tail;
    }
  }

  /** One optional sub-object field read back the same way. */
  lemma OptNestedStep(tag: Tag, o: Option<Opaque>, current: Option<Opaque>, tail: seq<Token>)
    requires !Peek(tail, tag)
    ensures OptNested(OptionalNested(tag, o) + tail, tag, current) == Some((MergedOpaque(o, current), tail))
  {
    if o.Some? {
      assert (OptionalNested(tag, o) + tail)[3..] == tail;
    } else {
      assert OptionalNested(tag, o) + tail == tail;
    }
  }

  /** The stream is non-empty and its first token opens an element of `tags`, or opens nothing. */
  predicate OpensWithin(s: seq<Token>, tags: set<Tag>)
  {
    |s| > 0 && (TagOf(s[0]).Some? ==> TagOf(s[0]).value in tags)
  }

  /** Putting a field (or nothing) with tag `tag` in front keeps the opening token among `tags + {tag}`. */
  lemma OpensWithinPrepend(seg: seq<Token>, tail: seq<Token>, tag: Tag, tags: set<Tag>)
    requires seg == [] || TagOf(seg[0]) == Some(tag)
    requires OpensWithin(tail, tags)
    ensures OpensWithin(seg + tail, tags + {tag})
  {
    if seg == [] {
      assert seg + tail == tail;
    }
  }

  /** Appending to a stream that already extends `x` by `w`. */
  lemma AppendRegroup<T>(x: seq<T>, w: seq<T>, seg: seq<T>)
    ensures x + w + seg == x + (w + seg)
  {
  }

  /** Regrouping a concatenation of eight parts from the right. */
  lemma RegroupRight<T>(a: seq<T>, b: seq<T>, c: seq<T>, d: seq<T>, e: seq<T>, f: seq<T>, g: seq<T>, h: seq<T>)
    ensures a + b + c + d + e + f + g + h == a + (b + (c + (d + (e + (f + (g + h))))))
  {
    AppendRegroup(a + b + c + d + e + f, g, h);
    AppendRegroup(a + b + c + d + e, f, g + h);
    AppendRegroup(a + b + c + d, e, f + (g + h));
    AppendRegroup(a + b + c, d, e + (f + (g + h)));
    AppendRegroup(a + b, c, d + (e + (f + (g + h))));
    AppendRegroup(a, b, c + (d + (e + (f + (g + h)))));
  }

  /** Reading on from a suffix leaves a suffix of the whole. */
  lemma SuffixTrans(s: seq<Token>, r: seq<Token>, t: seq<Token>)
    requires Suffix(s, r) && Suffix(r, t)
    ensures Suffix(s, t)
  {
    assert s[|s| - |t|..] == s[|s| - |r|..][|r| - |t|..];
  }

  /** A block closed within a suffix is closed within the whole. */
  lemma ClosedBeforeTrans(s: seq<Token>, r: seq<Token>, t: seq<Token>)
    requires Suffix(s, r) && ClosedBefore(r, t)
    ensures ClosedBefore(s, t)
  {
    assert s[|s| - |t|..] == s[|s| - |r|..][|r| - |t|..];
    assert s[|s| - |t| - 1] == s[|s| - |r|..][|r| - |t| - 1];
  }

  /** A tag that occurs in what is left occurs in the whole. */
  lemma MentionsSuffix(s: seq<Token>, r: seq<Token>, tag: Tag)
    requires Suffix(s, r) && Mentions(r, tag)
    ensures Mentions(s, tag)
  {
    var i :| 0 <= i < |r| && TagOf(r[i]) == Some(tag);
    assert s[|s| - |r| + i] == r[i];
  }

  /** BinaryXMLEncoder: an output stream of tokens that only grows. */
  class Encoder {
    var output: seq<Token>

    constructor ()
      ensures output == []
    {
      output := [];
    }

    method WriteStartElement(tag: Tag)
      modifies this
      ensures output == old(output) + [Start(tag)]
    {
      output := output + [Start(tag)];
    }

    /** `writeElement` and `writeDateTime`. */
    method WriteElement(tag: Tag, value: Value)
      modifies this
      ensures output == old(output) + [Elem(tag, value)]
    {
      output := output + [Elem(tag, value)];
    }

    method WriteEndElement()
      modifies this
      ensures output == old(output) + [End]
    {
      output := output + [End];
    }

    /** A sub-object's own `to_ndnb(encoder)`. */
    method WriteNested(tag: Tag, body: Opaque)
      modifies this
      ensures output == old(output) + NestedTokens(tag, body)
    {
      output := output + NestedTokens(tag, body);
    }

    /** The source's `if (null != v) writeElement(tag, v)`. */
    method WriteOptionalElement(tag: Tag, v: Value)
      modifies this
      ensures output == old(output) + OptionalElem(tag, v)
    {
      if v != Null {
        WriteElement(tag, v);
      }
    }

    /** The source's `if (null != o) o.to_ndnb(encoder)`. */
    method WriteOptionalNested(tag: Tag, o: Option<Opaque>)
      modifies this
      ensures output == old(output) + OptionalNested(tag, o)
    {
      if o.Some? {
        WriteNested(tag, o.value);
      }
    }
  }

  /** BinaryXMLDecoder: a fixed input stream and a cursor into it. */
  class Decoder {
    const input: seq<Token>
    var offset: nat

    constructor (input: seq<Token>)
      ensures this.input == input && offset == 0
    {
      this.input := input;
      offset := 0;
    }

    /** The part of the input not yet read (nothing once the cursor is past the end). */
    function Rest(): seq<Token>
      reads this
    {
      if offset <= |input| then input[offset..] else []
    }

    /** Lookahead; it has no `modifies` clause, so it cannot move the cursor. */
    method PeekStartElement(tag: Tag) returns (found: bool)
      ensures found == Peek(Rest(), tag)
    {
      found := offset < |input| && TagOf(input[offset]) == Some(tag);
    }

    method ReadStartElement(tag: Tag) returns (ok: bool)
      modifies this
      ensures ok == ReadStart(old(Rest()), tag).Some?
      ensures ok ==> ReadStart(old(Rest()), tag) == Some(Rest())
      ensures !ok ==> offset == old(offset)
    {
      ok := offset < |input| && input[offset] == Start(tag);
      if ok {
        offset := offset + 1;
      }
    }

    method ReadElement(tag: Tag) returns (ok: bool, value: Value)
      modifies this
      ensures ok == ReadElem(old(Rest()), tag).Some?
      ensures ok ==> ReadElem(old(Rest()), tag) == Some((value, Rest()))
      ensures !ok ==> offset == old(offset)
    {
      ok := offset < |input| && input[offset].Elem? && input[offset].tag == tag;
      value := Null;
      if ok {
        value := input[offset].value;
        offset := offset + 1;
      }
    }

    method ReadEndElement() returns (ok: bool)
      modifies this
      ensures ok == ReadEnd(old(Rest())).Some?
      ensures ok ==> ReadEnd(old(Rest())) == Some(Rest())
      ensures !ok ==> offset == old(offset)
    {
      ok := offset < |input| && input[offset] == End;
      if ok {
        offset := offset + 1;
      }
    }

    /** The packet code's idiom for an optional leaf field: peek for it, and read it only when it is there. */
    method ReadOptionalElement(tag: Tag, current: Value) returns (ok: bool, value: Value)
      modifies this
      ensures OptElem(old(Rest()), tag, current) == if ok then Some((value, Rest())) else None
    {
      var found := PeekStartElement(tag);
      ok, value := true, current;
      if found {
        ok, value := ReadElement(tag);
      }
    }

    /** The same idiom for an optional sub-object. */
    method ReadOptionalNested(tag: Tag, current: Option<Opaque>) returns (ok: bool, value: Option<Opaque>)
      modifies this
      ensures OptNested(old(Rest()), tag, current) == if ok then Some((value, Rest())) else None
    {
      var found := PeekStartElement(tag);
      ok, value := true, current;
      if found {
        var body;
        ok, body := ReadNestedElement(tag);
        value := Some(body);
      }
    }

    /** A sub-object's own `from_ndnb(decoder)`. */
    method ReadNestedElement(tag: Tag) returns (ok: bool, body: Opaque)
      modifies this
      ensures ok == ReadNested(old(Rest()), tag).Some?
      ensures ok ==> ReadNested(old(Rest()), tag) == Some((body, Rest()))
      ensures !ok ==> offset == old(offset)
    {
      ok := offset + 2 < |input| && input[offset] == Start(tag) && input[offset + 1].Inner? && input[offset + 2] == End;
      body := Digest([]);
      if ok {
        body := input[offset + 1].body;
        offset := offset + 3;
      }
    }
  }
}
