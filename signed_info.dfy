/**
 * The SignedInfo block of a packet: publisher key digest, timestamp, content
 * type, freshness, final block id and key locator (js/ContentObject.js,
 * `SignedInfo`).
 */
module SignedInfos {
  import opened Wrappers
  import opened BinaryXml
  import ContentTypes

  /** The six fields of a SignedInfo as plain values. */
  datatype SignedInfoFields = SignedInfoFields(
    publisher: Option<Opaque>,
    timestamp: Value,
    contentType: Value,
    locator: Option<Opaque>,
    freshnessSeconds: Value,
    finalBlockID: Value)

  /** The signing identity `setFields` reads: the key id and the DER form of the public key. */
  datatype Identity = Identity(keyID: seq<byte>, publicKeyDer: seq<byte>)

  /** `validate()`: publisher, timestamp and locator are present. */
  predicate ValidSignedInfo(si: SignedInfoFields)
  {
    si.publisher.Some? && si.timestamp != Null && si.locator.Some?
  }

  /** Type, freshness and final block id never decide validity. */
  lemma ValidityIgnoresOptionalFields(si: SignedInfoFields, contentType: Value, freshnessSeconds: Value, finalBlockID: Value)
    ensures ValidSignedInfo(si.(contentType := contentType, freshnessSeconds := freshnessSeconds, finalBlockID := finalBlockID))
            == ValidSignedInfo(si)
  {
  }

  /** The source writes the type only when it is set and is not DATA (0). */
  predicate TypeWritten(t: Value)
  {
    t != Null && t != Int(ContentTypes.DATA)
  }

  /** The tokens of the type field: written only when `TypeWritten`. */
  function TypeSegment(t: Value, typeTag: Tag): seq<Token>
  {
    if TypeWritten(t) then [Elem(typeTag, t)] else []
  }

  /**
   * The tokens `to_ndnb` writes for a valid SignedInfo, fields in the
   * source's order. `typeTag` is the tag the source writes the type under
   * (`NDNProtocolDTags.type`, spelled differently from the
   * `NDNProtocolDTags.Type` it reads).
   */
  function SignedInfoTokens(si: SignedInfoFields, typeTag: Tag): seq<Token>
  {
    [Start(Tag.SignedInfo)]
    + OptionalNested(PublisherPublicKeyDigest, si.publisher)
    + OptionalElem(Timestamp, si.timestamp)
    + TypeSegment(si.contentType, typeTag)
    + OptionalElem(FreshnessSeconds, si.freshnessSeconds)
    + OptionalElem(FinalBlockID, si.finalBlockID)
    + OptionalNested(Tag.KeyLocator, si.locator)
    + [End]
  }

  /*
   * What `from_ndnb` does, one stage per field: each stage takes the fields
   * as the earlier stages left them and the part of the stream not yet read,
   * and yields the new fields and what is left after the closing token, or
   * None where the source throws.
   */

  /** `from_ndnb` on a SignedInfo whose fields were `init`. */
  function ParseSignedInfo(s: seq<Token>, init: SignedInfoFields): Option<(SignedInfoFields, seq<Token>)>
  {
    var r :- ReadStart(s, Tag.SignedInfo);
    ParsePublisher(r, init)
  }

  function ParsePublisher(s: seq<Token>, acc: SignedInfoFields): Option<(SignedInfoFields, seq<Token>)>
  {
    var r :- OptNested(s, PublisherPublicKeyDigest, acc.publisher);
    ParseTimestamp(r.1, acc.(publisher := r.0))
  }

  function ParseTimestamp(s: seq<Token>, acc: SignedInfoFields): Option<(SignedInfoFields, seq<Token>)>
  {
    var r :- OptElem(s, Timestamp, acc.timestamp);
    ParseContentType(r.1, acc.(timestamp := r.0))
  }

  /** The type is read when present (a null payload throws) and is DATA otherwise. */
  function ParseType(s: seq<Token>): Option<(Value, seq<Token>)>
  {
    if Peek(s, Type) then
      var t :- ReadElem(s, Type);
      if t.0 == Null then None else Some(t)
    else Some((Int(ContentTypes.DATA), s))
  }

  function ParseContentType(s: seq<Token>, acc: SignedInfoFields): Option<(SignedInfoFields, seq<Token>)>
  {
    var r :- ParseType(s);
    ParseFreshness(r.1, acc.(contentType := r.0))
  }

  function ParseFreshness(s: seq<Token>, acc: SignedInfoFields): Option<(SignedInfoFields, seq<Token>)>
  {
    var r :- OptElem(s, FreshnessSeconds, acc.freshnessSeconds);
    ParseFinalBlockID(r.1, acc.(freshnessSeconds := r.0))
  }

  function ParseFinalBlockID(s: seq<Token>, acc: SignedInfoFields): Option<(SignedInfoFields, seq<Token>)>
  {
    var r :- OptElem(s, FinalBlockID, acc.finalBlockID);
    ParseLocator(r.1, acc.(finalBlockID := r.0))
  }

  function ParseLocator(s: seq<Token>, acc: SignedInfoFields): Option<(SignedInfoFields, seq<Token>)>
  {
    var r :- OptNested(s, Tag.KeyLocator, acc.locator);
    var rest :- ReadEnd(r.1);
    Some((acc.(locator := r.0), rest))
  }

  /** The type after decoding the encoding of `t`: what was written, or DATA. */
  function DecodedType(t: Value): Value
  {
    if TypeWritten(t) then t else Int(ContentTypes.DATA)
  }

  /**
   * The fields a decoder recovers from `SignedInfoTokens(si, Type)` over a
   * SignedInfo holding `init`: every field present in `si` comes back, an
   * absent one keeps `init`'s value, and an absent or DATA type reads as DATA.
   */
  function DecodedSignedInfo(si: SignedInfoFields, init: SignedInfoFields): SignedInfoFields
  {
    SignedInfoFields(
      MergedOpaque(si.publisher, init.publisher),
      Merged(si.timestamp, init.timestamp),
      DecodedType(si.contentType),
      MergedOpaque(si.locator, init.locator),
      Merged(si.freshnessSeconds, init.freshnessSeconds),
      Merged(si.finalBlockID, init.finalBlockID))
  }

  /*
   * The encoding from each field on, so that the round trip can be proved one
   * stage at a time.
   */

  function LocatorTail(si: SignedInfoFields): seq<Token>
  {
    OptionalNested(Tag.KeyLocator, si.locator) + [End]
  }

  function FinalBlockIDTail(si: SignedInfoFields): seq<Token>
  {
    OptionalElem(FinalBlockID, si.finalBlockID) + LocatorTail(si)
  }

  function FreshnessTail(si: SignedInfoFields): seq<Token>
  {
    OptionalElem(FreshnessSeconds, si.freshnessSeconds) + FinalBlockIDTail(si)
  }

  function TypeTail(si: SignedInfoFields, typeTag: Tag): seq<Token>
  {
    TypeSegment(si.contentType, typeTag) + FreshnessTail(si)
  }

  function TimestampTail(si: SignedInfoFields, typeTag: Tag): seq<Token>
  {
    OptionalElem(Timestamp, si.timestamp) + TypeTail(si, typeTag)
  }

  function PublisherTail(si: SignedInfoFields, typeTag: Tag): seq<Token>
  {
    OptionalNested(PublisherPublicKeyDigest, si.publisher) + TimestampTail(si, typeTag)
  }

  /** The encoding is the opening token followed by the encoding from the publisher on. */
  lemma SignedInfoTokensSplit(si: SignedInfoFields, typeTag: Tag)
    ensures SignedInfoTokens(si, typeTag) == [Start(Tag.SignedInfo)] + PublisherTail(si, typeTag)
  {
    RegroupRight([Start(Tag.SignedInfo)], OptionalNested(PublisherPublicKeyDigest, si.publisher),
      OptionalElem(Timestamp, si.timestamp), TypeSegment(si.contentType, typeTag),
      OptionalElem(FreshnessSeconds, si.freshnessSeconds), OptionalElem(FinalBlockID, si.finalBlockID),
      OptionalNested(Tag.KeyLocator, si.locator), [End]);
  }

  /** The type field read back when it was written under Type. */
  lemma TypeStep(t: Value, tail: seq<Token>)
    requires !Peek(tail, Type)
    ensures ParseType(TypeSegment(t, Type) + tail) == Some((DecodedType(t), tail))
  {
    if TypeWritten(t) {
      assert (TypeSegment(t, Type) + tail)[1..] == tail;
    } else {
      assert TypeSegment(t, Type) + tail == tail;
    }
  }

  lemma LocatorStage(acc: SignedInfoFields, si: SignedInfoFields, rest: seq<Token>)
    ensures ParseLocator(LocatorTail(si) + rest, acc) == Some((acc.(locator := MergedOpaque(si.locator, acc.locator)), rest))
    ensures OpensWithin(LocatorTail(si) + rest, {Tag.KeyLocator})
  {
    var seg := OptionalNested(Tag.KeyLocator, si.locator);
    AppendRegroup(seg, [End], rest);
    OptNestedStep(Tag.KeyLocator, si.locator, acc.locator, [End] + rest);
    assert ([End] + rest)[1..] == rest;
    OpensWithinPrepend(seg, [End] + rest, Tag.KeyLocator, {});
  }

  lemma FinalBlockIDStage(acc: SignedInfoFields, si: SignedInfoFields, rest: seq<Token>)
    ensures ParseFinalBlockID(FinalBlockIDTail(si) + rest, acc) == Some((acc.(
      finalBlockID := Merged(si.finalBlockID, acc.finalBlockID),
      locator := MergedOpaque(si.locator, acc.locator)), rest))
    ensures OpensWithin(FinalBlockIDTail(si) + rest, {Tag.KeyLocator, FinalBlockID})
  {
    var seg := OptionalElem(FinalBlockID, si.finalBlockID);
    AppendRegroup(seg, LocatorTail(si), rest);
    LocatorStage(acc.(finalBlockID := Merged(si.finalBlockID, acc.finalBlockID)), si, rest);
    OptElemStep(FinalBlockID, si.finalBlockID, acc.finalBlockID, LocatorTail(si) + rest);
    OpensWithinPrepend(seg, LocatorTail(si) + rest, FinalBlockID, {Tag.KeyLocator});
  }

  lemma FreshnessStage(acc: SignedInfoFields, si: SignedInfoFields, rest: seq<Token>)
    ensures ParseFreshness(FreshnessTail(si) + rest, acc) == Some((acc.(
      freshnessSeconds := Merged(si.freshnessSeconds, acc.freshnessSeconds),
      finalBlockID := Merged(si.finalBlockID, acc.finalBlockID),
      locator := MergedOpaque(si.locator, acc.locator)), rest))
    ensures OpensWithin(FreshnessTail(si) + rest, {Tag.KeyLocator, FinalBlockID, FreshnessSeconds})
  {
    var seg := OptionalElem(FreshnessSeconds, si.freshnessSeconds);
    AppendRegroup(seg, FinalBlockIDTail(si), rest);
    FinalBlockIDStage(acc.(freshnessSeconds := Merged(si.freshnessSeconds, acc.freshnessSeconds)), si, rest);
    OptElemStep(FreshnessSeconds, si.freshnessSeconds, acc.freshnessSeconds, FinalBlockIDTail(si) + rest);
    OpensWithinPrepend(seg, FinalBlockIDTail(si) + rest, FreshnessSeconds, {Tag.KeyLocator, FinalBlockID});
  }

  lemma TypeStage(acc: SignedInfoFields, si: SignedInfoFields, rest: seq<Token>)
    ensures ParseContentType(TypeTail(si, Type) + rest, acc) == Some((acc.(
      contentType := DecodedType(si.contentType),
      freshnessSeconds := Merged(si.freshnessSeconds, acc.freshnessSeconds),
      finalBlockID := Merged(si.finalBlockID, acc.finalBlockID),
      locator := MergedOpaque(si.locator, acc.locator)), rest))
    ensures OpensWithin(TypeTail(si, Type) + rest, {Tag.KeyLocator, FinalBlockID, FreshnessSeconds, Type})
  {
    var seg := TypeSegment(si.contentType, Type);
    AppendRegroup(seg, FreshnessTail(si), rest);
    FreshnessStage(acc.(contentType := DecodedType(si.contentType)), si, rest);
    TypeStep(si.contentType, FreshnessTail(si) + rest);
    OpensWithinPrepend(seg, FreshnessTail(si) + rest, Type, {Tag.KeyLocator, FinalBlockID, FreshnessSeconds});
  }

  lemma TimestampStage(acc: SignedInfoFields, si: SignedInfoFields, rest: seq<Token>)
    ensures ParseTimestamp(TimestampTail(si, Type) + rest, acc) == Some((acc.(
      timestamp := Merged(si.timestamp, acc.timestamp),
      contentType := DecodedType(si.contentType),
      freshnessSeconds := Merged(si.freshnessSeconds, acc.freshnessSeconds),
      finalBlockID := Merged(si.finalBlockID, acc.finalBlockID),
      locator := MergedOpaque(si.locator, acc.locator)), rest))
    ensures OpensWithin(TimestampTail(si, Type) + rest, {Tag.KeyLocator, FinalBlockID, FreshnessSeconds, Type, Timestamp})
  {
    var seg := OptionalElem(Timestamp, si.timestamp);
    AppendRegroup(seg, TypeTail(si, Type), rest);
    TypeStage(acc.(timestamp := Merged(si.timestamp, acc.timestamp)), si, rest);
    OptElemStep(Timestamp, si.timestamp, acc.timestamp, TypeTail(si, Type) + rest);
    OpensWithinPrepend(seg, TypeTail(si, Type) + rest, Timestamp, {Tag.KeyLocator, FinalBlockID, FreshnessSeconds, Type});
  }

  lemma PublisherStage(acc: SignedInfoFields, si: SignedInfoFields, rest: seq<Token>)
    ensures ParsePublisher(PublisherTail(si, Type) + rest, acc) == Some((DecodedSignedInfo(si, acc), rest))
  {
    var seg := OptionalNested(PublisherPublicKeyDigest, si.publisher);
    AppendRegroup(seg, TimestampTail(si, Type), rest);
    TimestampStage(acc.(publisher := MergedOpaque(si.publisher, acc.publisher)), si, rest);
    OptNestedStep(PublisherPublicKeyDigest, si.publisher, acc.publisher, TimestampTail(si, Type) + rest);
  }

  /**
   * Encode-then-decode, whatever follows the block, when the type is read
   * under the tag it was written with: reading stops just past the block.
   */
  lemma SignedInfoRoundTrip(si: SignedInfoFields, init: SignedInfoFields, rest: seq<Token>)
    ensures ParseSignedInfo(SignedInfoTokens(si, Type) + rest, init) == Some((DecodedSignedInfo(si, init), rest))
  {
    SignedInfoTokensSplit(si, Type);
    AppendRegroup([Start(Tag.SignedInfo)], PublisherTail(si, Type), rest);
    assert (SignedInfoTokens(si, Type) + rest)[1..] == PublisherTail(si, Type) + rest;
    PublisherStage(init, si, rest);
  }

  /** The type a decode of the encoding produces is DATA exactly when the encoder left the Type element out. */
  lemma DecodedTypeIsDataIffOmitted(si: SignedInfoFields, init: SignedInfoFields)
    ensures var r := ParseSignedInfo(SignedInfoTokens(si, Type), init);
      r.Some? && (r.value.0.contentType == Int(ContentTypes.DATA) <==> !TypeWritten(si.contentType))
  {
    SignedInfoRoundTrip(si, init, []);
    assert SignedInfoTokens(si, Type) + [] == SignedInfoTokens(si, Type);
  }

  /** The tags `from_ndnb` looks for inside a SignedInfo. */
  const FieldTags: set<Tag> := {PublisherPublicKeyDigest, Timestamp, Type, FreshnessSeconds, FinalBlockID, Tag.KeyLocator}

  /**
   * With the type written under a tag the decoder never looks for, a
   * SignedInfo whose type is written fails to decode: no lookahead takes the
   * element and the closing read rejects it.
   */
  lemma MisTaggedTypeRejected(si: SignedInfoFields, typeTag: Tag, init: SignedInfoFields, rest: seq<Token>)
    requires TypeWritten(si.contentType)
    requires typeTag !in FieldTags
    ensures ParseSignedInfo(SignedInfoTokens(si, typeTag) + rest, init) == None
  {
    var pubSeg := OptionalNested(PublisherPublicKeyDigest, si.publisher);
    var tsSeg := OptionalElem(Timestamp, si.timestamp);
    var s2 := TypeTail(si, typeTag) + rest;
    assert s2[0] == Elem(typeTag, si.contentType);
    SignedInfoTokensSplit(si, typeTag);
    AppendRegroup([Start(Tag.SignedInfo)], PublisherTail(si, typeTag), rest);
    AppendRegroup(pubSeg, TimestampTail(si, typeTag), rest);
    AppendRegroup(tsSeg, TypeTail(si, typeTag), rest);
    assert (SignedInfoTokens(si, typeTag) + rest)[1..] == pubSeg + (tsSeg + s2);
    assert !Peek(tsSeg + s2, PublisherPublicKeyDigest) by {
      if tsSeg == [] { assert tsSeg + s2 == s2; }
    }
    OptNestedStep(PublisherPublicKeyDigest, si.publisher, init.publisher, tsSeg + s2);
    var acc1 := init.(publisher := MergedOpaque(si.publisher, init.publisher));
    OptElemStep(Timestamp, si.timestamp, acc1.timestamp, s2);
    var acc2 := acc1.(timestamp := Merged(si.timestamp, acc1.timestamp));
    assert ParseContentType(s2, acc2) == None;
  }

  /*
   * The frame of the decoder: a field whose element does not occur in the
   * stream keeps its value (the type becomes DATA), and a successful decode
   * stops just past a closing token.
   */

  lemma LocatorFrame(s: seq<Token>, acc: SignedInfoFields)
    requires ParseLocator(s, acc).Some?
    ensures var (r, rest) := ParseLocator(s, acc).value;
      && ClosedBefore(s, rest)
      && r.(locator := acc.locator) == acc
      && (!Mentions(s, Tag.KeyLocator) ==> r.locator == acc.locator)
  {
    var a := OptNested(s, Tag.KeyLocator, acc.locator).value;
    if Peek(s, Tag.KeyLocator) {
      assert Mentions(s, Tag.KeyLocator) by { assert TagOf(s[0]) == Some(Tag.KeyLocator); }
    }
    assert Suffix(s, a.1);
    assert ClosedBefore(a.1, a.1[1..]);
    ClosedBeforeTrans(s, a.1, a.1[1..]);
  }

  lemma FinalBlockIDFrame(s: seq<Token>, acc: SignedInfoFields)
    requires ParseFinalBlockID(s, acc).Some?
    ensures var (r, rest) := ParseFinalBlockID(s, acc).value;
      && ClosedBefore(s, rest)
      && r.(finalBlockID := acc.finalBlockID, locator := acc.locator) == acc
      && (!Mentions(s, FinalBlockID) ==> r.finalBlockID == acc.finalBlockID)
      && (!Mentions(s, Tag.KeyLocator) ==> r.locator == acc.locator)
  {
    var a := OptElem(s, FinalBlockID, acc.finalBlockID).value;
    if Peek(s, FinalBlockID) {
      assert Mentions(s, FinalBlockID) by { assert TagOf(s[0]) == Some(FinalBlockID); }
    }
    assert Suffix(s, a.1);
    LocatorFrame(a.1, acc.(finalBlockID := a.0));
    ClosedBeforeTrans(s, a.1, ParseFinalBlockID(s, acc).value.1);
    if Mentions(a.1, Tag.KeyLocator) { MentionsSuffix(s, a.1, Tag.KeyLocator); }
  }

  lemma FreshnessFrame(s: seq<Token>, acc: SignedInfoFields)
    requires ParseFreshness(s, acc).Some?
    ensures var (r, rest) := ParseFreshness(s, acc).value;
      && ClosedBefore(s, rest)
      && r.(freshnessSeconds := acc.freshnessSeconds, finalBlockID := acc.finalBlockID, locator := acc.locator) == acc
      && (!Mentions(s, FreshnessSeconds) ==> r.freshnessSeconds == acc.freshnessSeconds)
      && (!Mentions(s, FinalBlockID) ==> r.finalBlockID == acc.finalBlockID)
      && (!Mentions(s, Tag.KeyLocator) ==> r.locator == acc.locator)
  {
    var a := OptElem(s, FreshnessSeconds, acc.freshnessSeconds).value;
    if Peek(s, FreshnessSeconds) {
      assert Mentions(s, FreshnessSeconds) by { assert TagOf(s[0]) == Some(FreshnessSeconds); }
    }
    assert Suffix(s, a.1);
    FinalBlockIDFrame(a.1, acc.(freshnessSeconds := a.0));
    ClosedBeforeTrans(s, a.1, ParseFreshness(s, acc).value.1);
    if Mentions(a.1, FinalBlockID) { MentionsSuffix(s, a.1, FinalBlockID); }
    if Mentions(a.1, Tag.KeyLocator) { MentionsSuffix(s, a.1, Tag.KeyLocator); }
  }

  lemma TypeFrame(s: seq<Token>, acc: SignedInfoFields)
    requires ParseContentType(s, acc).Some?
    ensures var (r, rest) := ParseContentType(s, acc).value;
      && ClosedBefore(s, rest)
      && r.(contentType := acc.contentType, freshnessSeconds := acc.freshnessSeconds,
            finalBlockID := acc.finalBlockID, locator := acc.locator) == acc
      && (!Mentions(s, Type) ==> r.contentType == Int(ContentTypes.DATA))
      && (!Mentions(s, FreshnessSeconds) ==> r.freshnessSeconds == acc.freshnessSeconds)
      && (!Mentions(s, FinalBlockID) ==> r.finalBlockID == acc.finalBlockID)
      && (!Mentions(s, Tag.KeyLocator) ==> r.locator == acc.locator)
  {
    var a := ParseType(s).value;
    if Peek(s, Type) {
      assert Mentions(s, Type) by { assert TagOf(s[0]) == Some(Type); }
    }
    assert Suffix(s, a.1);
    FreshnessFrame(a.1, acc.(contentType := a.0));
    ClosedBeforeTrans(s, a.1, ParseContentType(s, acc).value.1);
    if Mentions(a.1, FreshnessSeconds) { MentionsSuffix(s, a.1, FreshnessSeconds); }
    if Mentions(a.1, FinalBlockID) { MentionsSuffix(s, a.1, FinalBlockID); }
    if Mentions(a.1, Tag.KeyLocator) { MentionsSuffix(s, a.1, Tag.KeyLocator); }
  }

  lemma TimestampFrame(s: seq<Token>, acc: SignedInfoFields)
    requires ParseTimestamp(s, acc).Some?
    ensures var (r, rest) := ParseTimestamp(s, acc).value;
      && ClosedBefore(s, rest)
      && r.publisher == acc.publisher
      && (!Mentions(s, Timestamp) ==> r.timestamp == acc.timestamp)
      && (!Mentions(s, Type) ==> r.contentType == Int(ContentTypes.DATA))
      && (!Mentions(s, FreshnessSeconds) ==> r.freshnessSeconds == acc.freshnessSeconds)
      && (!Mentions(s, FinalBlockID) ==> r.finalBlockID == acc.finalBlockID)
      && (!Mentions(s, Tag.KeyLocator) ==> r.locator == acc.locator)
  {
    var a := OptElem(s, Timestamp, acc.timestamp).value;
    if Peek(s, Timestamp) {
      assert Mentions(s, Timestamp) by { assert TagOf(s[0]) == Some(Timestamp); }
    }
    assert Suffix(s, a.1);
    TypeFrame(a.1, acc.(timestamp := a.0));
    ClosedBeforeTrans(s, a.1, ParseTimestamp(s, acc).value.1);
    if Mentions(a.1, Type) { MentionsSuffix(s, a.1, Type); }
    if Mentions(a.1, FreshnessSeconds) { MentionsSuffix(s, a.1, FreshnessSeconds); }
    if Mentions(a.1, FinalBlockID) { MentionsSuffix(s, a.1, FinalBlockID); }
    if Mentions(a.1, Tag.KeyLocator) { MentionsSuffix(s, a.1, Tag.KeyLocator); }
  }

  lemma PublisherFrame(s: seq<Token>, acc: SignedInfoFields)
    requires ParsePublisher(s, acc).Some?
    ensures var (r, rest) := ParsePublisher(s, acc).value;
      && ClosedBefore(s, rest)
      && (!Mentions(s, PublisherPublicKeyDigest) ==> r.publisher == acc.publisher)
      && (!Mentions(s, Timestamp) ==> r.timestamp == acc.timestamp)
      && (!Mentions(s, Type) ==> r.contentType == Int(ContentTypes.DATA))
      && (!Mentions(s, FreshnessSeconds) ==> r.freshnessSeconds == acc.freshnessSeconds)
      && (!Mentions(s, FinalBlockID) ==> r.finalBlockID == acc.finalBlockID)
      && (!Mentions(s, Tag.KeyLocator) ==> r.locator == acc.locator)
  {
    var a := OptNested(s, PublisherPublicKeyDigest, acc.publisher).value;
    if Peek(s, PublisherPublicKeyDigest) {
      assert Mentions(s, PublisherPublicKeyDigest) by { assert TagOf(s[0]) == Some(PublisherPublicKeyDigest); }
    }
    assert Suffix(s, a.1);
    TimestampFrame(a.1, acc.(publisher := a.0));
    ClosedBeforeTrans(s, a.1, ParsePublisher(s, acc).value.1);
    if Mentions(a.1, Timestamp) { MentionsSuffix(s, a.1, Timestamp); }
    if Mentions(a.1, Type) { MentionsSuffix(s, a.1, Type); }
    if Mentions(a.1, FreshnessSeconds) { MentionsSuffix(s, a.1, FreshnessSeconds); }
    if Mentions(a.1, FinalBlockID) { MentionsSuffix(s, a.1, FinalBlockID); }
    if Mentions(a.1, Tag.KeyLocator) { MentionsSuffix(s, a.1, Tag.KeyLocator); }
  }

  /**
   * A successful decode stops just past a closing token, and every field
   * whose element does not occur in the stream keeps its value (the type
   * becomes DATA).
   */
  lemma AbsentFieldsUnchanged(s: seq<Token>, init: SignedInfoFields)
    requires ParseSignedInfo(s, init).Some?
    ensures var (r, rest) := ParseSignedInfo(s, init).value;
      && ClosedBefore(s, rest)
      && (!Mentions(s, PublisherPublicKeyDigest) ==> r.publisher == init.publisher)
      && (!Mentions(s, Timestamp) ==> r.timestamp == init.timestamp)
      && (!Mentions(s, Type) ==> r.contentType == Int(ContentTypes.DATA))
      && (!Mentions(s, FreshnessSeconds) ==> r.freshnessSeconds == init.freshnessSeconds)
      && (!Mentions(s, FinalBlockID) ==> r.finalBlockID == init.finalBlockID)
      && (!Mentions(s, Tag.KeyLocator) ==> r.locator == init.locator)
  {
    var r0 := s[1..];
    assert Suffix(s, r0);
    PublisherFrame(r0, init);
    ClosedBeforeTrans(s, r0, ParseSignedInfo(s, init).value.1);
    if Mentions(r0, PublisherPublicKeyDigest) { MentionsSuffix(s, r0, PublisherPublicKeyDigest); }
    if Mentions(r0, Timestamp) { MentionsSuffix(s, r0, Timestamp); }
    if Mentions(r0, Type) { MentionsSuffix(s, r0, Type); }
    if Mentions(r0, FreshnessSeconds) { MentionsSuffix(s, r0, FreshnessSeconds); }
    if Mentions(r0, FinalBlockID) { MentionsSuffix(s, r0, FinalBlockID); }
    if Mentions(r0, Tag.KeyLocator) { MentionsSuffix(s, r0, Tag.KeyLocator); }
  }

  class SignedInfo {
    var publisher: Option<Opaque>
    var timestamp: Value
    var contentType: Value  // the source's `type` (a Dafny keyword)
    var locator: Option<Opaque>
    var freshnessSeconds: Value
    var finalBlockID: Value

    /**
     * The constructor stores its arguments and then calls `setFields`
     * unconditionally, so publisher, timestamp, type and locator always
     * come from the signing identity and the clock.
     */
    constructor (publisher: Option<Opaque>, timestamp: Value, contentType: Value, locator: Option<Opaque>,
                 freshnessSeconds: Value, finalBlockID: Value, identity: Identity, now: int)
      ensures this.publisher == Some(Digest(identity.keyID))
      ensures this.timestamp == Time(now)
      ensures this.contentType == Int(ContentTypes.DATA)
      ensures this.locator == Some(Locator(identity.publicKeyDer, KEY))
      ensures this.freshnessSeconds == freshnessSeconds && this.finalBlockID == finalBlockID
      ensures Validate()
    {
      this.publisher := publisher;
      this.timestamp := timestamp;
      this.contentType := contentType;
      this.locator := locator;
      this.freshnessSeconds := freshnessSeconds;
      this.finalBlockID := finalBlockID;
      new;
      SetFields(identity, now);
    }

    function Fields(): SignedInfoFields
      reads this
    {
      SignedInfoFields(publisher, timestamp, contentType, locator, freshnessSeconds, finalBlockID)
    }

    function ElementLabel(): Tag
    {
      Tag.SignedInfo
    }

    /** `validate()`: true exactly when publisher, timestamp and locator are present. */
    predicate Validate()
      reads this
      ensures Validate() <==> publisher.Some? && timestamp != Null && locator.Some?
    {
      ValidSignedInfo(Fields())
    }

    /**
     * `setFields`: sign as the given identity at time `now` (milliseconds);
     * freshness and final block id are left alone.
     */
    method SetFields(identity: Identity, now: int)
      modifies this
      ensures Fields() == old(Fields()).(
        publisher := Some(Digest(identity.keyID)),
        timestamp := Time(now),
        contentType := Int(ContentTypes.DATA),
        locator := Some(Locator(identity.publicKeyDer, KEY)))
      ensures Validate()
    {
      publisher := Some(Digest(identity.keyID));
      timestamp := Time(now);
      contentType := Int(ContentTypes.DATA);
      locator := Some(Locator(identity.publicKeyDer, KEY));
    }

    /**
     * The type step of `from_ndnb`: read the Type element when the lookahead
     * sees it and reject a null payload; otherwise DATA.
     */
    static method ReadContentType(decoder: Decoder) returns (ok: bool, contentType: Value)
      modifies decoder
      ensures ParseType(old(decoder.Rest())) == if ok then Some((contentType, decoder.Rest())) else None
    {
      var found := decoder.PeekStartElement(Type);
      if found {
        ok, contentType := decoder.ReadElement(Type);
        if !ok { return; }
        if contentType == Null {
          ok := false;
          return;
        }
      } else {
        ok, contentType := true, Int(ContentTypes.DATA);
      }
    }

    /**
     * `from_ndnb`: each optional field is read only when the lookahead sees
     * it, and the type falls back to DATA.
     */
    method FromNdnb(decoder: Decoder) returns (ok: bool)
      modifies this, decoder
      ensures ParseSignedInfo(old(decoder.Rest()), old(Fields())) == if ok then Some((Fields(), decoder.Rest())) else None
    {
      ghost var spec := ParseSignedInfo(decoder.Rest(), Fields());
      ok := decoder.ReadStartElement(ElementLabel());
      if !ok { return; }
      assert spec == ParsePublisher(decoder.Rest(), Fields());
      ok, publisher := decoder.ReadOptionalNested(PublisherPublicKeyDigest, publisher);
      if !ok { return; }
      assert spec == ParseTimestamp(decoder.Rest(), Fields());
      ok, timestamp := decoder.ReadOptionalElement(Timestamp, timestamp);
      if !ok { return; }
      assert spec == ParseContentType(decoder.Rest(), Fields());
      ok, contentType := ReadContentType(decoder);
      if !ok { return; }
      assert spec == ParseFreshness(decoder.Rest(), Fields());
      ok, freshnessSeconds := decoder.ReadOptionalElement(FreshnessSeconds, freshnessSeconds);
      if !ok { return; }
      assert spec == ParseFinalBlockID(decoder.Rest(), Fields());
      ok, finalBlockID := decoder.ReadOptionalElement(FinalBlockID, finalBlockID);
      if !ok { return; }
      assert spec == ParseLocator(decoder.Rest(), Fields());
      ok, locator := decoder.ReadOptionalNested(Tag.KeyLocator, locator);
      if !ok { return; }
      ok := decoder.ReadEndElement();
    }

    /**
     * `to_ndnb`: refuses, writing nothing, exactly when publisher, timestamp
     * or locator is missing; otherwise appends the block's tokens.
     */
    method ToNdnb(encoder: Encoder, typeTag: Tag) returns (ok: bool)
      modifies encoder
      ensures ok <==> publisher.Some? && timestamp != Null && locator.Some?
      ensures encoder.output == old(encoder.output) + (if ok then SignedInfoTokens(Fields(), typeTag) else [])
    {
      ok := Validate();
      if !ok { return; }
      // `written` is what this call has appended so far
      ghost var before, written := encoder.output, [Start(Tag.SignedInfo)];
      encoder.WriteStartElement(ElementLabel());
      encoder.WriteOptionalNested(PublisherPublicKeyDigest, publisher);
      AppendRegroup(before, written, OptionalNested(PublisherPublicKeyDigest, publisher));
      written := written + OptionalNested(PublisherPublicKeyDigest, publisher);
      assert encoder.output == before + written;
      encoder.WriteOptionalElement(Timestamp, timestamp);
      AppendRegroup(before, written, OptionalElem(Timestamp, timestamp));
      written := written + OptionalElem(Timestamp, timestamp);
      assert encoder.output == before + written;
      if contentType != Null && contentType != Int(ContentTypes.DATA) {
        encoder.WriteElement(typeTag, contentType);
      }
      AppendRegroup(before, written, TypeSegment(contentType, typeTag));
      written := written + TypeSegment(contentType, typeTag);
      assert encoder.output == before + written;
      encoder.WriteOptionalElement(FreshnessSeconds, freshnessSeconds);
      AppendRegroup(before, written, OptionalElem(FreshnessSeconds, freshnessSeconds));
      written := written + OptionalElem(FreshnessSeconds, freshnessSeconds);
      assert encoder.output == before + written;
      encoder.WriteOptionalElement(FinalBlockID, finalBlockID);
      AppendRegroup(before, written, OptionalElem(FinalBlockID, finalBlockID));
      written := written + OptionalElem(FinalBlockID, finalBlockID);
      assert encoder.output == before + written;
      encoder.WriteOptionalNested(Tag.KeyLocator, locator);
      AppendRegroup(before, written, OptionalNested(Tag.KeyLocator, locator));
      written := written + OptionalNested(Tag.KeyLocator, locator);
      assert encoder.output == before + written;
      AppendRegroup(before, written, [End]);
      assert written + [End] == SignedInfoTokens(Fields(), typeTag);
      encoder.WriteEndElement();
    }
  }
}
