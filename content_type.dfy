/**
 * The content classes of a packet and their reserved three-byte wire codes
 * (`ContentType`, `ContentTypeValue`, `ContentTypeValueReverse`).
 */
module ContentTypes {

  const DATA: int := 0
  const ENCR: int := 1
  const GONE: int := 2
  const KEY: int := 3
  const LINK: int := 4
  const NACK: int := 5

  /** Content class to wire code. */
  const ContentTypeValue: map<int, int> :=
    map[0 := 0x0C04C0, 1 := 0x10D091, 2 := 0x18E344, 3 := 0x28463F, 4 := 0x2C834A, 5 := 0x34008A]

  /** Wire code to content class. */
  const ContentTypeValueReverse: map<int, int> :=
    map[0x0C04C0 := 0, 0x10D091 := 1, 0x18E344 := 2, 0x28463F := 3, 0x2C834A := 4, 0x34008A := 5]

  /** The forward table is defined exactly on the six classes. */
  lemma ContentTypeValueDomain()
    ensures ContentTypeValue.Keys == {DATA, ENCR, GONE, KEY, LINK, NACK}
  {
  }

  /** The reverse table undoes the forward one, class by class. */
  lemma ReverseUndoesValue(t: int)
    requires t in ContentTypeValue
    ensures ContentTypeValue[t] in ContentTypeValueReverse
    ensures ContentTypeValueReverse[ContentTypeValue[t]] == t
  {
  }

  /** The forward table undoes the reverse one, code by code. */
  lemma ValueUndoesReverse(code: int)
    requires code in ContentTypeValueReverse
    ensures ContentTypeValueReverse[code] in ContentTypeValue
    ensures ContentTypeValue[ContentTypeValueReverse[code]] == code
  {
  }

  /** No two classes share a wire code. */
  lemma WireCodesDistinct(t1: int, t2: int)
    requires t1 in ContentTypeValue && t2 in ContentTypeValue
    requires ContentTypeValue[t1] == ContentTypeValue[t2]
    ensures t1 == t2
  {
    ReverseUndoesValue(t1);
    ReverseUndoesValue(t2);
  }
}
