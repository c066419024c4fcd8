/**
 * Naming of the payload key of a delayed message and its inverse (src/broker/utils.ts).
 *
 * A message id is a UUID. Its timer key is the id itself; its payload key is the id with a fixed
 * affix: `id + DATA_SUFFIX` for the cluster broker, `"data-" + id` for the single-node queue (whose
 * key pattern is `data-*`). Parsing a payload key gives the id back when it is a valid UUID.
 */
module KeyNaming {
  import opened Messages

  predicate IsHex(c: char) {
    '0' <= c <= '9' || 'a' <= c <= 'f' || 'A' <= c <= 'F'
  }

  predicate IsUuidChar(c: char) {
    IsHex(c) || c == '-'
  }

  predicate IsHyphenPosition(i: int) {
    i == 8 || i == 13 || i == 18 || i == 23
  }

  /** All hexadecimal digits are zero: the nil UUID, given the 8-4-4-4-12 shape. */
  predicate IsNilShape(s: string) {
    forall i | 0 <= i < |s| && !IsHyphenPosition(i) :: s[i] == '0'
  }

  /**
   * `validate` of the uuid package: 8-4-4-4-12 hexadecimal digits in either case, with version
   * digit 1 to 5 and variant digit 8, 9, a or b; or the nil UUID.
   */
  predicate IsUuid(s: string) {
    && |s| == 36
    && (forall i | 0 <= i < 36 :: if IsHyphenPosition(i) then s[i] == '-' else IsHex(s[i]))
    && (IsNilShape(s) || ('1' <= s[14] <= '5' && s[19] in "89abAB"))
  }

  lemma UuidAlphabet(s: string)
    requires IsUuid(s)
    ensures |s| == 36
    ensures forall i | 0 <= i < |s| :: IsUuidChar(s[i])
  {
  }

  /** `pat` occurs in `text` starting at index `i`. */
  predicate OccursAt(pat: string, text: string, i: int) {
    0 <= i && i + |pat| <= |text| && text[i..i + |pat|] == pat
  }

  predicate Occurs(pat: string, text: string) {
    exists i | 0 <= i <= |text| :: OccursAt(pat, text, i)
  }

  /** The first index at or after `from` where `pat` occurs in `text`. */
  function IndexFrom(text: string, pat: string, from: nat): (r: Option<nat>)
    requires from <= |text|
    decreases |text| - from
    ensures r.Some? ==> from <= r.value && OccursAt(pat, text, r.value)
    ensures forall j | from <= j && (r.None? || j < r.value) :: !OccursAt(pat, text, j)
  {
    if from + |pat| > |text| then None
    else if text[from..from + |pat|] == pat then Some(from)
    else IndexFrom(text, pat, from + 1)
  }

  /**
   * `key.split(sep)[0]` for a non-empty separator: the text before the first occurrence of `sep`,
   * or the whole key when `sep` does not occur.
   */
  function FirstSegment(key: string, sep: string): (segment: string)
    requires sep != ""
    ensures segment <= key
    ensures forall j | 0 <= j < |segment| :: !OccursAt(sep, key, j)
    ensures Occurs(sep, key) ==> OccursAt(sep, key, |segment|)
    ensures !Occurs(sep, key) ==> segment == key
  {
    match IndexFrom(key, sep, 0)
    case None => key
    case Some(i) => key[..i]
  }

  /** How a payload key is derived from a message id. */
  datatype KeyScheme = Prefix(prefix: string) | Suffix(suffix: string) {
    /** The affix is a non-empty constant (an empty separator would split into characters). */
    predicate Valid() {
      match this
      case Prefix(p) => p != ""
      case Suffix(s) => s != ""
    }

    function Affix(): string {
      match this
      case Prefix(p) => p
      case Suffix(s) => s
    }
  }

  /** `getDataKey`: the key that holds the payload of message `id`. */
  function DataKey(scheme: KeyScheme, id: string): string {
    match scheme
    case Prefix(p) => p + id
    case Suffix(s) => id + s
  }

  /**
   * `parseID`: the id encoded in a payload key, or None. For the suffix scheme it is the text
   * before the first suffix, kept only when it is a non-empty valid UUID.
   */
  function ParseId(scheme: KeyScheme, key: string): (id: Option<string>)
    requires scheme.Valid()
    ensures id.Some? ==> IsUuid(id.value)
    ensures id.Some? && scheme.Suffix? ==> id.value == FirstSegment(key, scheme.suffix)
    ensures id.Some? && scheme.Prefix? ==> key == DataKey(scheme, id.value)
  {
    match scheme
    case Suffix(s) =>
      var segment := FirstSegment(key, s);
      if segment != "" && IsUuid(segment) then Some(segment) else None
    case Prefix(p) =>
      if p <= key && IsUuid(key[|p|..]) then Some(key[|p|..]) else None
  }

  /** The payload key is the id with the affix attached, so distinct ids get distinct keys. */
  lemma DataKeyInjective(scheme: KeyScheme, id1: string, id2: string)
    ensures DataKey(scheme, id1) == DataKey(scheme, id2) <==> id1 == id2
    ensures |DataKey(scheme, id1)| == |id1| + |scheme.Affix()|
  {
    var k1, k2 := DataKey(scheme, id1), DataKey(scheme, id2);
    if k1 == k2 {
      match scheme
      case Prefix(p) =>
        assert id1 == k1[|p|..] == k2[|p|..] == id2;
      case Suffix(s) =>
        assert |id1| == |id2|;
        assert id1 == k1[..|id1|] == k2[..|id2|] == id2;
    }
  }

  /** A payload key is never itself a UUID, so it can never be taken for a timer key. */
  lemma DataKeyIsNotUuid(scheme: KeyScheme, id: string)
    requires scheme.Valid() && IsUuid(id)
    ensures !IsUuid(DataKey(scheme, id))
    ensures DataKey(scheme, id) != id
  {
  }

  /** Prefix scheme: parsing undoes `DataKey` for every UUID and for nothing else. */
  lemma PrefixRoundTrip(p: string, id: string)
    requires p != ""
    ensures ParseId(Prefix(p), DataKey(Prefix(p), id)) == (if IsUuid(id) then Some(id) else None)
  {
  }

  /** Under a prefix scheme two keys that parse to the same id are the same key. */
  lemma PrefixParseInjective(p: string, k1: string, k2: string)
    requires p != "" && ParseId(Prefix(p), k1).Some? && ParseId(Prefix(p), k1) == ParseId(Prefix(p), k2)
    ensures k1 == k2
  {
  }

  /**
   * Suffix scheme: when the suffix does not occur in `id` followed by all but the last character of
   * the suffix (that is, no occurrence starts inside the id), parsing undoes `DataKey`.
   */
  lemma SuffixRoundTrip(s: string, id: string)
    requires s != ""
    requires !Occurs(s, id + s[..|s| - 1])
    ensures FirstSegment(DataKey(Suffix(s), id), s) == id
    ensures ParseId(Suffix(s), DataKey(Suffix(s), id)) == (if IsUuid(id) then Some(id) else None)
  {
    var key := id + s;
    var early := id + s[..|s| - 1];
    assert key[|id|..|id| + |s|] == s;
    assert OccursAt(s, key, |id|);
    var segment := FirstSegment(key, s);
    if |segment| < |id| {
      var j := |segment|;
      assert OccursAt(s, key, j);
      assert early == key[..|key| - 1];
      assert early[j..j + |s|] == key[j..j + |s|];
      assert OccursAt(s, early, j);
      assert false;
    }
    assert segment == key[..|id|] == id;
  }

  /**
   * The round trip holds for every UUID when the suffix starts with a character that no UUID
   * contains.
   */
  lemma SuffixRoundTripForUuid(s: string, id: string)
    requires s != "" && !IsUuidChar(s[0])
    requires IsUuid(id)
    ensures ParseId(Suffix(s), DataKey(Suffix(s), id)) == Some(id)
  {
    UuidAlphabet(id);
    var early := id + s[..|s| - 1];
    assert !Occurs(s, early);
    SuffixRoundTrip(s, id);
  }

  /** Suffix scheme: a key in which the suffix does not occur parses to itself if it is a UUID. */
  lemma ParseWithoutSuffix(s: string, key: string)
    requires s != "" && !Occurs(s, key)
    ensures ParseId(Suffix(s), key) == (if IsUuid(key) then Some(key) else None)
  {
  }

  /**
   * Suffix scheme: when the first occurrence of the suffix starts at `i`, the key parses to the text
   * before it if that text is a UUID, and to nothing otherwise (in particular when it is empty).
   */
  lemma ParseBeforeFirstSuffix(s: string, key: string, i: nat)
    requires s != ""
    requires OccursAt(s, key, i)
    requires forall j | 0 <= j < i :: !OccursAt(s, key, j)
    ensures ParseId(Suffix(s), key) == (if IsUuid(key[..i]) then Some(key[..i]) else None)
  {
  }

  /**
   * Suffix scheme: a key that parses to `id` is either the id itself (no suffix in the key) or
   * starts with the payload key of `id`.
   */
  lemma ParsedKeyShape(s: string, key: string, id: string)
    requires s != "" && ParseId(Suffix(s), key) == Some(id)
    ensures key == id || DataKey(Suffix(s), id) <= key
  {
  }
}
