/**
 * The byte matcher: first-index search, containment with the compound rule
 * for ID3, and the choice of a category's first matching header.
 */
module Matcher {
  import opened Wrappers
  import opened Seqs
  import opened Registry

  /** The bytes of the ASCII text "ID3". */
  const ID3: seq<byte> := [0x49, 0x44, 0x33]

  /** The bytes of the ASCII text "binary/", the MIME prefix the client stores. */
  const BINARY: seq<byte> := [0x62, 0x69, 0x6E, 0x61, 0x72, 0x79, 0x2F]

  lemma Id3IsTheHeader()
    ensures AsciiBytes("ID3") == ID3
  {
  }

  /**
   * `bytes_search`: the first index of `needle`, or None when the needle is
   * empty or does not occur (in particular when it is longer than the haystack).
   */
  function BytesSearch(haystack: seq<byte>, needle: seq<byte>): (r: Option<nat>)
    ensures r.Some? <==> |needle| > 0 && Occurs(haystack, needle)
    ensures r.Some? ==> r.value + |needle| <= |haystack| && haystack[r.value..r.value + |needle|] == needle
    ensures r.Some? ==> forall j :: 0 <= j < r.value ==> !OccursAt(haystack, needle, j)
  {
    if |needle| > 0 then IndexOf(haystack, needle) else None
  }

  /** The first occurrence of a non-empty needle is what BytesSearch returns. */
  lemma SearchFinds(haystack: seq<byte>, needle: seq<byte>, i: nat)
    requires |needle| > 0 && OccursAt(haystack, needle, i)
    requires forall j :: 0 <= j < i ==> !OccursAt(haystack, needle, j)
    ensures BytesSearch(haystack, needle) == Some(i)
  {
    assert Occurs(haystack, needle);
    var r := BytesSearch(haystack, needle);
    assert !(r.value < i);
    assert !(i < r.value);
  }

  /** A needle longer than the haystack is never found. */
  lemma SearchTooLong(haystack: seq<byte>, needle: seq<byte>)
    requires |needle| > |haystack|
    ensures BytesSearch(haystack, needle) == None
  {
  }

  /**
   * `bytes_contains`: an empty needle never matches; ID3 matches only when
   * "binary/" occurs in the same buffer too; any other needle matches when
   * it occurs.
   */
  function BytesContains(haystack: seq<byte>, needle: seq<byte>): (r: bool)
    ensures r <==> |needle| > 0 && Occurs(haystack, needle) && (needle == ID3 ==> Occurs(haystack, BINARY))
    ensures needle != ID3 ==> r == BytesSearch(haystack, needle).Some?
  {
    if |needle| > 0 then
      if needle == ID3 then
        var binType := Contains(haystack, BINARY);
        var mp3Header := Contains(haystack, needle);
        mp3Header && binType
      else
        Contains(haystack, needle)
    else
      false
  }

  /** `header` (a registered ASCII header) is contained in `bytes`. */
  predicate HeaderMatches(bytes: seq<byte>, header: string)
  {
    BytesContains(bytes, AsciiBytes(header))
  }

  /** The empty placeholder header never matches. */
  lemma EmptyHeaderNeverMatches(bytes: seq<byte>)
    ensures !HeaderMatches(bytes, "")
  {
  }

  /** The index of the first header of `hs` that `bytes` contains. */
  function FirstMatch(hs: seq<string>, bytes: seq<byte>): (r: Option<nat>)
    ensures r.Some? ==> r.value < |hs| && HeaderMatches(bytes, hs[r.value])
    ensures r.Some? ==> forall j :: 0 <= j < r.value ==> !HeaderMatches(bytes, hs[j])
    ensures r.None? ==> forall j :: 0 <= j < |hs| ==> !HeaderMatches(bytes, hs[j])
    decreases |hs|
  {
    if hs == [] then None
    else if HeaderMatches(bytes, hs[0]) then Some(0)
    else match FirstMatch(hs[1..], bytes)
      case None => None
      case Some(k) => Some(k + 1)
  }

  /** `k` is the first index of `hs` whose header `bytes` contains. */
  predicate FirstMatchAt(hs: seq<string>, bytes: seq<byte>, k: nat)
  {
    k < |hs| && HeaderMatches(bytes, hs[k]) && forall j :: 0 <= j < k ==> !HeaderMatches(bytes, hs[j])
  }

  /** `bytes` contains none of the headers of `hs`. */
  predicate NoneMatch(hs: seq<string>, bytes: seq<byte>)
  {
    forall j :: 0 <= j < |hs| ==> !HeaderMatches(bytes, hs[j])
  }

  /** `h` is the first header of `hs` that `bytes` contains. */
  ghost predicate IsFirstMatch(hs: seq<string>, bytes: seq<byte>, h: string)
  {
    exists k: nat :: FirstMatchAt(hs, bytes, k) && hs[k] == h
  }

  /** The first header of `hs` that `bytes` contains, or INVALID. */
  function FirstHeader(hs: seq<string>, bytes: seq<byte>): (r: string)
    requires INVALID !in hs
    ensures r == INVALID <==> NoneMatch(hs, bytes)
    ensures r != INVALID ==> IsFirstMatch(hs, bytes, r)
    ensures r != ""
  {
    match FirstMatch(hs, bytes)
    case None => INVALID
    case Some(k) =>
      assert FirstMatchAt(hs, bytes, k);
      EmptyHeaderNeverMatches(bytes);
      hs[k]
  }

  /**
   * `find_header`: the first header of category `mode`, in table order, that
   * `bytes` contains; INVALID when `mode` is not a category or none matches.
   */
  function FindHeader(mode: string, bytes: seq<byte>): (r: string)
    ensures mode !in HEADERS ==> r == INVALID
    ensures mode in HEADERS ==> (r == INVALID <==> NoneMatch(HEADERS[mode], bytes))
    ensures r != INVALID ==> mode in HEADERS && IsFirstMatch(HEADERS[mode], bytes, r)
    ensures r != ""
  {
    if mode in HEADERS then
      CategoryHeaders(mode);
      FirstHeader(HEADERS[mode], bytes)
    else
      INVALID
  }

  /**
   * An MP3 blob (an ID3 frame, no Ogg page) is a sound only when the cached
   * "binary/" MIME marker is present as well.
   */
  lemma Id3NeedsBinaryMarker(bytes: seq<byte>)
    requires !Occurs(bytes, AsciiBytes("OggS"))
    ensures FindHeader("sounds", bytes) == "ID3" <==> Occurs(bytes, ID3) && Occurs(bytes, BINARY)
  {
    Id3IsTheHeader();
    var hs := HEADERS["sounds"];
    assert hs == ["OggS", "ID3"];
    assert !HeaderMatches(bytes, hs[0]);
  }
}
