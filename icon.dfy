/**
 * discord/icon.go: an icon is a MIME type tag plus a payload, and its text
 * form is a data URI in the shape of section 3 of RFC 2397,
 * `"data:" mediatype ";base64" "," data`; an empty payload gives "".
 *
 * Go strings are byte strings. Here a Go `string` is a `string` whose
 * characters each stand for one byte, and `[]byte` is `seq<byte>`.
 */
module Icon {

  import opened Wrappers

  newtype byte = x: int | 0 <= x < 256

  /** Go's `IconType`: a string type whose value is a MIME type. */
  datatype IconType = IconType(mime: string)

  const JPEG := IconType("image/jpeg")
  const PNG := IconType("image/png")
  const WEBP := IconType("image/webp")
  const GIF := IconType("image/gif")
  /** Declared in the source as an alias of the JPEG constant, not as a type of its own. */
  const Unknown := JPEG

  datatype Icon = Icon(iconType: IconType, data: seq<byte>)

  /** Go's `string(b)` for a byte slice: one character per byte, same length, same order. */
  function AsText(data: seq<byte>): (s: string)
    ensures |s| == |data|
    ensures forall k :: 0 <= k < |data| ==> s[k] as int == data[k] as int
  {
    seq(|data|, k requires 0 <= k < |data| => data[k] as int as char)
  }

  /** The MIME type is the IconType's own string; converting it back gives the same IconType. */
  function GetMIME(t: IconType): (r: string)
    ensures IconType(r) == t
  {
    t.mime
  }

  /** The part of the data URI before the comma: scheme, media type and the base64 marker. */
  function GetHeader(t: IconType): (r: string)
    ensures |r| == |GetMIME(t)| + 12
    ensures r[..5] == "data:"
    ensures r[5..|r| - 7] == GetMIME(t)
    ensures r[|r| - 7..] == ";base64"
  {
    "data:" + t.mime + ";base64"
  }

  /** The icon's external text form: empty exactly for an empty payload, otherwise a data URI. */
  function String(i: Icon): (r: string)
    ensures r == "" <==> |i.data| == 0
    ensures |i.data| > 0 ==> |r| == |GetMIME(i.iconType)| + 13 + |i.data|
    ensures |i.data| > 0 ==> r[..5] == "data:"
    ensures |i.data| > 0 ==> r[..|r| - |i.data| - 1] == GetHeader(i.iconType)
    ensures |i.data| > 0 ==> r[|r| - |i.data| - 1] == ','
    ensures |i.data| > 0 ==> r[|r| - |i.data|..] == AsText(i.data)
  {
    if |i.data| == 0 then "" else GetHeader(i.iconType) + "," + AsText(i.data)
  }

  /**
   * `NewIconRaw` with an empty source: the encoder writes nothing into its
   * nil destination, so the icon keeps the type and has no data.
   */
  function NewIconRaw(t: IconType, src: seq<byte>): (r: Icon)
    requires |src| == 0
    ensures r.iconType == t
    ensures |r.data| == 0
    ensures String(r) == ""
  {
    Icon(t, [])
  }

  /** The two names of the JPEG type give the same MIME type and the same header. */
  lemma UnknownIsJPEG()
    ensures Unknown == JPEG
    ensures GetMIME(Unknown) == "image/jpeg"
    ensures GetHeader(Unknown) == GetHeader(JPEG) == "data:image/jpeg;base64"
  {
  }

  // ---------------------------------------------------------------------
  // Reading a data URI back (section 3 of RFC 2397): the inverse of String.
  // ---------------------------------------------------------------------

  /** The parts of a data URI: media type, whether ";base64" was present, and the data after the first comma. */
  datatype DataUri = DataUri(mediaType: string, base64: bool, data: string)

  /** Position of the first `ch` in `s`, or `|s|` when there is none. */
  function IndexOf(s: string, ch: char): (k: nat)
    ensures k <= |s|
    ensures k < |s| ==> s[k] == ch
    ensures forall j :: 0 <= j < k ==> s[j] != ch
  {
    if |s| == 0 then 0
    else if s[0] == ch then 0
    else 1 + IndexOf(s[1..], ch)
  }

  /** Splits `"data:" mediatype [";base64"] "," data` at its first comma; `None` when it is not of that shape. */
  function ParseDataUri(s: string): (r: Option<DataUri>)
    ensures r.Some? ==> |s| >= 6 && s[..5] == "data:"
    ensures r.Some? ==> ',' !in r.value.mediaType
  {
    if |s| < 5 || s[..5] != "data:" then None
    else
      var rest := s[5..];
      var k := IndexOf(rest, ',');
      if k == |rest| then None
      else
        var header := rest[..k];
        assert forall j :: 0 <= j < |header| ==> header[j] != ',';
        if |header| >= 7 && header[|header| - 7..] == ";base64" then
          Some(DataUri(header[..|header| - 7], true, rest[k + 1..]))
        else
          Some(DataUri(header, false, rest[k + 1..]))
  }

  /** The first comma of a string that has a comma-free prefix of length `p` followed by a comma is at `p`. */
  lemma FirstCommaAt(s: string, p: nat)
    requires p < |s| && s[p] == ','
    requires forall j :: 0 <= j < p ==> s[j] != ','
    ensures IndexOf(s, ',') == p
  {
  }

  /**
   * Reading back the text form of a non-empty icon recovers its MIME type,
   * the base64 marker and its payload, provided the MIME type has no comma.
   */
  lemma StringRoundTrip(i: Icon)
    requires |i.data| > 0
    requires ',' !in GetMIME(i.iconType)
    ensures ParseDataUri(String(i)) == Some(DataUri(GetMIME(i.iconType), true, AsText(i.data)))
  {
    var mime := i.iconType.mime;
    var s := String(i);
    var rest := s[5..];
    var p := |mime| + 7;
    assert rest == mime + ";base64" + "," + AsText(i.data);
    assert rest[p] == ',';
    forall j | 0 <= j < p ensures rest[j] != ',' {
      if j < |mime| {
        assert rest[j] == mime[j];
      } else {
        assert rest[j] == ";base64"[j - |mime|];
      }
    }
    FirstCommaAt(rest, p);
    var header := rest[..p];
    assert header == mime + ";base64";
    assert header[|header| - 7..] == ";base64";
    assert header[..|header| - 7] == mime;
    assert rest[p + 1..] == AsText(i.data);
  }

  /** Icons of comma-free types with non-empty payloads have different text forms unless they are equal. */
  lemma StringInjective(i: Icon, j: Icon)
    requires |i.data| > 0 && |j.data| > 0
    requires ',' !in GetMIME(i.iconType) && ',' !in GetMIME(j.iconType)
    requires String(i) == String(j)
    ensures i == j
  {
    StringRoundTrip(i);
    StringRoundTrip(j);
  }

  /** The four named types have comma-free MIME types, so their data URIs read back. */
  lemma NamedTypesReadBack(t: IconType, data: seq<byte>)
    requires t in {JPEG, PNG, WEBP, GIF}
    requires |data| > 0
    ensures ParseDataUri(String(Icon(t, data))) == Some(DataUri(GetMIME(t), true, AsText(data)))
  {
    assert ',' !in GetMIME(t);
    StringRoundTrip(Icon(t, data));
  }
}
