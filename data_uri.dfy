/**
 * The two data-URI helpers that lib/nb-gemini.ts and lib/video-generation.ts both
 * define, `extractBase64` and `extractMimeType`, and the `data:<mime>;base64,<data>`
 * form the program writes (the base64 form of section 3 of RFC 2397).
 */
module DataUri {
  import opened Wrappers
  import opened JsValues

  const DataScheme: string := "data:"
  const DefaultMimeType: string := "image/jpeg"

  /**
   * `dataUri.split(",")[1]`: the text after the first comma up to the next one; `undefined`
   * without a comma. The payload is missing exactly when there is no comma, and never
   * contains one.
   */
  function ExtractBase64(dataUri: string): (r: Option<string>)
    ensures r.None? <==> ',' !in dataUri
    ensures r.Some? ==> ',' !in r.value
  {
    SplitSecond(dataUri, ',')
  }

  /** `data:([^;]+);` matches at position `i` of `s` with group `g`: "data:", then `g`, non-empty and free of ';', then ';'. */
  predicate IsMatch(s: string, i: nat, g: string)
  {
    i + |DataScheme| + |g| < |s| && |g| > 0 && ';' !in g
    && s[i..i + |DataScheme|] == DataScheme
    && s[i + |DataScheme|..i + |DataScheme| + |g|] == g
    && s[i + |DataScheme| + |g|] == ';'
  }

  /** The match at position `i`, if the pattern matches there. */
  function MatchAt(s: string, i: nat): (r: Option<string>)
    ensures r.Some? ==> IsMatch(s, i, r.value)
  {
    if i + |DataScheme| <= |s| && s[i..i + |DataScheme|] == DataScheme then
      var rest := s[i + |DataScheme|..];
      match IndexOf(rest, ';')
      case Some(k) =>
        if k > 0 then
          assert rest[..k] == s[i + |DataScheme|..i + |DataScheme| + k];
          Some(rest[..k])
        else None
      case None => None
    else None
  }

  /** Conversely, a match at `i` is the one `MatchAt` finds: the group always ends at the first ';'. */
  lemma MatchAtComplete(s: string, i: nat, g: string)
    requires IsMatch(s, i, g)
    ensures MatchAt(s, i) == Some(g)
  {
    var rest := s[i + |DataScheme|..];
    assert rest == g + rest[|g|..];
    IndexOfAppend(g, rest[|g|..], ';');
    assert rest[|g|..][0] == ';';
  }

  /** The match found by scanning from position `i` onwards. */
  function FirstMatchFrom(s: string, i: nat): Option<string>
    decreases |s| - i
  {
    if i > |s| then None
    else if MatchAt(s, i).Some? then MatchAt(s, i)
    else FirstMatchFrom(s, i + 1)
  }

  /** The scan finds the leftmost match at or after `i`, and nothing when there is none. */
  lemma {:induction false} FirstMatchFromIsLeftmost(s: string, i: nat)
    ensures var r := FirstMatchFrom(s, i);
      (r.None? <==> forall j :: i <= j <= |s| ==> MatchAt(s, j).None?) &&
      (r.Some? ==> exists j :: i <= j <= |s| && MatchAt(s, j) == r &&
                     forall k :: i <= k < j ==> MatchAt(s, k).None?)
    decreases |s| - i
  {
    if i <= |s| && MatchAt(s, i).None? {
      FirstMatchFromIsLeftmost(s, i + 1);
      var r := FirstMatchFrom(s, i + 1);
      assert FirstMatchFrom(s, i) == r;
      if r.Some? {
        var j :| i + 1 <= j <= |s| && MatchAt(s, j) == r && forall k :: i + 1 <= k < j ==> MatchAt(s, k).None?;
        assert forall k :: i <= k < j ==> MatchAt(s, k).None?;
      } else {
        assert forall j :: i <= j <= |s| ==> MatchAt(s, j).None?;
      }
    }
  }

  /**
   * `extractMimeType`: the group of the leftmost match of `data:([^;]+);`, else
   * "image/jpeg". The type is never empty and never holds a ';', and it is either the
   * default or a group the pattern matches somewhere in the URI.
   */
  function ExtractMimeType(dataUri: string): (r: string)
    ensures |r| > 0 && ';' !in r
    ensures r == DefaultMimeType || exists i :: 0 <= i <= |dataUri| && IsMatch(dataUri, i, r)
  {
    FirstMatchFromIsLeftmost(dataUri, 0);
    match FirstMatchFrom(dataUri, 0)
    case Some(mime) => mime
    case None => DefaultMimeType
  }

  /**
   * `data:${mimeType};base64,${data}`. Reading the URI back gives the type it was built
   * with when that is non-empty with no ';', and the payload when neither part has a ','.
   */
  function BuildDataUri(mimeType: string, data: string): (r: string)
    ensures DataScheme <= r
    ensures |mimeType| > 0 && ';' !in mimeType ==> ExtractMimeType(r) == mimeType
    ensures ',' !in mimeType && ',' !in data ==> ExtractBase64(r) == Some(data)
  {
    BuiltReadsBack(mimeType, data);
    DataScheme + mimeType + ";base64," + data
  }

  // ---------------------------------------------------------------- properties

  /** Without any ';' the pattern cannot match, so the MIME type falls back to "image/jpeg". */
  lemma NoSemicolonDefaultsToJpeg(dataUri: string)
    requires ';' !in dataUri
    ensures ExtractMimeType(dataUri) == DefaultMimeType
  {
    forall j | 0 <= j <= |dataUri|
      ensures MatchAt(dataUri, j).None?
    {
    }
    FirstMatchFromIsLeftmost(dataUri, 0);
  }

  /** A URI starting "data:" with a non-empty type before the first ';' yields that type. */
  lemma MimeTypeOfPrefixed(mime: string, rest: string)
    requires |mime| > 0 && ';' !in mime
    ensures ExtractMimeType(DataScheme + mime + ";" + rest) == mime
  {
    var s := DataScheme + mime + ";" + rest;
    assert s[0..|DataScheme|] == DataScheme;
    var tail := s[|DataScheme|..];
    assert tail == mime + ";" + rest;
    IndexOfAppend(mime, ";" + rest, ';');
    assert mime + ";" + rest == mime + (";" + rest);
    assert tail[..|mime|] == mime;
  }

  lemma NoCommaBeforePayload(mimeType: string)
    requires ',' !in mimeType
    ensures ',' !in DataScheme + mimeType + ";base64"
  {
    assert ',' !in DataScheme;
    assert ',' !in ";base64";
  }

  /** The two read-backs of the text `BuildDataUri` builds. */
  lemma BuiltReadsBack(mimeType: string, data: string)
    ensures |mimeType| > 0 && ';' !in mimeType ==> ExtractMimeType(DataScheme + mimeType + ";base64," + data) == mimeType
    ensures ',' !in mimeType && ',' !in data ==> ExtractBase64(DataScheme + mimeType + ";base64," + data) == Some(data)
  {
    var uri := DataScheme + mimeType + ";base64," + data;
    if |mimeType| > 0 && ';' !in mimeType {
      assert uri == DataScheme + mimeType + ";" + ("base64," + data);
      MimeTypeOfPrefixed(mimeType, "base64," + data);
    }
    if ',' !in mimeType && ',' !in data {
      var before := DataScheme + mimeType + ";base64";
      NoCommaBeforePayload(mimeType);
      assert uri == before + [','] + data;
      SplitAt(before, data, ',');
    }
  }
}
