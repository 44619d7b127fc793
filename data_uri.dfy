/** The narrow subset of the `data:` URL scheme (RFC 2397, section 3) the service accepts:
    `data:image/<letters>;base64,<payload>`, split into a media type and a payload
    (services/geminiService.ts, `fileToGenerativePart`), and the inverse formatting used
    to hand a returned image back to the user interface. */
module DataUri {
  import opened Outcomes

  /** An inline image of a request or a response: base64 payload and media type. */
  datatype InlineData = InlineData(mimeType: string, data: string)

  const InvalidImageMessage: string := "Invalid base64 string for image"

  /** `data:image/`: the scheme and the only accepted media-type family. */
  const Head: string := "data:image/"

  /** The separator between the media type and the payload. */
  const Base64Marker: string := ";base64,"

  /** `[a-zA-Z]` */
  predicate IsLetter(c: char) {
    ('a' <= c <= 'z') || ('A' <= c <= 'Z')
  }

  /** The characters a regular-expression `.` refuses without the `s` flag. */
  predicate IsLineTerminator(c: char) {
    c == '\n' || c == '\r' || c == '\U{2028}' || c == '\U{2029}'
  }

  /** The payload matches `(.*)$` (no `m` flag): no line terminator anywhere. */
  predicate NoLineBreak(s: string) {
    forall i :: 0 <= i < |s| ==> !IsLineTerminator(s[i])
  }

  /** The media type matches `image\/[a-zA-Z]+`. */
  predicate IsImageMimeType(m: string) {
    |m| > 6 && m[..6] == "image/" && forall i :: 6 <= i < |m| ==> IsLetter(m[i])
  }

  /** The data URI the source writes as `data:${mimeType};base64,${data}`. */
  function Format(d: InlineData): (s: string)
    ensures |s| == |d.mimeType| + |d.data| + 13
    ensures s[..5] == "data:" && s[5..5 + |d.mimeType|] == d.mimeType
    ensures s[5 + |d.mimeType|..13 + |d.mimeType|] == Base64Marker && s[13 + |d.mimeType|..] == d.data
  {
    "data:" + d.mimeType + Base64Marker + d.data
  }

  /** The length of the longest prefix of `s` made of letters. */
  function LetterRun(s: string): (n: nat)
    ensures n <= |s|
    ensures forall i :: 0 <= i < n ==> IsLetter(s[i])
    ensures n < |s| ==> !IsLetter(s[n])
  {
    if |s| > 0 && IsLetter(s[0]) then 1 + LetterRun(s[1..]) else 0
  }

  /** `fileToGenerativePart`: match `^data:(image\/[a-zA-Z]+);base64,(.*)$` and split the
      string into its two groups, or throw. A letter run is followed by `;`, which is not a
      letter, so the subtype group is always the longest letter run after `image/`. */
  function Parse(s: string): (r: Result<InlineData>)
    ensures r.Err? ==> r.error == Error(InvalidImageMessage)
  {
    if |s| < |Head| || s[..|Head|] != Head then Err(Error(InvalidImageMessage))
    else
      var rest := s[|Head|..];
      var n := LetterRun(rest);
      var tail := rest[n..];
      if n == 0 || |tail| < |Base64Marker| || tail[..|Base64Marker|] != Base64Marker
         || !NoLineBreak(tail[|Base64Marker|..])
      then Err(Error(InvalidImageMessage))
      else Ok(InlineData("image/" + rest[..n], tail[|Base64Marker|..]))
  }

  /** Every accepted string is exactly the data URI of the pair it was split into: the media
      type is the `image/<letters>` segment, the payload everything after `;base64,`, and
      nothing is dropped or added. */
  lemma ParseSound(s: string)
    requires Parse(s).Ok?
    ensures IsImageMimeType(Parse(s).value.mimeType)
    ensures NoLineBreak(Parse(s).value.data)
    ensures Format(Parse(s).value) == s
  {
  }

  /** Round trip: a well-formed pair, formatted as a data URI, parses back to itself. */
  lemma {:induction false} ParseFormat(d: InlineData)
    requires IsImageMimeType(d.mimeType)
    requires NoLineBreak(d.data)
    ensures Parse(Format(d)) == Ok(d)
  {
    var s := Format(d);
    var sub := d.mimeType[6..];
    assert d.mimeType == "image/" + sub;
    assert s == Head + (sub + (Base64Marker + d.data));
    var rest := s[|Head|..];
    assert rest == sub + (Base64Marker + d.data);
    var n := LetterRun(rest);
    assert forall i :: 0 <= i < |sub| ==> rest[i] == sub[i] && IsLetter(rest[i]);
    assert rest[|sub|] == ';';
    assert n == |sub|;
    var tail := rest[n..];
    assert tail == Base64Marker + d.data;
    assert tail[..|Base64Marker|] == Base64Marker;
    assert tail[|Base64Marker|..] == d.data;
    assert rest[..n] == sub;
  }

  /** A string is rejected exactly when it is not the data URI of any well-formed pair. */
  lemma ParseRejectsOnlyMalformed(s: string)
    ensures Parse(s).Err? <==>
      forall d: InlineData :: IsImageMimeType(d.mimeType) && NoLineBreak(d.data) ==> Format(d) != s
  {
    if Parse(s).Ok? {
      ParseSound(s);
    } else {
      forall d: InlineData | IsImageMimeType(d.mimeType) && NoLineBreak(d.data)
        ensures Format(d) != s
      {
        ParseFormat(d);
      }
    }
  }
}
