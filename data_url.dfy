/**
 * The payload strip of App.tsx: `currentImage.split(',')[1]`, the field
 * between the first and the second comma of the stored data URL, or
 * `undefined` when the string has no comma at all.
 */
module DataUrl {
  import opened Types

  /** Position of the first occurrence of `c` in `s`, if any. */
  function IndexOf(s: string, c: char): (r: Option<nat>)
    ensures r.None? <==> c !in s
    ensures r.Some? ==> r.value < |s| && s[r.value] == c && c !in s[..r.value]
  {
    if s == [] then None
    else if s[0] == c then Some(0)
    else
      match IndexOf(s[1..], c)
      case None => None
      case Some(i) =>
        assert s[..i + 1] == [s[0]] + s[1..][..i];
        Some(i + 1)
  }

  /**
   * `s.split(',')[1]`: `None` exactly when `s` has no comma; otherwise the
   * text that follows the first comma and stops before the next comma or
   * at the end.
   */
  function SecondField(s: string): (r: Option<string>)
    ensures r.None? <==> ',' !in s
    ensures r.Some? ==> ',' !in r.value
    ensures r.Some? ==> var i := IndexOf(s, ',').value;
      r.value <= s[i + 1..] && (i + 1 + |r.value| == |s| || s[i + 1 + |r.value|] == ',')
  {
    match IndexOf(s, ',')
    case None => None
    case Some(i) =>
      var rest := s[i + 1..];
      match IndexOf(rest, ',')
      case None =>
        Some(rest)
      case Some(j) =>
        Some(rest[..j])
  }

  /**
   * The strip undoes the data-URL framing: for a header such as
   * `data:image/png;base64` and a base64 body, neither holding a comma,
   * the payload sent to the gateway is exactly the body.
   */
  lemma StripsFraming(header: string, body: string)
    requires ',' !in header && ',' !in body
    ensures SecondField(header + "," + body) == Some(body)
  {
  }
}
