/** The one piece of JavaScript string behaviour the generator relies on. */
module JsString {

  /** `s.charAt(i)`: the one-character string at position `i` of `s`, or the
      empty string when `i` lies outside `s` (on either side). */
  function CharAt(s: string, i: int): (r: string)
    ensures |r| <= 1
    ensures |r| == 1 <==> 0 <= i < |s|
    ensures |r| == 1 ==> r[0] == s[i]
  {
    if 0 <= i < |s| then [s[i]] else ""
  }
}
