/** The padding helpers that Tableify borrows from the SevenEcks StringUtils
    package, and PHP's built-in rtrim.  The package itself is not part of this
    model: its helpers are given here as small definitions carrying the
    contracts Tableify relies on (repeat, pad without truncating). */
module StringUtils {

  /** fill($count, $character = ' '): `c` repeated `n` times. */
  function Fill(n: nat, c: string): (r: string)
    ensures |r| == n * |c|
    ensures |c| == 1 ==> forall k :: 0 <= k < |r| ==> r[k] == c[0]
  {
    if n == 0 then "" else Fill(n - 1, c) + c
  }

  /** fill($count) with the default character, a space. */
  function Spaces(n: nat): (r: string)
    ensures |r| == n
    ensures forall k :: 0 <= k < |r| ==> r[k] == ' '
  {
    Fill(n, " ")
  }

  /** left($text, $width): the text, then spaces up to the width; never truncates. */
  function Left(text: string, width: nat): (r: string)
    ensures |r| == if |text| < width then width else |text|
    ensures r[..|text|] == text
    ensures forall k :: |text| <= k < |r| ==> r[k] == ' '
  {
    if |text| < width then text + Spaces(width - |text|) else text
  }

  /** right($text, $width): spaces up to the width, then the text; never truncates. */
  function Right(text: string, width: nat): (r: string)
    ensures |r| == if |text| < width then width else |text|
    ensures r[|r| - |text|..] == text
    ensures forall k :: 0 <= k < |r| - |text| ==> r[k] == ' '
  {
    if |text| < width then Spaces(width - |text|) + text else text
  }

  /** center($text, $width): the padding is split in two, and when it is odd
      the extra space goes on the right (an assumption about the package). */
  function Center(text: string, width: nat): (r: string)
    ensures |r| == if |text| < width then width else |text|
    ensures var lead := if |text| < width then (width - |text|) / 2 else 0;
            && r[lead..lead + |text|] == text
            && (forall k :: 0 <= k < lead ==> r[k] == ' ')
            && (forall k :: lead + |text| <= k < |r| ==> r[k] == ' ')
            && lead <= |r| - (lead + |text|) <= lead + 1
  {
    if |text| < width then
      var pad := width - |text|;
      Spaces(pad / 2) + text + Spaces(pad - pad / 2)
    else
      text
  }

  /** The characters PHP's rtrim strips by default: " \t\n\r\0\x0B". */
  predicate IsTrimmed(c: char) {
    c == ' ' || c == '\t' || c == '\n' || c == '\r' || c == '\0' || c == 11 as char
  }

  /** rtrim($str): the string without its trailing whitespace. */
  function Rtrim(s: string): (r: string)
    ensures |r| <= |s| && r == s[..|r|]
    ensures r == [] || !IsTrimmed(r[|r| - 1])
    ensures forall k :: |r| <= k < |s| ==> IsTrimmed(s[k])
  {
    if |s| > 0 && IsTrimmed(s[|s| - 1]) then Rtrim(s[..|s| - 1]) else s
  }
}
