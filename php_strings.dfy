/** The PHP string functions the plugin calls: `strtolower` and `rtrim`. */
module PhpStrings {

  predicate IsUpper(c: char) {
    'A' <= c <= 'Z'
  }

  function LowerChar(c: char): (d: char)
    ensures !IsUpper(d)
    ensures !IsUpper(c) ==> d == c
  {
    if IsUpper(c) then (c as int + 32) as char else c
  }

  /** `strtolower` in the "C" locale: ASCII capitals become small letters,
      every other character is kept. */
  function Lower(s: string): (r: string)
    ensures |r| == |s|
    ensures forall i :: 0 <= i < |s| ==> r[i] == LowerChar(s[i])
    decreases |s|
  {
    if s == [] then [] else [LowerChar(s[0])] + Lower(s[1..])
  }

  /** A lower-cased string has no capitals, and lower-casing it again changes nothing. */
  lemma LowerNormalises(s: string)
    ensures forall i :: 0 <= i < |Lower(s)| ==> !IsUpper(Lower(s)[i])
    ensures Lower(Lower(s)) == Lower(s)
  {
  }

  /**
   * `rtrim($s, $c)` with a one-character mask: strips every trailing `c`.
   * The result is a prefix of `s`, does not end in `c`, and only copies of
   * `c` were cut off.
   */
  function RTrim(s: string, c: char): (r: string)
    ensures r <= s
    ensures r == [] || r[|r| - 1] != c
    ensures forall i :: |r| <= i < |s| ==> s[i] == c
    decreases |s|
  {
    if |s| > 0 && s[|s| - 1] == c then RTrim(s[..|s| - 1], c) else s
  }

  /** The three properties in RTrim's contract determine its result: any
      prefix of `s` that does not end in `c` and leaves only copies of `c`
      behind is `rtrim($s, $c)`. */
  lemma RTrimUnique(s: string, c: char, p: string)
    requires p <= s
    requires p == [] || p[|p| - 1] != c
    requires forall i :: |p| <= i < |s| ==> s[i] == c
    ensures p == RTrim(s, c)
  {
  }

  /** Trimming twice trims no more than trimming once. */
  lemma RTrimIdempotent(s: string, c: char)
    ensures RTrim(RTrim(s, c), c) == RTrim(s, c)
  {
    var r := RTrim(s, c);
    RTrimUnique(r, c, r);
  }
}
