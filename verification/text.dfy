/** String helpers the core relies on: case folding, substring search,
    Python slicing, `' '.join` and `os.path.join`. */
module Text {
  import opened Results

  /** ASCII case folding: the part of `str.lower()` kept by this model. */
  function LowerChar(c: char): char
  {
    if 'A' <= c <= 'Z' then (c as int + 32) as char else c
  }

  function Lower(s: string): (r: string)
    ensures |r| == |s|
    ensures forall i :: 0 <= i < |s| ==> r[i] == LowerChar(s[i])
  {
    seq(|s|, i requires 0 <= i < |s| => LowerChar(s[i]))
  }

  /** `pat` occurs in `s` starting at offset `k`. */
  predicate OccursAt(pat: string, s: string, k: nat)
  {
    k + |pat| <= |s| && s[k..k + |pat|] == pat
  }

  /** Leftmost occurrence of `pat` in `s` at or after `from`. */
  function FindFrom(pat: string, s: string, from: nat): (r: Option<nat>)
    decreases |s| - from
    ensures r.Some? ==> from <= r.value && OccursAt(pat, s, r.value)
    ensures r.Some? ==> forall j: nat :: from <= j < r.value ==> !OccursAt(pat, s, j)
    ensures r.None? ==> forall j: nat :: from <= j ==> !OccursAt(pat, s, j)
  {
    if from + |pat| > |s| then None
    else if OccursAt(pat, s, from) then Some(from)
    else FindFrom(pat, s, from + 1)
  }

  /** The offset `re.search(pat, s).span()[0]` reports for a pattern without
      metacharacters: the leftmost match, or none. */
  function Find(pat: string, s: string): (r: Option<nat>)
    ensures r.Some? ==> OccursAt(pat, s, r.value)
    ensures r.Some? ==> forall j: nat :: j < r.value ==> !OccursAt(pat, s, j)
    ensures r.None? <==> forall j: nat :: !OccursAt(pat, s, j)
    ensures r.Some? && |s| > 0 ==> r.value < |s|
  {
    assert |pat| == 0 && |s| > 0 ==> OccursAt(pat, s, 0);
    FindFrom(pat, s, 0)
  }

  /** Python's `s[lo:hi]` for `0 <= lo <= hi`: both bounds are clamped to `|s|`. */
  function Slice(s: string, lo: nat, hi: nat): (r: string)
    requires lo <= hi
    ensures |r| <= hi - lo
    ensures lo <= |s| ==> |r| == (if hi <= |s| then hi else |s|) - lo
    ensures |s| < lo ==> r == []
    ensures forall i :: 0 <= i < |r| ==> r[i] == s[lo + i]
  {
    var a := if lo <= |s| then lo else |s|;
    var b := if hi <= |s| then hi else |s|;
    s[a..b]
  }

  /** The number of characters in all the words together. */
  function TotalLength(words: seq<string>): nat
  {
    if words == [] then 0 else |words[0]| + TotalLength(words[1..])
  }

  /** `' '.join(words)`: the words in order, one space between neighbours. */
  function JoinWords(words: seq<string>): (r: string)
    ensures |words| == 0 ==> r == ""
    ensures |words| > 0 ==> |r| == TotalLength(words) + |words| - 1
    ensures |words| > 0 ==> r[..|words[0]|] == words[0]
    ensures |words| > 1 ==> r[|words[0]|] == ' ' && r[|words[0]| + 1..] == JoinWords(words[1..])
  {
    if |words| == 0 then ""
    else if |words| == 1 then words[0]
    else words[0] + " " + JoinWords(words[1..])
  }

  /** POSIX `os.path.join(a, b)` for two parts. */
  function PathJoin(a: string, b: string): (r: string)
    ensures |b| > 0 && b[0] != '/' && |a| > 0 && a[|a| - 1] == '/' ==> r == a + b
  {
    if |b| > 0 && b[0] == '/' then b
    else if |a| == 0 || a[|a| - 1] == '/' then a + b
    else a + "/" + b
  }
}
