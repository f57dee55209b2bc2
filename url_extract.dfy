/**
 * `extract_urls`: the candidate URLs of a message. A regular expression finds
 * every `http://` or `https://` run, trailing punctuation is stripped, runs of
 * ten characters or fewer are dropped and duplicates are removed.
 */
module UrlExtract {
  import opened Strings

  /** The characters that `rstrip('.,;:!?)')` removes. */
  const TrailingPunct: set<char> := {'.', ',', ';', ':', '!', '?', ')'}

  /** One character of the class `[^\s<>"{}|\\^`\[\]]`. */
  predicate UrlChar(c: char) {
    !IsSpace(c) && c !in {'<', '>', '"', '{', '}', '|', '\\', '^', '`', '[', ']'}
  }

  /** How many characters `https?://` matches at the start of `s` (0: no match). */
  function SchemeLength(s: string): nat {
    if StartsWith(s, "https://") then 8 else if StartsWith(s, "http://") then 7 else 0
  }

  /** The length of the longest run of URL characters at the start of `s`. */
  function UrlRun(s: string): (n: nat)
    ensures n <= |s|
    ensures forall i :: 0 <= i < n ==> UrlChar(s[i])
    ensures n == |s| || !UrlChar(s[n])
    decreases |s|
  {
    if |s| > 0 && UrlChar(s[0]) then 1 + UrlRun(s[1..]) else 0
  }

  lemma ContainsShift(text: string, n: nat, u: string)
    requires n <= |text|
    requires Contains(text[n..], u)
    ensures Contains(text, u)
  {
    var i :| 0 <= i <= |text[n..]| && u <= text[n..][i..];
    assert text[n..][i..] == text[n + i..];
  }

  lemma ContainsPrefix(text: string, u: string, v: string)
    requires Contains(text, u) && v <= u
    ensures Contains(text, v)
  {
    var i :| 0 <= i <= |text| && u <= text[i..];
  }

  /** What one match of the pattern looks like: a scheme, then one or more URL characters. */
  predicate IsMatch(m: string) {
    && SchemeLength(m) > 0
    && |m| > SchemeLength(m)
    && forall i :: SchemeLength(m) <= i < |m| ==> UrlChar(m[i])
  }

  lemma MatchAtStart(text: string, p: nat)
    requires p == SchemeLength(text) && 0 < p < |text| && UrlChar(text[p])
    ensures var n := p + UrlRun(text[p..]); n <= |text| && IsMatch(text[..n]) && Contains(text, text[..n])
  {
    var n := p + UrlRun(text[p..]);
    assert SchemeLength(text[..n]) == p;
    assert text[..n] <= text[0..];
  }

  /**
   * `re.findall(r'https?://[^\s<>"{}|\\^`\[\]]+', text)`: leftmost, greedy,
   * non-overlapping matches in order of appearance.
   */
  function Matches(text: string): (r: seq<string>)
    ensures forall k :: 0 <= k < |r| ==> IsMatch(r[k]) && Contains(text, r[k])
    decreases |text|
  {
    if |text| == 0 then []
    else
      var p := SchemeLength(text);
      if 0 < p < |text| && UrlChar(text[p]) then
        var n := p + UrlRun(text[p..]);
        var rest := Matches(text[n..]);
        MatchAtStart(text, p);
        forall k | 0 <= k < |rest| ensures Contains(text, rest[k]) {
          ContainsShift(text, n, rest[k]);
        }
        [text[..n]] + rest
      else
        var rest := Matches(text[1..]);
        forall k | 0 <= k < |rest| ensures Contains(text, rest[k]) {
          ContainsShift(text, 1, rest[k]);
        }
        rest
  }

  /** The loop body of `extract_urls`: strip each match, keep it when longer than 10. */
  function Kept(ms: seq<string>): (r: seq<string>)
    ensures forall u :: u in r <==> exists m :: m in ms && u == RStrip(m, TrailingPunct) && |u| > 10
    decreases |ms|
  {
    if ms == [] then []
    else
      var u := RStrip(ms[0], TrailingPunct);
      var rest := Kept(ms[1..]);
      assert forall m :: m in ms <==> m == ms[0] || m in ms[1..];
      if |u| > 10 then [u] + rest else rest
  }

  /** `list(set(s))`, keeping the first occurrence of each element. */
  function Dedup(s: seq<string>): (r: seq<string>)
    ensures forall u :: u in r <==> u in s
    ensures forall i, j :: 0 <= i < j < |r| ==> r[i] != r[j]
    decreases |s|
  {
    if s == [] then []
    else
      var rest := Dedup(s[..|s| - 1]);
      assert forall u :: u in s <==> u in s[..|s| - 1] || u == s[|s| - 1];
      if s[|s| - 1] in rest then rest else rest + [s[|s| - 1]]
  }

  /** What every URL `extract_urls` returns satisfies. */
  predicate Extracted(u: string) {
    && (StartsWith(u, "http://") || StartsWith(u, "https://"))
    && |u| > 10
    && u[|u| - 1] !in TrailingPunct
  }

  lemma StrippedMatch(text: string, m: string)
    requires IsMatch(m) && Contains(text, m)
    requires |RStrip(m, TrailingPunct)| > 10
    ensures Extracted(RStrip(m, TrailingPunct)) && Contains(text, RStrip(m, TrailingPunct))
  {
    var u := RStrip(m, TrailingPunct);
    ContainsPrefix(text, m, u);
    var p := SchemeLength(m);
    assert m[..p] == u[..p];
  }

  /** `extract_urls(text)` */
  function ExtractUrls(text: string): (r: seq<string>)
    ensures forall k :: 0 <= k < |r| ==> Extracted(r[k]) && Contains(text, r[k])
    ensures forall i, j :: 0 <= i < j < |r| ==> r[i] != r[j]
    ensures forall u :: u in r <==> exists m :: m in Matches(text) && u == RStrip(m, TrailingPunct) && |u| > 10
  {
    var ms := Matches(text);
    var r := Dedup(Kept(ms));
    forall k | 0 <= k < |r| ensures Extracted(r[k]) && Contains(text, r[k]) {
      var m :| m in ms && r[k] == RStrip(m, TrailingPunct) && |r[k]| > 10;
      StrippedMatch(text, m);
    }
    r
  }
}
