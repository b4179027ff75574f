/**
 * The parts of Go's `strings` package that the core relies on, for a
 * single-character separator. Each function states the behaviour the Go
 * library documents, so that the core's own properties can be proved from it.
 */
module GoStrings {

  /** strings.HasPrefix */
  predicate HasPrefix(s: string, prefix: string) {
    |prefix| <= |s| && s[..|prefix|] == prefix
  }

  /** s ends with suffix */
  predicate HasSuffix(s: string, suffix: string) {
    |suffix| <= |s| && s[|s| - |suffix|..] == suffix
  }

  /** strings.TrimPrefix: removes one leading copy of `prefix`, if there is one. */
  function TrimPrefix(s: string, prefix: string): (r: string)
    ensures HasPrefix(s, prefix) ==> s == prefix + r
    ensures !HasPrefix(s, prefix) ==> r == s
  {
    if HasPrefix(s, prefix) then s[|prefix|..] else s
  }

  /** strings.Contains */
  predicate Contains(s: string, sub: string)
    decreases |s|
  {
    HasPrefix(s, sub) || (|s| > 0 && Contains(s[1..], sub))
  }

  /** strings.IndexByte: the first position of `c`, or -1. */
  function Index(s: string, c: char): (i: int)
    ensures -1 <= i < |s|
    ensures 0 <= i ==> s[i] == c
    ensures forall k :: 0 <= k < |s| && (i < 0 || k < i) ==> s[k] != c
  {
    if |s| == 0 then -1
    else if s[0] == c then 0
    else
      var j := Index(s[1..], c);
      if j < 0 then -1 else j + 1
  }

  /** strings.LastIndexByte: the last position of `c`, or -1. */
  function LastIndex(s: string, c: char): (i: int)
    ensures -1 <= i < |s|
    ensures 0 <= i ==> s[i] == c
    ensures forall k :: i < k < |s| ==> s[k] != c
  {
    if |s| == 0 then -1
    else if s[|s| - 1] == c then |s| - 1
    else LastIndex(s[..|s| - 1], c)
  }

  /** strings.SplitN(s, sep, 2): the text before the first `sep` and the rest, or [s]. */
  function SplitN2(s: string, sep: char): (parts: seq<string>)
    ensures |parts| == 1 <==> sep !in s
    ensures |parts| == 1 || |parts| == 2
    ensures |parts| == 1 ==> parts[0] == s
    ensures |parts| == 2 ==> sep !in parts[0] && parts[0] + [sep] + parts[1] == s
  {
    var i := Index(s, sep);
    if i < 0 then [s]
    else
      assert s == s[..i] + [sep] + s[i + 1..];
      [s[..i], s[i + 1..]]
  }

  /**
   * strings.Split: the pieces of s between the separators, in order. Written
   * from the last separator back, which gives the same pieces as Go's scan
   * from the front (JoinSplit and SplitPieceFree pin them down).
   */
  function Split(s: string, sep: char): (parts: seq<string>)
    ensures |parts| >= 1
    decreases |s|
  {
    var j := LastIndex(s, sep);
    if j < 0 then [s] else Split(s[..j], sep) + [s[j + 1..]]
  }

  /** No piece of a split contains the separator. */
  lemma {:induction false} SplitPieceFree(s: string, sep: char, k: nat)
    requires k < |Split(s, sep)|
    ensures sep !in Split(s, sep)[k]
    decreases |s|
  {
    var j := LastIndex(s, sep);
    var parts := Split(s, sep);
    if j < 0 {
      assert parts == [s];
    } else if k == |parts| - 1 {
      var last := s[j + 1..];
      assert parts[k] == last;
      assert forall m :: 0 <= m < |last| ==> last[m] == s[j + 1 + m];
    } else {
      assert parts == Split(s[..j], sep) + [s[j + 1..]];
      SplitPieceFree(s[..j], sep, k);
    }
  }

  /** strings.Join with a single-character separator. */
  function Join(parts: seq<string>, sep: char): string
  {
    if |parts| == 0 then ""
    else if |parts| == 1 then parts[0]
    else Join(parts[..|parts| - 1], sep) + [sep] + parts[|parts| - 1]
  }

  /** Split peels off the text after the last separator. */
  lemma SplitAtLast(s: string, sep: char)
    requires 0 <= LastIndex(s, sep)
    ensures var j := LastIndex(s, sep);
            s == s[..j] + [sep] + s[j + 1..] && Split(s, sep) == Split(s[..j], sep) + [s[j + 1..]]
  {
    var j := LastIndex(s, sep);
    assert s[..j] + [s[j]] + s[j + 1..] == s;
  }

  /** Join adds one separator per extra piece. */
  lemma JoinSnoc(init: seq<string>, last: string, sep: char)
    requires |init| >= 1
    ensures Join(init + [last], sep) == Join(init, sep) + [sep] + last
  {
    assert (init + [last])[..|init|] == init;
  }

  /** Joining the pieces of a split gives back the original string. */
  lemma {:induction false} JoinSplit(s: string, sep: char)
    ensures Join(Split(s, sep), sep) == s
    decreases |s|
  {
    var j := LastIndex(s, sep);
    if j >= 0 {
      var front, last := s[..j], s[j + 1..];
      SplitAtLast(s, sep);
      JoinSplit(front, sep);
      JoinSnoc(Split(front, sep), last, sep);
    }
  }
}
