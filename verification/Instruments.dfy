/** The supported instruments: obs-bench/internal/enum/enum.go. */
module Instruments {
  import opened Collections

  const PROMETHEUS := "prometheus"
  const VICTORIA_METRICS := "victoria_metrics"
  const LOKI := "loki"
  const OPEN_SEARCH := "opensearch"

  const ALL_INSTRUMENTS: seq<string> := [PROMETHEUS, VICTORIA_METRICS, LOKI, OPEN_SEARCH]

  predicate IsLogBackend(i: string) {
    i == LOKI || i == OPEN_SEARCH
  }

  /** The white space removed by Go's strings.TrimSpace. */
  predicate IsSpace(c: char): (space: bool)
    ensures space <==>
      c as int in {9, 10, 11, 12, 13, 32, 133, 160, 5760, 8232, 8233, 8239, 8287, 12288} || 8192 <= c as int <= 8202
  {
    || c in "\t\n\r "
    || c in ['\U{0B}', '\U{0C}', '\U{85}', '\U{A0}', '\U{1680}']
    || c in ['\U{2028}', '\U{2029}', '\U{202F}', '\U{205F}', '\U{3000}']
    || '\U{2000}' <= c <= '\U{200A}'
  }

  ghost predicate AllSpace(s: string) {
    forall c :: c in s ==> IsSpace(c)
  }

  function TrimLeft(s: string): string {
    if |s| > 0 && IsSpace(s[0]) then TrimLeft(s[1..]) else s
  }

  function TrimRight(s: string): string {
    if |s| > 0 && IsSpace(s[|s| - 1]) then TrimRight(s[..|s| - 1]) else s
  }

  function TrimSpace(s: string): string {
    TrimRight(TrimLeft(s))
  }

  /** Neither end is white space. */
  ghost predicate Trimmed(t: string) {
    |t| > 0 ==> !IsSpace(t[0]) && !IsSpace(t[|t| - 1])
  }

  lemma {:induction false} TrimLeftPadded(pre: string, t: string)
    requires AllSpace(pre) && (|t| > 0 ==> !IsSpace(t[0]))
    ensures TrimLeft(pre + t) == t
  {
    if |pre| == 0 {
      assert pre + t == t;
    } else {
      assert (pre + t)[1..] == pre[1..] + t;
      TrimLeftPadded(pre[1..], t);
    }
  }

  lemma {:induction false} TrimRightPadded(t: string, post: string)
    requires AllSpace(post) && (|t| > 0 ==> !IsSpace(t[|t| - 1]))
    ensures TrimRight(t + post) == t
    decreases |post|
  {
    if |post| == 0 {
      assert t + post == t;
    } else {
      assert (t + post)[..|t + post| - 1] == t + post[..|post| - 1];
      TrimRightPadded(t, post[..|post| - 1]);
    }
  }

  /** White space around a nonempty trimmed string is all that trimming removes. */
  lemma TrimSpacePadded(pre: string, t: string, post: string)
    requires AllSpace(pre) && AllSpace(post) && Trimmed(t) && |t| > 0
    ensures TrimSpace(pre + t + post) == t
  {
    assert pre + t + post == pre + (t + post);
    TrimLeftPadded(pre, t + post);
    TrimRightPadded(t, post);
  }

  lemma {:induction false} TrimLeftSplit(s: string) returns (pre: string)
    ensures AllSpace(pre) && s == pre + TrimLeft(s)
  {
    if |s| > 0 && IsSpace(s[0]) {
      var rest := TrimLeftSplit(s[1..]);
      pre := [s[0]] + rest;
      assert s == [s[0]] + s[1..];
    } else {
      pre := "";
    }
  }

  lemma {:induction false} TrimRightSplit(s: string) returns (post: string)
    ensures AllSpace(post) && s == TrimRight(s) + post
    decreases |s|
  {
    if |s| > 0 && IsSpace(s[|s| - 1]) {
      var rest := TrimRightSplit(s[..|s| - 1]);
      post := rest + [s[|s| - 1]];
      assert s == s[..|s| - 1] + [s[|s| - 1]];
    } else {
      post := "";
    }
  }

  ghost predicate Names(s: string, i: string) {
    exists pre, post :: AllSpace(pre) && AllSpace(post) && s == pre + i + post
  }

  /** Trimming yields a nonempty trimmed name exactly when the input is that name inside white space. */
  lemma TrimNames(s: string, i: string)
    requires Trimmed(i) && |i| > 0
    ensures TrimSpace(s) == i <==> Names(s, i)
  {
    hide TrimLeft, TrimRight, AllSpace, Trimmed;
    if TrimSpace(s) == i {
      var pre := TrimLeftSplit(s);
      var post := TrimRightSplit(TrimLeft(s));
      assert s == pre + i + post;
    }
    if pre, post :| AllSpace(pre) && AllSpace(post) && s == pre + i + post {
      TrimSpacePadded(pre, i, post);
    }
  }

  lemma InstrumentsTrimmed(k: nat)
    requires k < |ALL_INSTRUMENTS|
    ensures Trimmed(ALL_INSTRUMENTS[k]) && |ALL_INSTRUMENTS[k]| > 0
  {
  }

  function Parsed(s: string): Option<string> {
    if TrimSpace(s) in ALL_INSTRUMENTS then Some(TrimSpace(s)) else None
  }

  /** Accepts exactly the names of instruments, white space around them included. */
  method ParseInstrument(s: string) returns (r: Option<string>)
    ensures r == Parsed(s)
    ensures r.Some? ==> r.value in ["prometheus", "victoria_metrics", "loki", "opensearch"] && Names(s, r.value)
    ensures r.None? ==> forall i :: i in ["prometheus", "victoria_metrics", "loki", "opensearch"] ==> !Names(s, i)
  {
    hide IsSpace, TrimSpace, Names, Trimmed;
    var t := TrimSpace(s);
    for k := 0 to |ALL_INSTRUMENTS|
      invariant forall j :: 0 <= j < k ==> t != ALL_INSTRUMENTS[j] && !Names(s, ALL_INSTRUMENTS[j])
    {
      InstrumentsTrimmed(k);
      TrimNames(s, ALL_INSTRUMENTS[k]);
      if ALL_INSTRUMENTS[k] == t {
        return Some(ALL_INSTRUMENTS[k]);
      }
    }
    r := None;
  }
}
