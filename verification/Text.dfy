/** Searching in strings, as std::string::find does. */
module Text {
  import opened Wrappers

  const CRLF: string := "\r\n"

  predicate MatchAt(s: string, pattern: string, i: nat) {
    i + |pattern| <= |s| && s[i..i + |pattern|] == pattern
  }

  predicate Contains(s: string, pattern: string) {
    exists i: nat :: i <= |s| && MatchAt(s, pattern, i)
  }

  /** The first occurrence at `from` or later. */
  function Find(s: string, pattern: string, from: nat): (r: Option<nat>)
    ensures r.Some? ==> from <= r.value && MatchAt(s, pattern, r.value)
    ensures forall i: nat :: from <= i && (r.Some? ==> i < r.value) ==> !MatchAt(s, pattern, i)
    decreases |s| - from
  {
    if from + |pattern| > |s| then None
    else if MatchAt(s, pattern, from) then Some(from)
    else Find(s, pattern, from + 1)
  }

  lemma FindIs(s: string, pattern: string, from: nat, i: nat)
    requires from <= i && MatchAt(s, pattern, i)
    requires forall j: nat :: from <= j < i ==> !MatchAt(s, pattern, j)
    ensures Find(s, pattern, from) == Some(i)
  {
    var r := Find(s, pattern, from);
    assert r.Some?;
  }

  lemma MatchShifted(a: string, b: string, pattern: string, i: nat)
    ensures MatchAt(a + b, pattern, |a| + i) <==> MatchAt(b, pattern, i)
    ensures i + |pattern| <= |a| ==> (MatchAt(a + b, pattern, i) <==> MatchAt(a, pattern, i))
  {
    if i + |pattern| <= |b| {
      assert (a + b)[|a| + i..|a| + i + |pattern|] == b[i..i + |pattern|];
    }
    if i + |pattern| <= |a| {
      assert (a + b)[i..i + |pattern|] == a[i..i + |pattern|];
    }
  }

  lemma MatchInTail(s: string, pattern: string, from: nat, i: nat)
    requires from <= i && from <= |s|
    ensures MatchAt(s, pattern, i) <==> MatchAt(s[from..], pattern, i - from)
  {
    assert s == s[..from] + s[from..];
    MatchShifted(s[..from], s[from..], pattern, i - from);
  }

  /** Searching a tail is searching from its start. */
  lemma FindInTail(s: string, pattern: string, from: nat)
    requires from <= |s|
    ensures var tail := Find(s[from..], pattern, 0);
            Find(s, pattern, from) == if tail.Some? then Some(from + tail.value) else None
  {
    var r := Find(s[from..], pattern, 0);
    forall j: nat | from <= j
      ensures MatchAt(s, pattern, j) <==> MatchAt(s[from..], pattern, j - from)
    {
      MatchInTail(s, pattern, from, j);
    }
    if r.Some? {
      FindIs(s, pattern, from, from + r.value);
    }
  }

  /** What is found in a prefix stays found when more is appended. */
  lemma FindInPrefix(a: string, b: string, pattern: string)
    ensures Find(a, pattern, 0).Some? ==> Find(a + b, pattern, 0) == Find(a, pattern, 0)
    ensures Find(a, pattern, 0).None? && Find(a + b, pattern, 0).Some? ==>
              Find(a + b, pattern, 0).value + |pattern| > |a|
  {
    var r := Find(a, pattern, 0);
    forall j: nat | j + |pattern| <= |a|
      ensures MatchAt(a + b, pattern, j) <==> MatchAt(a, pattern, j)
    {
      MatchShifted(a, b, pattern, j);
    }
    if r.Some? {
      FindIs(a + b, pattern, 0, r.value);
    }
  }

  lemma MatchInSlice(s: string, pattern: string, from: nat, to: nat, i: nat)
    requires from <= to <= |s| && MatchAt(s[from..to], pattern, i)
    ensures MatchAt(s, pattern, from + i)
  {
    var slice := s[from..to];
    assert forall k :: 0 <= k < |pattern| ==>
             pattern[k] == slice[i..i + |pattern|][k] == slice[i + k] == s[from + i + k];
  }

  lemma SliceContains(s: string, pattern: string, from: nat, to: nat)
    requires from <= to <= |s| && !Contains(s, pattern)
    ensures !Contains(s[from..to], pattern)
  {
    if i: nat :| i <= |s[from..to]| && MatchAt(s[from..to], pattern, i) {
      MatchInSlice(s, pattern, from, to, i);
    }
  }

  /** What comes before the first occurrence does not contain the pattern. */
  lemma BeforeFirst(s: string, pattern: string)
    requires pattern != [] && Find(s, pattern, 0).Some?
    ensures !Contains(s[..Find(s, pattern, 0).value], pattern)
  {
    var n := Find(s, pattern, 0).value;
    if i: nat :| i <= n && MatchAt(s[..n], pattern, i) {
      assert s[0..n] == s[..n];
      MatchInSlice(s, pattern, 0, n, i);
    }
  }

  lemma Regroup(a: string, b: string, c: string)
    ensures a + (b + c) == (a + b) + c
  {
  }
}
