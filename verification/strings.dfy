/** `String.prototype.split` and `Array.prototype.join` with a one-character separator. */
module Strings {

  /** Position of the first occurrence of `c` in `s`. */
  function IndexOf(s: string, c: char): (i: nat)
    requires c in s
    ensures i < |s| && s[i] == c
    ensures c !in s[..i]
  {
    if s[0] == c then 0
    else
      assert s == [s[0]] + s[1..];
      var j := IndexOf(s[1..], c);
      assert s[..j + 1] == [s[0]] + s[1..][..j];
      j + 1
  }

  /** `s.split(c)`: the maximal pieces between separators; never empty, `"".split(c)` is `[""]`. */
  function Split(s: string, c: char): (parts: seq<string>)
    ensures |parts| >= 1
    ensures forall k :: 0 <= k < |parts| ==> c !in parts[k]
    decreases |s|
  {
    if c !in s then [s]
    else
      var i := IndexOf(s, c);
      [s[..i]] + Split(s[i + 1..], c)
  }

  /** `parts.join(c)`: the pieces with one separator between neighbours; `[].join(c)` is `""`. */
  function Join(parts: seq<string>, c: char): (s: string)
    ensures |parts| == 0 ==> s == ""
    ensures |parts| >= 1 ==> parts[0] <= s
  {
    if |parts| == 0 then ""
    else if |parts| == 1 then parts[0]
    else parts[0] + [c] + Join(parts[1..], c)
  }

  /** Joining and splitting again gives back the pieces, as long as no piece holds the separator. */
  lemma {:induction false} SplitJoin(parts: seq<string>, c: char)
    requires |parts| >= 1
    requires forall k :: 0 <= k < |parts| ==> c !in parts[k]
    ensures Split(Join(parts, c), c) == parts
    decreases |parts|
  {
    if |parts| > 1 {
      var s := Join(parts, c);
      var p0 := parts[0];
      assert s == p0 + [c] + Join(parts[1..], c);
      assert s[|p0|] == c;
      assert IndexOf(s, c) == |p0|;
      assert s[..|p0|] == p0;
      assert s[|p0| + 1..] == Join(parts[1..], c);
      SplitJoin(parts[1..], c);
      assert parts == [p0] + parts[1..];
    }
  }

  /** Splitting and joining again gives back the string. */
  lemma {:induction false} JoinSplit(s: string, c: char)
    ensures Join(Split(s, c), c) == s
    decreases |s|
  {
    if c in s {
      var i := IndexOf(s, c);
      var head, tail := s[..i], s[i + 1..];
      var rest := Split(tail, c);
      assert Split(s, c) == [head] + rest;
      JoinSplit(tail, c);
      JoinCons(head, rest, c);
      assert s == head + [c] + tail;
    }
  }

  /** Joining one more piece in front adds it and one separator. */
  lemma JoinCons(head: string, rest: seq<string>, c: char)
    requires |rest| >= 1
    ensures Join([head] + rest, c) == head + [c] + Join(rest, c)
  {
    assert ([head] + rest)[1..] == rest;
  }

  /** Joining the first `k` pieces gives a prefix of joining all of them. */
  lemma {:induction false} JoinTakeIsPrefix(parts: seq<string>, k: nat, c: char)
    requires k <= |parts|
    ensures Join(parts[..k], c) <= Join(parts, c)
    decreases k
  {
    if k == 0 {
      assert parts[..0] == [];
    } else if k == 1 {
      assert parts[..1] == [parts[0]];
      if |parts| > 1 {
        assert Join(parts, c) == parts[0] + ([c] + Join(parts[1..], c));
      }
    } else {
      var tail := parts[1..];
      assert parts[..k][1..] == tail[..k - 1];
      JoinTakeIsPrefix(tail, k - 1, c);
      assert Join(parts[..k], c) == parts[0] + [c] + Join(tail[..k - 1], c);
      assert Join(parts, c) == parts[0] + [c] + Join(tail, c);
    }
  }
}
