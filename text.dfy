/** The few operations on Python `str` the tapper relies on: `find`, `in`,
    `split` with a non-empty separator, `join` and the clamping slice `s[k:]`. */
module Text {
  import opened Optional

  /** `sub` occurs in `s` starting at index `i`. */
  predicate OccursAt(s: string, sub: string, i: int) {
    0 <= i && i + |sub| <= |s| && s[i..i + |sub|] == sub
  }

  /** The first index at or after `from` where `sub` occurs, as `s.find(sub, from)`
      (with -1 written as `None`). */
  function FindFrom(s: string, sub: string, from: nat): (r: Option<nat>)
    decreases |s| - from
    ensures r.Some? ==> from <= r.value && OccursAt(s, sub, r.value)
  {
    if from + |sub| > |s| then None
    else if s[from..from + |sub|] == sub then Some(from)
    else FindFrom(s, sub, from + 1)
  }

  /** `FindFrom` finds the first occurrence at or after `from`, and misses only
      when there is none. */
  lemma {:induction false} FindFromFirst(s: string, sub: string, from: nat)
    ensures FindFrom(s, sub, from).Some? ==>
      forall j :: from <= j < FindFrom(s, sub, from).value ==> !OccursAt(s, sub, j)
    ensures FindFrom(s, sub, from).None? ==> forall j :: from <= j ==> !OccursAt(s, sub, j)
    decreases |s| - from
  {
    if from + |sub| <= |s| && s[from..from + |sub|] != sub {
      FindFromFirst(s, sub, from + 1);
    }
  }

  /** The first occurrence of `sub` in `s`, as `s.find(sub)`. */
  function Find(s: string, sub: string): (r: Option<nat>)
    ensures r.Some? ==> OccursAt(s, sub, r.value)
  {
    FindFrom(s, sub, 0)
  }

  /** `Find` returns the first occurrence, and `None` only when there is none. */
  lemma FindFirst(s: string, sub: string)
    ensures Find(s, sub).Some? ==> forall j :: 0 <= j < Find(s, sub).value ==> !OccursAt(s, sub, j)
    ensures Find(s, sub).None? ==> forall j :: !OccursAt(s, sub, j)
  {
    FindFromFirst(s, sub, 0);
  }

  /** Python's `sub in s`. */
  predicate Contains(s: string, sub: string) {
    Find(s, sub).Some?
  }

  /** Python's `s.split(sep)`: the pieces between the non-overlapping occurrences
      of `sep`, scanned from the left. */
  function Split(s: string, sep: string): (parts: seq<string>)
    requires |sep| > 0
    decreases |s|
    ensures |parts| >= 1
  {
    match Find(s, sep)
    case None => [s]
    case Some(i) => [s[..i]] + Split(s[i + |sep|..], sep)
  }

  /** Python's `sep.join(parts)`. */
  function Join(parts: seq<string>, sep: string): string
    decreases |parts|
  {
    if |parts| == 0 then ""
    else if |parts| == 1 then parts[0]
    else parts[0] + sep + Join(parts[1..], sep)
  }

  /** Python's `s[k:]`, which is empty rather than an error when `k` is past the end. */
  function SliceFrom(s: string, k: nat): (r: string)
    ensures k <= |s| ==> r == s[k..]
    ensures k > |s| ==> r == ""
  {
    if k <= |s| then s[k..] else ""
  }

  /** The first index of `c` in `s`: `s.find(c)` for a one-character string. */
  function IndexOf(s: string, c: char): (r: Option<nat>)
    ensures r.Some? ==> r.value < |s| && s[r.value] == c && c !in s[..r.value]
    ensures r.None? ==> c !in s
    decreases |s|
  {
    if |s| == 0 then None
    else if s[0] == c then Some(0)
    else match IndexOf(s[1..], c)
      case None => None
      case Some(i) =>
        assert s[..i + 1] == [s[0]] + s[1..][..i];
        Some(i + 1)
  }

  /** An index holding `c` with no `c` before it is the one `IndexOf` finds. */
  lemma IndexOfAt(s: string, c: char, i: nat)
    requires i < |s| && s[i] == c && c !in s[..i]
    ensures IndexOf(s, c) == Some(i)
  {
  }

  /** For a one-character string, the general search is `IndexOf`. */
  lemma FindChar(s: string, c: char)
    ensures Find(s, [c]) == IndexOf(s, c)
  {
    FindFirst(s, [c]);
    var found := Find(s, [c]);
    if found.Some? {
      var v := found.value;
      assert s[v] == s[v..v + 1][0] == c;
      forall j | 0 <= j < v
        ensures s[j] != c
      {
        if s[j] == c {
          assert s[j..j + 1] == [c];
          assert OccursAt(s, [c], j);
        }
      }
      IndexOfAt(s, c, v);
    } else {
      forall j | 0 <= j < |s|
        ensures s[j] != c
      {
        assert !OccursAt(s, [c], j);
        assert s[j..j + 1] == [s[j]];
      }
    }
  }

  /** For a one-character separator, Python's `in` is plain membership. */
  lemma ContainsChar(s: string, c: char)
    ensures Contains(s, [c]) <==> c in s
  {
    FindChar(s, c);
  }

  /** `s.split(c)` for a one-character separator. */
  function SplitOn(s: string, c: char): (parts: seq<string>)
    ensures |parts| >= 1
    decreases |s|
  {
    match IndexOf(s, c)
    case None => [s]
    case Some(i) => [s[..i]] + SplitOn(s[i + 1..], c)
  }

  /** `SplitOn` is Python's `split` with that character as the separator. */
  lemma {:induction false} SplitOnIsSplit(s: string, c: char)
    ensures SplitOn(s, c) == Split(s, [c])
    decreases |s|
  {
    FindChar(s, c);
    match IndexOf(s, c)
    case None =>
    case Some(i) =>
      var rest := s[i + 1..];
      assert SplitOn(s, c) == [s[..i]] + SplitOn(rest, c);
      assert Split(s, [c]) == [s[..i]] + Split(rest, [c]);
      SplitOnIsSplit(rest, c);
  }

  /** The first piece is the longest prefix free of `c`: all of `s` when `c`
      does not occur, otherwise the text before the first `c`. */
  lemma SplitOnHead(s: string, c: char)
    ensures var head := SplitOn(s, c)[0];
      && head <= s
      && c !in head
      && (head == s <==> c !in s)
      && (head != s ==> s[|head|] == c)
  {
  }

  /** No piece of a split contains the separator. */
  lemma {:induction false} SplitOnAvoids(s: string, c: char)
    ensures forall k :: 0 <= k < |SplitOn(s, c)| ==> c !in SplitOn(s, c)[k]
    decreases |s|
  {
    match IndexOf(s, c)
    case None =>
    case Some(i) =>
      SplitOnAvoids(s[i + 1..], c);
      assert SplitOn(s, c) == [s[..i]] + SplitOn(s[i + 1..], c);
  }

  /** Joining a piece in front of a non-empty list adds the piece and a separator. */
  lemma JoinCons(head: string, tail: seq<string>, sep: string)
    requires |tail| >= 1
    ensures Join([head] + tail, sep) == head + sep + Join(tail, sep)
  {
    assert ([head] + tail)[1..] == tail;
  }

  /** When no piece contains the separator, splitting undoes joining. */
  lemma {:induction false} SplitOnJoin(parts: seq<string>, c: char)
    requires |parts| >= 1
    requires forall k :: 0 <= k < |parts| ==> c !in parts[k]
    ensures SplitOn(Join(parts, [c]), c) == parts
    decreases |parts|
  {
    if |parts| > 1 {
      var head := parts[0];
      var tail := Join(parts[1..], [c]);
      var s := Join(parts, [c]);
      assert s == head + [c] + tail;
      assert s[..|head|] == head;
      IndexOfAt(s, c, |head|);
      assert s[|head| + 1..] == tail;
      SplitOnJoin(parts[1..], c);
      assert parts == [head] + parts[1..];
    }
  }

  /** When the separator occurs there is a second piece: the text after the
      first separator, up to the next one or to the end. */
  lemma SplitOnSecond(s: string, c: char)
    requires c in s
    ensures |SplitOn(s, c)| >= 2
    ensures var i := IndexOf(s, c).value;
      var second := SplitOn(s, c)[1];
      && second <= s[i + 1..]
      && (second != s[i + 1..] ==> s[i + 1 + |second|] == c)
  {
    var i := IndexOf(s, c).value;
    SplitOnHead(s[i + 1..], c);
  }

  /** An occurrence with none before it is the one `Find` returns. */
  lemma FindAt(s: string, sub: string, i: nat)
    requires OccursAt(s, sub, i)
    requires forall k :: 0 <= k < i ==> !OccursAt(s, sub, k)
    ensures Find(s, sub) == Some(i)
  {
    FindFirst(s, sub);
  }

  /** An occurrence inside a prefix is an occurrence in the whole string. */
  lemma ContainsPrefix(a: string, b: string, sub: string)
    requires a <= b
    ensures Contains(a, sub) ==> Contains(b, sub)
  {
    if Contains(a, sub) {
      var k := Find(a, sub).value;
      assert b[k..k + |sub|] == a[k..k + |sub|];
      FindFirst(b, sub);
      assert OccursAt(b, sub, k);
    }
  }

  /** The first piece of a split is the longest prefix holding no whole
      separator: all of `s`, or the text up to the first separator. */
  lemma {:induction false} SplitHeadFirst(s: string, sep: string)
    requires |sep| > 0
    ensures var head := Split(s, sep)[0];
      && head <= s
      && !Contains(head, sep)
      && (head == s || OccursAt(s, sep, |head|))
  {
    var found := Find(s, sep);
    if found.Some? {
      var i := found.value;
      var head := s[..i];
      FindFirst(s, sep);
      assert Split(s, sep)[0] == head;
      if Contains(head, sep) {
        var j := Find(head, sep).value;
        assert head[j..j + |sep|] == s[j..j + |sep|];
        assert OccursAt(s, sep, j);
        assert false;
      }
    }
  }

  /** Joining one more piece appends the separator and that piece. */
  lemma {:induction false} JoinSnoc(parts: seq<string>, x: string, sep: string)
    requires |parts| >= 1
    ensures Join(parts + [x], sep) == Join(parts, sep) + sep + x
    decreases |parts|
  {
    if |parts| > 1 {
      JoinSnoc(parts[1..], x, sep);
      assert (parts + [x])[1..] == parts[1..] + [x];
    }
  }
}
