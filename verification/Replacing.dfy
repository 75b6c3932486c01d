/** Replacing characters by strings, as std::string::replace in a loop does it. */
module Replacing {

  /** s with every c replaced by t. */
  function Expand(s: string, c: char, t: string): string {
    if s == [] then [] else (if s[0] == c then t else [s[0]]) + Expand(s[1..], c, t)
  }

  lemma {:induction false} ExpandConcat(a: string, b: string, c: char, t: string)
    ensures Expand(a + b, c, t) == Expand(a, c, t) + Expand(b, c, t)
    decreases |a|
  {
    if a == [] {
      assert a + b == b;
    } else {
      assert (a + b)[1..] == a[1..] + b;
      ExpandConcat(a[1..], b, c, t);
    }
  }

  lemma {:induction false} ExpandWithout(s: string, c: char, t: string)
    requires c !in s
    ensures Expand(s, c, t) == s
  {
    if s != [] { ExpandWithout(s[1..], c, t); }
  }

  /** find(c, from): the first position of c, or the length if there is none. */
  method Find(s: string, c: char, from: nat) returns (pos: nat)
    requires from <= |s|
    ensures from <= pos <= |s| && c !in s[from..pos] && (pos < |s| ==> s[pos] == c)
  {
    pos := from;
    while pos < |s| && s[pos] != c
      invariant from <= pos <= |s| && c !in s[from..pos]
    {
      assert s[from..pos + 1] == s[from..pos] + [s[pos]];
      pos := pos + 1;
    }
  }

  /** One more c replaced, p places further on. */
  lemma ExpandNext(s: string, done: nat, p: nat, c: char, t: string)
    requires done + p < |s| && c !in s[done..done + p] && s[done + p] == c
    ensures Expand(s[..done + p + 1], c, t) == Expand(s[..done], c, t) + s[done..done + p] + t
  {
    var mid := s[done..done + p];
    ExpandWithout(mid, c, t);
    assert s[..done + p + 1] == s[..done] + mid + [c];
    ExpandConcat(s[..done], mid, c, t);
    ExpandConcat(s[..done] + mid, [c], c, t);
    assert [c][1..] == [];
  }

  lemma ExpandLast(s: string, done: nat, c: char, t: string)
    requires done <= |s| && c !in s[done..]
    ensures Expand(s, c, t) == Expand(s[..done], c, t) + s[done..]
  {
    ExpandWithout(s[done..], c, t);
    ExpandConcat(s[..done], s[done..], c, t);
    assert s == s[..done] + s[done..];
  }

  lemma Splice(head: string, rest: string, p: nat, t: string)
    requires p < |rest|
    ensures var str := head + rest; var at := |head| + p;
            str[..at] + t + str[at + 1..] == (head + rest[..p] + t) + rest[p + 1..]
  {
  }

  /** The text is head, already dealt with, and the rest, in which the next c is p places on. */
  ghost predicate Going(str0: string, c: char, t: string, str: string, head: string, done: nat, startPos: nat) {
    && done <= |str0| && head == Expand(str0[..done], c, t) && str == head + str0[done..]
    && |head| <= startPos <= |str| && c !in str0[done..][..startPos - |head|]
    && (startPos < |str| ==> str[startPos] == c)
  }

  lemma Found(str0: string, c: char, t: string, str: string, head: string, done: nat, startPos: nat)
    requires done <= |str0| && head == Expand(str0[..done], c, t) && str == head + str0[done..]
    requires |head| <= startPos <= |str| && c !in str[|head|..startPos] && (startPos < |str| ==> str[startPos] == c)
    ensures Going(str0, c, t, str, head, done, startPos)
  {
    hide Expand;
    assert str[|head|..startPos] == str0[done..][..startPos - |head|];
  }

  lemma Replaced(str0: string, c: char, t: string, str: string, head: string, done: nat, startPos: nat) returns (head': string, done': nat)
    requires Going(str0, c, t, str, head, done, startPos) && startPos < |str|
    ensures done < done' <= |str0| && head' == Expand(str0[..done'], c, t) && |head'| == startPos + |t|
    ensures str[..startPos] + t + str[startPos + 1..] == head' + str0[done'..]
    ensures |str| - startPos == |str0| - done' + 1
  {
    hide Expand;
    var p := startPos - |head|;
    assert str0[done..done + p] == str0[done..][..p];
    assert str[startPos] == str0[done..][p];
    ExpandNext(str0, done, p, c, t);
    Splice(head, str0[done..], p, t);
    head', done' := head + str0[done..done + p] + t, done + p + 1;
    assert str0[done..][p + 1..] == str0[done'..];
  }

  /** The loop that replaces every c in place and moves past what it has put in. */
  method ReplaceEach(str0: string, c: char, t: string) returns (str: string)
    ensures str == Expand(str0, c, t)
  {
    hide Expand, Going;
    str := str0;
    ghost var done: nat, head: string := 0, [];
    assert Expand(str0[..0], c, t) == [] by { ExpandWithout([], c, t); }
    var startPos: nat := Find(str, c, 0);
    Found(str0, c, t, str, head, done, startPos);
    while startPos < |str|
      invariant Going(str0, c, t, str, head, done, startPos)
      decreases |str| - startPos
    {
      head, done := Replaced(str0, c, t, str, head, done, startPos);
      str := str[..startPos] + t + str[startPos + 1..];
      startPos := Find(str, c, startPos + |t|);
      Found(str0, c, t, str, head, done, startPos);
    }
    Ended(str0, c, t, str, head, done, startPos);
  }

  lemma Ended(str0: string, c: char, t: string, str: string, head: string, done: nat, startPos: nat)
    requires Going(str0, c, t, str, head, done, startPos) && startPos >= |str|
    ensures str == Expand(str0, c, t)
  {
    assert str0[done..][..startPos - |head|] == str0[done..];
    ExpandLast(str0, done, c, t);
  }
}
