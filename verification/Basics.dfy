/** Vocabulary shared by every other module: optional values and filtered sequences. */
module Basics {

  datatype Option<+T> = None | Some(value: T)

  function Min(a: int, b: int): int {
    if a < b then a else b
  }

  function Max(a: int, b: int): int {
    if a < b then b else a
  }

  /** The elements of s that satisfy p, in order. */
  function Keep<T>(p: T -> bool, s: seq<T>): seq<T> {
    if |s| == 0 then []
    else Keep(p, s[..|s| - 1]) + (if p(s[|s| - 1]) then [s[|s| - 1]] else [])
  }

  lemma KeepPush<T>(p: T -> bool, s: seq<T>, x: T)
    ensures Keep(p, s + [x]) == Keep(p, s) + if p(x) then [x] else []
  {
    assert (s + [x])[..|s + [x]| - 1] == s;
  }

  lemma {:induction false} KeepConcat<T>(p: T -> bool, a: seq<T>, b: seq<T>)
    ensures Keep(p, a + b) == Keep(p, a) + Keep(p, b)
  {
    if |b| == 0 {
      assert a + b == a;
    } else {
      assert (a + b)[..|a + b| - 1] == a + b[..|b| - 1];
      KeepConcat(p, a, b[..|b| - 1]);
    }
  }

  lemma {:induction false} KeepMembers<T>(p: T -> bool, s: seq<T>)
    ensures forall x :: x in Keep(p, s) <==> x in s && p(x)
  {
    if |s| > 0 {
      KeepMembers(p, s[..|s| - 1]);
      assert s == s[..|s| - 1] + [s[|s| - 1]];
    }
  }

  lemma {:induction false} KeepAll<T>(p: T -> bool, s: seq<T>)
    requires forall i :: 0 <= i < |s| ==> p(s[i])
    ensures Keep(p, s) == s
  {
    if |s| > 0 {
      KeepAll(p, s[..|s| - 1]);
      assert s == s[..|s| - 1] + [s[|s| - 1]];
    }
  }

  lemma {:induction false} KeepNone<T>(p: T -> bool, s: seq<T>)
    requires forall i :: 0 <= i < |s| ==> !p(s[i])
    ensures Keep(p, s) == []
  {
    if |s| > 0 {
      KeepNone(p, s[..|s| - 1]);
    }
  }

  /** Nothing is dropped when every element satisfies p, and everything when none does. */
  lemma KeepUniform<T>(p: T -> bool, s: seq<T>)
    ensures (forall i :: 0 <= i < |s| ==> p(s[i])) ==> Keep(p, s) == s
    ensures (forall i :: 0 <= i < |s| ==> !p(s[i])) ==> Keep(p, s) == []
  {
    if forall i :: 0 <= i < |s| ==> p(s[i]) {
      KeepAll(p, s);
    }
    if forall i :: 0 <= i < |s| ==> !p(s[i]) {
      KeepNone(p, s);
    }
  }
}
