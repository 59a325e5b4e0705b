/** Facts about sequences, apart from everything they are used for. */
module Sequences {

  lemma Assoc<T>(a: seq<T>, b: seq<T>, c: seq<T>)
    ensures (a + b) + c == a + (b + c)
  {
  }

  lemma Appended<T>(s: seq<T>, x: T)
    ensures (s + [x])[|s|] == x && (s + [x])[..|s|] == s
    ensures s != [] ==> (s + [x])[0] == s[0] && (s + [x])[1..] == s[1..] + [x]
  {
  }

  lemma FullPrefix<T>(s: seq<T>)
    ensures s[..|s|] == s && s[|s|..] == [] && [] + s == s
  {
  }

  /** The middle of a sequence of two elements or more, cut from either end first. */
  lemma Inner<T>(s: seq<T>)
    requires |s| > 1
    ensures s[..|s| - 1][1..] == s[1..][..|s| - 2] && s[1..][|s| - 2] == s[|s| - 1] && s[..|s| - 1][0] == s[0]
  {
  }

  function Joined<T>(pieces: seq<seq<T>>): seq<T> {
    if pieces == [] then [] else Joined(pieces[..|pieces| - 1]) + pieces[|pieces| - 1]
  }

  lemma {:induction false} JoinedFront<T>(pieces: seq<seq<T>>)
    requires pieces != []
    ensures Joined(pieces) == pieces[0] + Joined(pieces[1..])
  {
    var n := |pieces| - 1;
    if n == 0 {
      assert pieces[1..] == [] && pieces == [pieces[0]];
    } else {
      JoinedFront(pieces[..n]);
      Inner(pieces);
      Assoc(pieces[0], Joined(pieces[1..][..n - 1]), pieces[n]);
    }
  }

  /** Pieces of `size`, the last what is left. */
  function Cut<T>(s: seq<T>, size: nat): seq<seq<T>>
    requires size > 0
    decreases |s|
  {
    if s == [] then [] else if |s| <= size then [s] else [s[..size]] + Cut(s[size..], size)
  }
}
