/** Generic facts about sequence concatenation and slicing, stated once so
    that the trace and bus proofs can cite them instead of re-deriving them
    among many other facts. */
module Sequences {

  lemma AppendAssoc<T>(a: seq<T>, b: seq<T>, c: seq<T>)
    ensures (a + b) + c == a + (b + c)
  {
  }

  lemma AppendFour<T>(t: seq<T>, b: seq<T>, c: seq<T>, d: seq<T>, e: seq<T>)
    ensures (((t + b) + c) + d) + e == t + (((b + c) + d) + e)
  {
    AppendAssoc(t, b, c);
    AppendAssoc(t, b + c, d);
    AppendAssoc(t, b + c + d, e);
  }

  lemma AppendFrame<T>(t: seq<T>, a: seq<T>, m: seq<T>, f: seq<T>)
    ensures ((t + a) + m) + f == t + ((a + m) + f)
  {
    AppendAssoc(t, a, m);
    AppendAssoc(t, a + m, f);
  }

  lemma SplitJoin<T>(s: seq<T>, k: nat)
    requires k <= |s|
    ensures s[..k] + s[k..] == s
  {
  }

  lemma HeadTail<T>(s: seq<T>)
    requires s != []
    ensures s == [s[0]] + s[1..]
  {
  }

  lemma DropPrefix<T>(a: seq<T>, b: seq<T>)
    ensures (a + b)[|a|..] == b
  {
  }

  lemma EmptyAppend<T>(s: seq<T>)
    ensures s + [] == s && [] + s == s
  {
  }
}
