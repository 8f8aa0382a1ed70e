/** Chains of nodes through next links that live outside the nodes. */
module Chains {
  import opened Options
  import opened Sequences

  type Links<T(==)> = map<T, Option<T>>

  function At<T>(c: seq<T>, i: nat): Option<T> { if i < |c| then Some(c[i]) else None }

  /** Following the links from `head` gives the nodes of `c`, each once, and ends. */
  predicate Chain<T(==)>(head: Option<T>, next: Links<T>, c: seq<T>) {
    head == At(c, 0) && NoDup(c) && forall i | 0 <= i < |c| :: c[i] in next && next[c[i]] == At(c, i + 1)
  }

  lemma ChainKeep<T>(head: Option<T>, next: Links<T>, next': Links<T>, c: seq<T>)
    requires Chain(head, next, c) && forall x | x in c :: x in next' && next'[x] == next[x]
    ensures Chain(head, next', c)
  {}

  lemma ChainHead<T>(head: Option<T>, next: Links<T>, c: seq<T>, x: T)
    requires Chain(head, next, c) && x !in c
    ensures Chain(Some(x), next[x := head], [x] + c)
  {
    forall i | 0 <= i < |[x] + c| ensures next[x := head][([x] + c)[i]] == At([x] + c, i + 1) {
      if i > 0 { assert ([x] + c)[i] == c[i - 1]; }
    }
  }

  /** The node at position `i` is replaced by `x`, or relinked if it is `x` itself. */
  lemma ChainSwap<T>(head: Option<T>, next: Links<T>, c: seq<T>, i: nat, x: T)
    requires Chain(head, next, c) && i < |c| && (x == c[i] || x !in c)
    ensures var next1 := if i > 0 then next[c[i - 1] := Some(x)] else next;
            c[i] in next1 &&
            Chain(if i > 0 then head else Some(x), next1[x := next1[c[i]]], c[i := x])
  {
    var next1 := if i > 0 then next[c[i - 1] := Some(x)] else next;
    var next2 := next1[x := next1[c[i]]];
    var d := c[i := x];
    forall j | 0 <= j < |d| ensures d[j] in next2 && next2[d[j]] == At(d, j + 1) {
      if j != i && j + 1 != i { assert d[j] != x && (i > 0 ==> d[j] != c[i - 1]); }
    }
  }

  /** The node at position `i` is unlinked. */
  lemma ChainCut<T>(head: Option<T>, next: Links<T>, c: seq<T>, i: nat)
    requires Chain(head, next, c) && i < |c|
    ensures c[i] in next &&
            Chain(if i > 0 then head else next[c[i]], if i > 0 then next[c[i - 1] := next[c[i]]] else next, c[..i] + c[i + 1..])
  {
    var d := c[..i] + c[i + 1..];
    var next' := if i > 0 then next[c[i - 1] := next[c[i]]] else next;
    forall j | 0 <= j < |d| ensures d[j] in next' && next'[d[j]] == At(d, j + 1) {
      if j < i { assert d[j] == c[j]; } else { assert d[j] == c[j + 1]; }
    }
  }

  /** The rest of a chain is a chain, and its first node does not come back. */
  lemma ChainRest<T>(head: Option<T>, next: Links<T>, c: seq<T>)
    requires Chain(head, next, c) && c != []
    ensures c[0] in next && Chain(next[c[0]], next, c[1..]) && c[0] !in c[1..]
  {
    var d := c[1..];
    assert forall j | 0 <= j < |d| :: d[j] == c[j + 1];
  }
}
