/**
 Walking a chain of names: each name has at most one next name, "" ends the
 chain, and a set of seen names stops the walk on a cycle. Two algorithms of
 the repository walk this way: parent uuids and `superseded_by` ids.
 */
module Walks {
  type Graph = map<string, string>

  function Next(g: Graph, c: string): string {
    if c in g then g[c] else ""
  }

  ghost function Iter(g: Graph, c: string, n: nat): string {
    if n == 0 then c else Next(g, Iter(g, c, n - 1))
  }

  /** Every name of the set is followed by a name of the set or by nothing. */
  ghost predicate Closed(g: Graph, s: set<string>) {
    forall c :: c in s ==> Next(g, c) == "" || Next(g, c) in s
  }

  /** A walk that ran into a cycle or an end has seen the whole chain. */
  lemma {:induction false} NeverLeaves(g: Graph, s: set<string>, c: string, n: nat)
    requires "" !in g && Closed(g, s) && (c == "" || c in s)
    ensures Iter(g, c, n) == "" || Iter(g, c, n) in s
  {
    if n > 0 {
      NeverLeaves(g, s, c, n - 1);
    }
  }
}
