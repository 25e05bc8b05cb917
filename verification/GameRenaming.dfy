/** Games that differ in the names of their vertices only. */
module GameRenaming {
  import opened ParityGames
  import opened Permutations
  import opened GameArrays

  /** The game held in the arrays. */
  function GameOf(s: Store): (g: Game)
    ensures g.Size() == |s.entries|
  {
    Game(seq(|s.entries|, v requires 0 <= v < |s.entries| => s.entries[v].priority),
         seq(|s.entries|, v requires 0 <= v < |s.entries| => s.entries[v].owner),
         seq(|s.entries|, v requires 0 <= v < |s.entries| => Row(s.outedges, s.entries[v].firstout)),
         seq(|s.entries|, v requires 0 <= v < |s.entries| => Row(s.inedges, s.entries[v].firstin)))
  }

  ghost predicate RenamedList(m: seq<nat>, a: seq<nat>, b: seq<nat>) {
    |b| == |a| && forall k :: 0 <= k < |a| ==> a[k] < |m| && b[k] == m[a[k]]
  }

  /** Vertex `v` of `g` is vertex `m[v]` of `h`. */
  ghost predicate RenamedAt(g: Game, h: Game, m: seq<nat>, v: nat)
    requires v < |m| == g.Size() == h.Size() == |g.owner| == |h.owner| == |g.outs| == |h.outs| == |g.ins| == |h.ins|
    requires m[v] < |m|
  {
    && h.priority[m[v]] == g.priority[v] && h.owner[m[v]] == g.owner[v]
    && RenamedList(m, g.outs[v], h.outs[m[v]]) && RenamedList(m, g.ins[v], h.ins[m[v]])
  }

  ghost predicate Renamed(g: Game, h: Game, m: seq<nat>) {
    && Perm(m)
    && |m| == g.Size() == h.Size() == |g.owner| == |h.owner| == |g.outs| == |h.outs| == |g.ins| == |h.ins|
    && forall v :: 0 <= v < |m| ==> RenamedAt(g, h, m, v)
  }

  /** Moving the vertices in the arrays renames the game. */
  lemma MovedGame(m: seq<nat>, s: Store, t: Store)
    requires Perm(m) && InRange(s) && Moved(m, s, t)
    ensures Renamed(GameOf(s), GameOf(t), m)
  {
    forall v | 0 <= v < |m| ensures RenamedAt(GameOf(s), GameOf(t), m, v) {
      RenamedRow(m, s.outedges, s.entries[v].firstout);
      RenamedRow(m, s.inedges, s.entries[v].firstin);
    }
  }

  lemma {:induction false} RenamedCount(m: seq<nat>, a: seq<nat>, b: seq<nat>, u: nat)
    requires Perm(m) && RenamedList(m, a, b) && u < |m|
    ensures multiset(b)[m[u]] == multiset(a)[u]
  {
    if a != [] {
      RenamedCount(m, a[1..], b[1..], u);
      assert a == [a[0]] + a[1..] && b == [b[0]] + b[1..];
      assert m[a[0]] == m[u] <==> a[0] == u;
    }
  }

  /** A renamed game is a game. */
  lemma RenamedValid(g: Game, h: Game, m: seq<nat>)
    requires g.Valid() && Renamed(g, h, m)
    ensures h.Valid()
  {
    forall x, k | 0 <= x < |m| && 0 <= k < |h.outs[x]| ensures h.outs[x][k] < |m| {
      Hit(m, x);
      var v :| 0 <= v < |m| && m[v] == x;
      assert RenamedAt(g, h, m, v);
    }
    forall x, k | 0 <= x < |m| && 0 <= k < |h.ins[x]| ensures h.ins[x][k] < |m| {
      Hit(m, x);
      var v :| 0 <= v < |m| && m[v] == x;
      assert RenamedAt(g, h, m, v);
    }
    forall x, y | 0 <= x < |m| && 0 <= y < |m| ensures multiset(h.ins[y])[x] == multiset(h.outs[x])[y] {
      Hit(m, x);
      Hit(m, y);
      var u :| 0 <= u < |m| && m[u] == x;
      var v :| 0 <= v < |m| && m[v] == y;
      assert RenamedAt(g, h, m, u) && RenamedAt(g, h, m, v);
      RenamedCount(m, g.ins[v], h.ins[y], u);
      RenamedCount(m, g.outs[u], h.outs[x], v);
    }
  }

  lemma RenamedEdge(g: Game, h: Game, m: seq<nat>, u: nat, v: nat)
    requires Renamed(g, h, m) && u < |m| && v < |m|
    ensures h.Edge(m[u], m[v]) <==> g.Edge(u, v)
  {
    assert RenamedAt(g, h, m, u);
    RenamedCount(m, g.outs[u], h.outs[m[u]], v);
    assert m[v] in multiset(h.outs[m[u]]) <==> v in multiset(g.outs[u]);
  }

  /** A solution, renamed along with the game. */
  ghost predicate RenamedSolution(g: Game, m: seq<nat>, dom: set<nat>, win: seq<Player>, str: seq<int>,
                                  dom': set<nat>, win': seq<Player>, str': seq<int>)
  {
    && |win| == |win'| == |str| == |str'| == |m|
    && (forall v :: 0 <= v < |m| ==> m[v] < |m| && (m[v] in dom' <==> v in dom) && win'[m[v]] == win[v] && str'[m[v]] == Rename(m, str[v]))
    && (forall v :: 0 <= v < |m| ==> -1 <= str[v] < |m|)
    && (forall v :: v in dom ==> v < |m|) && (forall v :: v in dom' ==> v < |m|)
  }

  lemma RenamedMove(g: Game, h: Game, m: seq<nat>, dom: set<nat>, win: seq<Player>, str: seq<int>,
                    dom': set<nat>, win': seq<Player>, str': seq<int>, u: nat, v: nat)
    requires Renamed(g, h, m) && g.Valid() && h.Valid() && RenamedSolution(g, m, dom, win, str, dom', win', str')
    requires u < |m| && v < |m|
    ensures Shape(g, dom, win, str) && Shape(h, dom', win', str')
    ensures Move(h, dom', win', str', m[u], m[v]) <==> Move(g, dom, win, str, u, v)
  {
    RenamedEdge(g, h, m, u, v);
    assert RenamedAt(g, h, m, u);
  }

  /** Renaming does not change what a correct solution is. */
  lemma RenamedCorrect(g: Game, h: Game, m: seq<nat>, inv: seq<nat>, dom: set<nat>, win: seq<Player>, str: seq<int>,
                       dom': set<nat>, win': seq<Player>, str': seq<int>)
    requires Renamed(g, h, m) && Inverses(m, inv) && g.Valid() && h.Valid()
    requires RenamedSolution(g, m, dom, win, str, dom', win', str')
    requires Shape(g, dom, win, str) && Shape(h, dom', win', str') && CorrectSolution(g, dom, win, str)
    ensures CorrectSolution(h, dom', win', str')
  {
    forall x | x in dom'
      ensures if win'[x] == h.owner[x]
        then str'[x] >= 0 && str'[x] in dom' && h.Edge(x, str'[x]) && win'[str'[x]] == win'[x]
        else forall y :: y in dom' && h.Edge(x, y) ==> win'[y] == win'[x]
    {
      RenamedClosed(g, h, m, inv, dom, win, str, dom', win', str', x);
    }
    forall w' | ClosedWalk(h, dom', win', str', w') ensures Won(h, win', w') {
      RenamedWon(g, h, m, inv, dom, win, str, dom', win', str', w');
    }
  }

  lemma RenamedClosed(g: Game, h: Game, m: seq<nat>, inv: seq<nat>, dom: set<nat>, win: seq<Player>, str: seq<int>,
                      dom': set<nat>, win': seq<Player>, str': seq<int>, x: nat)
    requires Renamed(g, h, m) && Inverses(m, inv) && g.Valid() && h.Valid()
    requires RenamedSolution(g, m, dom, win, str, dom', win', str')
    requires Shape(g, dom, win, str) && Shape(h, dom', win', str') && RegionsClosed(g, dom, win, str) && x in dom'
    ensures if win'[x] == h.owner[x]
      then str'[x] >= 0 && str'[x] in dom' && h.Edge(x, str'[x]) && win'[str'[x]] == win'[x]
      else forall y :: y in dom' && h.Edge(x, y) ==> win'[y] == win'[x]
  {
    var u := inv[x];
    assert m[u] == x && RenamedAt(g, h, m, u) && u in dom;
    if win[u] == g.owner[u] {
      RenamedEdge(g, h, m, u, str[u]);
    } else {
      forall y | y in dom' && h.Edge(x, y) ensures win'[y] == win'[x] {
        RenamedEdge(g, h, m, u, inv[y]);
        assert m[inv[y]] == y;
      }
    }
  }

  lemma RenamedWon(g: Game, h: Game, m: seq<nat>, inv: seq<nat>, dom: set<nat>, win: seq<Player>, str: seq<int>,
                   dom': set<nat>, win': seq<Player>, str': seq<int>, w': seq<nat>)
    requires Renamed(g, h, m) && Inverses(m, inv) && g.Valid() && h.Valid()
    requires RenamedSolution(g, m, dom, win, str, dom', win', str')
    requires Shape(g, dom, win, str) && Shape(h, dom', win', str') && CyclesWon(g, dom, win, str)
    requires ClosedWalk(h, dom', win', str', w')
    ensures Won(h, win', w')
  {
    WalkInside(h, dom', win', str', w');
    var w := seq(|w'|, k requires 0 <= k < |w'| && w'[k] < |inv| => inv[w'[k]]);
    forall k | 0 <= k < |w| ensures w[k] < |m| && m[w[k]] == w'[k] { }
    forall k | 0 <= k < |w| - 1 ensures Move(g, dom, win, str, w[k], w[k + 1]) {
      assert Move(h, dom', win', str', w'[k], w'[k + 1]);
      RenamedMove(g, h, m, dom, win, str, dom', win', str', w[k], w[k + 1]);
    }
    assert ClosedWalk(g, dom, win, str, w);
    assert Won(g, win, w);
    forall k | 0 <= k < |w| ensures w'[k] < |h.priority| && h.priority[w'[k]] == g.priority[w[k]] { assert RenamedAt(g, h, m, w[k]); }
    assert win'[w'[0]] == win[w[0]];
    SamePriorities(g, h, w, w', win[w[0]]);
  }

  /** Walks with the same priorities have the same winner. */
  lemma SamePriorities(g: Game, h: Game, w: seq<nat>, w': seq<nat>, p: Player)
    requires |w| == |w'| && TopParity(g, w, p)
    requires forall k :: 0 <= k < |w| ==> w'[k] < |h.priority| && h.priority[w'[k]] == g.priority[w[k]]
    ensures TopParity(h, w', p)
  {
    var k :| 0 <= k < |w| && g.Parity(w[k]) == p && forall j :: 0 <= j < |w| ==> g.priority[w[j]] <= g.priority[w[k]];
    assert h.Parity(w'[k]) == p;
    forall j | 0 <= j < |w'| ensures h.priority[w'[j]] <= h.priority[w'[k]] {
      assert g.priority[w[j]] <= g.priority[w[k]];
    }
  }

  lemma RenamedBack(g: Game, h: Game, m: seq<nat>, inv: seq<nat>)
    requires Renamed(g, h, m) && Inverses(m, inv)
    ensures Renamed(h, g, inv)
  {
    InversesPerm(m, inv);
    forall x | 0 <= x < |inv| ensures RenamedAt(h, g, inv, x) {
      var v := inv[x];
      assert m[v] == x && RenamedAt(g, h, m, v);
    }
  }

  /** A solution is correct exactly if its renaming is a correct solution of the renamed game. */
  lemma RenamedCorrectIff(g: Game, h: Game, m: seq<nat>, inv: seq<nat>, dom: set<nat>, win: seq<Player>, str: seq<int>,
                          dom': set<nat>, win': seq<Player>, str': seq<int>)
    requires Renamed(g, h, m) && Inverses(m, inv) && g.Valid()
    requires RenamedSolution(g, m, dom, win, str, dom', win', str')
    ensures h.Valid() && Shape(g, dom, win, str) && Shape(h, dom', win', str')
    ensures CorrectSolution(g, dom, win, str) <==> CorrectSolution(h, dom', win', str')
  {
    RenamedValid(g, h, m);
    RenamedBack(g, h, m, inv);
    InversesPerm(m, inv);
    assert RenamedSolution(h, inv, dom', win', str', dom, win, str) by {
      forall x | 0 <= x < |m| ensures (inv[x] in dom <==> x in dom') && win[inv[x]] == win'[x] && str[inv[x]] == Rename(inv, str'[x]) {
        assert m[inv[x]] == x;
      }
      forall x | 0 <= x < |m| ensures -1 <= str'[x] < |m| { assert m[inv[x]] == x; }
    }
    if CorrectSolution(g, dom, win, str) { RenamedCorrect(g, h, m, inv, dom, win, str, dom', win', str'); }
    if CorrectSolution(h, dom', win', str') { RenamedCorrect(h, g, inv, m, dom', win', str', dom, win, str); }
  }
}
