/** The degree, selection and neighbour loops of `build_outputs` in
    scripts/sync_graphify_obsidian.py. */
module GraphSelection {
  import opened Basics

  datatype Node = Node(id: Option<string>, file: string, title: string)

  /** A link names its ends; a missing end is the empty string. */
  datatype Link = Link(source: string, target: string)

  datatype Component = Component(exactFiles: set<string>, matches: Node -> bool)

  /** A graph and the rules for production files. */
  datatype Graph = Graph(nodes: seq<Node>, links: seq<Link>, production: string -> bool)
  {
    /** The empty path is never a production file. */
    ghost predicate Valid() {
      !production("")
    }

    /** The production files of the nodes. */
    function Files(): set<string> {
      set n | n in nodes && production(n.file) :: n.file
    }

    /** The file of the last node with this id. */
    function FileOf(id: string): string {
      FileIn(nodes, id)
    }

    static function FileIn(nodes: seq<Node>, id: string): (file: string)
      ensures file == "" || exists n :: n in nodes && n.file == file
    {
      if nodes == [] then ""
      else if nodes[|nodes| - 1].id == Some(id) then nodes[|nodes| - 1].file
      else FileIn(nodes[..|nodes| - 1], id)
    }

    /** The production files among the nodes a component matches. */
    function MatchedFiles(c: Component): set<string> {
      set n | n in nodes && n.id.Some? && production(n.file) && c.matches(n) && production(FileOf(n.id.value))
        :: FileOf(n.id.value)
    }

    function ExactFiles(c: Component): set<string> {
      set f | f in c.exactFiles && production(f) && f in Files()
    }

    lemma FilesAreKnown(id: string)
      requires Valid() && production(FileOf(id))
      ensures FileOf(id) in Files()
    {
    }
  }

  // ---------------------------------------------------------------- degrees

  function One(b: bool): nat {
    if b then 1 else 0
  }

  /** How many link ends lie in the file. */
  function Ends(g: Graph, links: seq<Link>, file: string): nat {
    if links == [] then 0
    else
      var l := links[|links| - 1];
      Ends(g, links[..|links| - 1], file) + One(g.FileOf(l.source) == file) + One(g.FileOf(l.target) == file)
  }

  /** How many link ends lie in production files. */
  function ProductionEnds(g: Graph, links: seq<Link>): nat {
    if links == [] then 0
    else
      var l := links[|links| - 1];
      ProductionEnds(g, links[..|links| - 1]) + One(g.production(g.FileOf(l.source))) + One(g.production(g.FileOf(l.target)))
  }

  ghost function SumOf(m: map<string, nat>): nat
    decreases |m|
  {
    if m == map[] then 0
    else
      var k :| k in m;
      m[k] + SumOf(m - {k})
  }

  lemma {:induction false} SumSplits(m: map<string, nat>, k: string)
    requires k in m
    ensures SumOf(m) == m[k] + SumOf(m - {k})
    decreases |m|
  {
    var j :| j in m && SumOf(m) == m[j] + SumOf(m - {j});
    if j != k {
      SumSplits(m - {j}, k);
      SumSplits(m - {k}, j);
      assert m - {j} - {k} == m - {k} - {j};
    }
  }

  lemma SumOfUpdate(m: map<string, nat>, k: string, v: nat)
    ensures SumOf(m[k := v]) == SumOf(m) + v - (if k in m then m[k] else 0)
  {
    SumSplits(m[k := v], k);
    assert m[k := v] - {k} == m - {k};
    if k in m { SumSplits(m, k); } else { assert m - {k} == m; }
  }

  /** The degrees count the link ends in each production file, and sum to those in all of them. */
  ghost predicate Counted(g: Graph, links: seq<Link>, degree: map<string, nat>) {
    && degree.Keys == g.Files()
    && (forall f :: f in degree ==> degree[f] == Ends(g, links, f))
    && SumOf(degree) == ProductionEnds(g, links)
  }

  /** One more link end has been counted, if it lies in a production file. */
  ghost predicate Adds(g: Graph, degree: map<string, nat>, id: string, degree': map<string, nat>) {
    && degree'.Keys == degree.Keys
    && (forall f :: f in degree ==> degree'[f] == degree[f] + One(g.FileOf(id) == f))
    && SumOf(degree') == SumOf(degree) + One(g.production(g.FileOf(id)))
  }

  lemma LinkIsCounted(g: Graph, links: seq<Link>, l: Link, d0: map<string, nat>, d1: map<string, nat>, d2: map<string, nat>)
    requires Counted(g, links, d0) && Adds(g, d0, l.source, d1) && Adds(g, d1, l.target, d2)
    ensures Counted(g, links + [l], d2)
  {
  }

  method CountEnd(g: Graph, degree: map<string, nat>, id: string) returns (degree': map<string, nat>)
    requires g.Valid() && degree.Keys == g.Files()
    ensures Adds(g, degree, id, degree')
  {
    var file := g.FileOf(id);
    degree' := degree;
    if g.production(file) {
      g.FilesAreKnown(id);
      SumOfUpdate(degree, file, degree[file] + 1);
      degree' := degree[file := degree[file] + 1];
    }
  }

  /** Every production file starts at zero. */
  method SeedDegrees(g: Graph) returns (degree: map<string, nat>)
    ensures degree.Keys == g.Files() && forall f :: f in degree ==> degree[f] == 0
    ensures SumOf(degree) == 0
  {
    degree := map[];
    var k := 0;
    while k < |g.nodes|
      invariant 0 <= k <= |g.nodes|
      invariant forall f :: f in degree <==> exists n :: n in g.nodes[..k] && g.production(n.file) && n.file == f
      invariant forall f :: f in degree ==> degree[f] == 0
      invariant SumOf(degree) == 0
    {
      assert g.nodes[..k + 1] == g.nodes[..k] + [g.nodes[k]];
      var file := g.nodes[k].file;
      if g.production(file) && file !in degree {
        SumOfUpdate(degree, file, 0);
        degree := degree[file := 0];
      }
      k := k + 1;
    }
    assert g.nodes[..k] == g.nodes;
  }

  method CountDegrees(g: Graph) returns (degree: map<string, nat>)
    requires g.Valid()
    ensures Counted(g, g.links, degree)
  {
    degree := SeedDegrees(g);
    var k := 0;
    while k < |g.links|
      invariant 0 <= k <= |g.links| && Counted(g, g.links[..k], degree)
    {
      var l := g.links[k];
      var once := CountEnd(g, degree, l.source);
      var twice := CountEnd(g, once, l.target);
      LinkIsCounted(g, g.links[..k], l, degree, once, twice);
      assert g.links[..k + 1] == g.links[..k] + [l];
      degree := twice;
      k := k + 1;
    }
    assert g.links[..k] == g.links;
  }

  // ---------------------------------------------------------------- ranking

  /** The key (-degree, path): more links first, then the lesser path. */
  predicate Before(degree: map<string, nat>, p: string, q: string)
    requires p in degree && q in degree
  {
    degree[p] > degree[q] || (degree[p] == degree[q] && LexLess(p, q))
  }

  lemma BeforeIsTotal(degree: map<string, nat>, p: string, q: string)
    requires p in degree && q in degree
    ensures p == q || Before(degree, p, q) || Before(degree, q, p)
    ensures !(Before(degree, p, q) && Before(degree, q, p))
  {
    LexTrichotomy(p, q);
  }

  lemma BeforeIsTransitive(degree: map<string, nat>, p: string, q: string, r: string)
    requires p in degree && q in degree && r in degree && Before(degree, p, q) && Before(degree, q, r)
    ensures Before(degree, p, r)
  {
    if LexLess(p, q) && LexLess(q, r) { LexTransitive(p, q, r); }
  }

  function Min(a: nat, b: nat): nat {
    if a <= b then a else b
  }

  /** `top` are the first `k` of the files in the ranking. */
  ghost predicate IsTop(degree: map<string, nat>, files: set<string>, k: nat, top: set<string>) {
    && files <= degree.Keys && top <= files && |top| == Min(k, |files|)
    && forall p, q :: p in top && q in files - top ==> Before(degree, p, q)
  }

  /** There is only one such choice. */
  lemma TopIsUnique(degree: map<string, nat>, files: set<string>, k: nat, a: set<string>, b: set<string>)
    requires IsTop(degree, files, k, a) && IsTop(degree, files, k, b)
    ensures a == b
  {
    if a != b {
      SubsetOfEqualSize(a, b);
      SubsetOfEqualSize(b, a);
      var p :| p in a - b;
      var q :| q in b - a;
      BeforeIsTotal(degree, p, q);
      assert false;
    }
  }

  lemma SubsetOfEqualSize(a: set<string>, b: set<string>)
    requires |a| == |b| && a != b
    ensures exists x :: x in a - b
  {
    assert |a| == |a * b| + |a - b| && |b| == |a * b| + |b - a|;
    assert a == a * b + (a - b) && b == a * b + (b - a);
    assert a - b != {} || b - a != {};
  }

  method First(degree: map<string, nat>, files: set<string>) returns (first: string)
    requires files != {} && files <= degree.Keys
    ensures first in files && forall f :: f in files - {first} ==> Before(degree, first, f)
  {
    first := AnyOf(files);
    var pending := files - {first};
    while pending != {}
      invariant pending <= files - {first} && first in files
      invariant forall f :: f in files - {first} && f !in pending ==> Before(degree, first, f)
    {
      var f := AnyOf(pending);
      BeforeIsTotal(degree, f, first);
      pending := pending - {f};
      if Before(degree, f, first) {
        forall x | x in files - {first} && x !in pending && x != f ensures Before(degree, f, x) {
          BeforeIsTransitive(degree, f, first, x);
        }
        first := f;
      }
    }
  }

  method Top(degree: map<string, nat>, files: set<string>, k: nat) returns (top: set<string>)
    requires files <= degree.Keys
    ensures IsTop(degree, files, k, top)
  {
    top := {};
    var rest := files;
    while |top| < k && rest != {}
      invariant rest == files - top && top <= files && |top| <= k
      invariant forall p, q :: p in top && q in rest ==> Before(degree, p, q)
      decreases rest
    {
      var f := First(degree, rest);
      top := top + {f};
      rest := rest - {f};
    }
    assert |files| == |top| + |rest|;
  }

  // -------------------------------------------------------------- selection

  /** `picks` are the two highest-ranked files each component matches. */
  ghost predicate Picks(g: Graph, degree: map<string, nat>, components: seq<Component>, picks: seq<set<string>>) {
    && |picks| == |components|
    && forall i :: 0 <= i < |components| ==> IsTop(degree, g.MatchedFiles(components[i]), 2, picks[i])
  }

  /** The files the components put forward: their exact files and their picks. */
  ghost function AnchorsOf(g: Graph, components: seq<Component>, picks: seq<set<string>>): set<string>
    requires |picks| == |components|
  {
    if components == [] then {}
    else
      var last := |components| - 1;
      AnchorsOf(g, components[..last], picks[..last]) + g.ExactFiles(components[last]) + picks[last]
  }

  /** The anchors, cut down or filled up by rank. */
  ghost predicate Chosen(degree: map<string, nat>, anchors: set<string>, maxFiles: nat, selected: set<string>) {
    if |anchors| > maxFiles then IsTop(degree, anchors, maxFiles, selected)
    else anchors <= selected && IsTop(degree, degree.Keys - anchors, maxFiles - |anchors|, selected - anchors)
  }

  ghost predicate Selects(g: Graph, degree: map<string, nat>, components: seq<Component>, maxFiles: nat, selected: set<string>) {
    exists picks ::
      Picks(g, degree, components, picks) && Chosen(degree, AnchorsOf(g, components, picks), maxFiles, selected)
  }

  lemma MatchedAreKnown(g: Graph, c: Component)
    requires g.Valid()
    ensures g.MatchedFiles(c) <= g.Files() && g.ExactFiles(c) <= g.Files()
  {
  }

  lemma AnchorsGrow(g: Graph, degree: map<string, nat>, components: seq<Component>, picks: seq<set<string>>,
                    c: Component, top: set<string>)
    requires Picks(g, degree, components, picks) && IsTop(degree, g.MatchedFiles(c), 2, top)
    ensures Picks(g, degree, components + [c], picks + [top])
    ensures AnchorsOf(g, components + [c], picks + [top]) == AnchorsOf(g, components, picks) + g.ExactFiles(c) + top
  {
  }

  method Anchors(g: Graph, degree: map<string, nat>, components: seq<Component>)
    returns (anchors: set<string>, ghost picks: seq<set<string>>)
    requires g.Valid() && degree.Keys == g.Files()
    ensures Picks(g, degree, components, picks) && anchors == AnchorsOf(g, components, picks) && anchors <= g.Files()
  {
    anchors, picks := {}, [];
    var k := 0;
    while k < |components|
      invariant 0 <= k <= |components| && Picks(g, degree, components[..k], picks)
      invariant anchors == AnchorsOf(g, components[..k], picks) && anchors <= g.Files()
    {
      var c := components[k];
      MatchedAreKnown(g, c);
      var top := Top(degree, g.MatchedFiles(c), 2);
      AnchorsGrow(g, degree, components[..k], picks, c, top);
      assert components[..k + 1] == components[..k] + [c];
      anchors, picks := anchors + g.ExactFiles(c) + top, picks + [top];
      k := k + 1;
    }
    assert components[..k] == components;
  }

  /** The choice has the bounded size. */
  lemma ChosenSize(degree: map<string, nat>, anchors: set<string>, maxFiles: nat, selected: set<string>)
    requires Chosen(degree, anchors, maxFiles, selected) && anchors <= degree.Keys
    ensures selected <= degree.Keys && |selected| == Min(maxFiles, |degree.Keys|)
  {
    assert |degree.Keys| == |anchors| + |degree.Keys - anchors| by { assert degree.Keys == anchors + (degree.Keys - anchors); }
    if |anchors| <= maxFiles {
      assert selected == anchors + (selected - anchors);
      assert |selected| == |anchors| + |selected - anchors|;
    }
  }

  method Select(g: Graph, degree: map<string, nat>, components: seq<Component>, maxFiles: nat) returns (selected: set<string>)
    requires g.Valid() && degree.Keys == g.Files()
    ensures Selects(g, degree, components, maxFiles, selected)
    ensures selected <= g.Files() && |selected| == Min(maxFiles, |g.Files()|)
  {
    var anchors;
    ghost var picks;
    anchors, picks := Anchors(g, degree, components);
    if |anchors| > maxFiles {
      selected := Top(degree, anchors, maxFiles);
      assert Chosen(degree, anchors, maxFiles, selected);
    } else {
      var added := Top(degree, degree.Keys - anchors, maxFiles - |anchors|);
      selected := anchors + added;
      assert selected - anchors == added;
      assert Chosen(degree, anchors, maxFiles, selected);
    }
    ChosenSize(degree, anchors, maxFiles, selected);
  }

  lemma PicksAreUnique(g: Graph, degree: map<string, nat>, components: seq<Component>, a: seq<set<string>>, b: seq<set<string>>)
    requires Picks(g, degree, components, a) && Picks(g, degree, components, b)
    ensures a == b
  {
    forall i | 0 <= i < |components| ensures a[i] == b[i] {
      TopIsUnique(degree, g.MatchedFiles(components[i]), 2, a[i], b[i]);
    }
  }

  lemma ChoiceIsUnique(degree: map<string, nat>, anchors: set<string>, maxFiles: nat, a: set<string>, b: set<string>)
    requires Chosen(degree, anchors, maxFiles, a) && Chosen(degree, anchors, maxFiles, b)
    ensures a == b
  {
    if |anchors| > maxFiles {
      TopIsUnique(degree, anchors, maxFiles, a, b);
    } else {
      TopIsUnique(degree, degree.Keys - anchors, maxFiles - |anchors|, a - anchors, b - anchors);
      assert a == anchors + (a - anchors) && b == anchors + (b - anchors);
    }
  }

  /** The selection depends on nothing but the graph, the components and the bound. */
  lemma SelectionIsUnique(g: Graph, degree: map<string, nat>, components: seq<Component>, maxFiles: nat,
                          a: set<string>, b: set<string>)
    requires Selects(g, degree, components, maxFiles, a) && Selects(g, degree, components, maxFiles, b)
    ensures a == b
  {
    var forA :| Picks(g, degree, components, forA) && Chosen(degree, AnchorsOf(g, components, forA), maxFiles, a);
    var forB :| Picks(g, degree, components, forB) && Chosen(degree, AnchorsOf(g, components, forB), maxFiles, b);
    PicksAreUnique(g, degree, components, forA, forB);
    ChoiceIsUnique(degree, AnchorsOf(g, components, forA), maxFiles, a, b);
  }

  // ------------------------------------------------------------- neighbours

  /** The link joins the two files, one way or the other. */
  predicate Joins(g: Graph, l: Link, p: string, q: string) {
    || (g.FileOf(l.source) == p && g.FileOf(l.target) == q)
    || (g.FileOf(l.source) == q && g.FileOf(l.target) == p)
  }

  function Joining(g: Graph, links: seq<Link>, p: string, q: string): nat {
    if links == [] then 0
    else Joining(g, links[..|links| - 1], p, q) + One(Joins(g, links[|links| - 1], p, q))
  }

  function Count(neighbours: map<(string, string), nat>, p: string, q: string): nat {
    if (p, q) in neighbours then neighbours[(p, q)] else 0
  }

  /** Two different selected files are neighbours as often as links join them, both ways alike; no
      other pair is counted. The empty path is never selected, so ends without a file count for
      nothing. */
  method CountNeighbours(g: Graph, selected: set<string>) returns (neighbours: map<(string, string), nat>)
    requires "" !in selected
    ensures forall p, q :: Count(neighbours, p, q) ==
              if p in selected && q in selected && p != q then Joining(g, g.links, p, q) else 0
    ensures forall p, q :: Count(neighbours, p, q) == Count(neighbours, q, p)
  {
    neighbours := map[];
    var k := 0;
    while k < |g.links|
      invariant 0 <= k <= |g.links|
      invariant forall p, q :: Count(neighbours, p, q) ==
                  if p in selected && q in selected && p != q then Joining(g, g.links[..k], p, q) else 0
    {
      assert g.links[..k + 1][..k] == g.links[..k];
      var source, target := g.FileOf(g.links[k].source), g.FileOf(g.links[k].target);
      if source in selected && target in selected && source != target {
        neighbours := neighbours[(source, target) := Count(neighbours, source, target) + 1];
        neighbours := neighbours[(target, source) := Count(neighbours, target, source) + 1];
      }
      k := k + 1;
    }
    assert g.links[..k] == g.links;
    forall p, q ensures Joining(g, g.links, p, q) == Joining(g, g.links, q, p) { JoiningIsSymmetric(g, g.links, p, q); }
  }

  lemma {:induction false} JoiningIsSymmetric(g: Graph, links: seq<Link>, p: string, q: string)
    ensures Joining(g, links, p, q) == Joining(g, links, q, p)
  {
    if links != [] { JoiningIsSymmetric(g, links[..|links| - 1], p, q); }
  }
}
