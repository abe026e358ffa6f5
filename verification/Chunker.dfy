/** chunk_file: symbol chunks from a syntax tree, windows of lines otherwise. For any tree over any
    text no line that is not blank is lost. */
module Chunker {
  import opened Wrappers
  import opened Text
  import opened Sequences

  /** A syntax node: its type, its first and last row, the name found for it, its children. Rows are
      whatever the parser says; nothing relates them to the text. */
  datatype Node = Node(kind: string, startRow: nat, endRow: nat, name: string, children: seq<Node>)

  datatype SymbolType = Function | Class | Interface | Declaration | Module | Lines

  predicate Contains(s: string, part: string) {
    StartsWith(s, part) || (s != "" && Contains(s[1..], part))
  }

  /** _node_symbol_type */
  function NodeSymbolType(kind: string): (t: SymbolType)
    ensures !t.Module? && !t.Lines?
  {
    if Contains(kind, "function") || Contains(kind, "method") || Contains(kind, "arrow") then Function
    else if Contains(kind, "class") || Contains(kind, "struct") || Contains(kind, "impl") then Class
    else if Contains(kind, "interface") || Contains(kind, "trait") || Contains(kind, "type") then Interface
    else Declaration
  }

  /** `part` stands somewhere in `s`. */
  predicate Within(part: string, s: string) {
    exists i: nat :: i + |part| <= |s| && At(part, s, i)
  }

  predicate At(part: string, s: string, i: nat)
    requires i + |part| <= |s|
  {
    s[i..i + |part|] == part
  }

  lemma {:induction false} ContainsMeaning(s: string, part: string)
    ensures Contains(s, part) <==> Within(part, s)
  {
    if StartsWith(s, part) {
      assert At(part, s, 0);
    } else if s != "" {
      ContainsMeaning(s[1..], part);
      if i: nat :| i + |part| <= |s[1..]| && At(part, s[1..], i) {
        assert s[1..][i..i + |part|] == s[i + 1..i + 1 + |part|];
        assert At(part, s, i + 1);
      }
      if i: nat :| i + |part| <= |s| && At(part, s, i) {
        assert s[1..][i - 1..i - 1 + |part|] == s[i..i + |part|];
        assert At(part, s[1..], i - 1);
      }
    }
  }

  /** The type is told by the first of three groups of words that the node type has one of. */
  lemma {:induction false} NodeSymbolTypeMeaning(kind: string)
    ensures
      var function_ := Within("function", kind) || Within("method", kind) || Within("arrow", kind);
      var class_ := Within("class", kind) || Within("struct", kind) || Within("impl", kind);
      var interface_ := Within("interface", kind) || Within("trait", kind) || Within("type", kind);
      && (NodeSymbolType(kind) == Function <==> function_)
      && (NodeSymbolType(kind) == Class <==> !function_ && class_)
      && (NodeSymbolType(kind) == Interface <==> !function_ && !class_ && interface_)
      && (NodeSymbolType(kind) == Declaration <==> !function_ && !class_ && !interface_)
  {
    ContainsMeaning(kind, "function");
    ContainsMeaning(kind, "method");
    ContainsMeaning(kind, "arrow");
    ContainsMeaning(kind, "class");
    ContainsMeaning(kind, "struct");
    ContainsMeaning(kind, "impl");
    ContainsMeaning(kind, "interface");
    ContainsMeaning(kind, "trait");
    ContainsMeaning(kind, "type");
  }

  predicate IsSymbol(t: SymbolType) { !t.Module? && !t.Lines? }

  /** Lines are numbered from 1; `endLine` is inclusive. */
  datatype Chunk = Chunk(content: string, symbol: string, symbolType: SymbolType, startLine: nat, endLine: nat)

  /** lines[from: to] */
  function Slice(lines: seq<string>, from: nat, to: nat): seq<string> {
    var end := if to <= |lines| then to else |lines|;
    if from >= end then [] else lines[from..end]
  }

  lemma {:induction false} JoinBlank(lines: seq<string>)
    ensures Blank(Join(lines)) <==> forall k :: 0 <= k < |lines| ==> Blank(lines[k])
  {
    if lines != [] {
      var init, last := lines[..|lines| - 1], lines[|lines| - 1];
      JoinBlank(init);
      ConcatBlank(Join(init), last);
    }
  }

  lemma {:induction false} ConcatBlank(a: string, b: string)
    ensures Blank(a + b) <==> Blank(a) && Blank(b)
  {
    assert forall c :: c in a + b <==> c in a || c in b;
  }

  // ---- Appending in a loop -------------------------------------------------------------------------

  function Flat<T, U>(f: T -> seq<U>, xs: seq<T>): seq<U> {
    if xs == [] then [] else f(xs[0]) + Flat(f, xs[1..])
  }

  lemma {:induction false} FlatConcat<T, U>(f: T -> seq<U>, a: seq<T>, b: seq<T>)
    ensures Flat(f, a + b) == Flat(f, a) + Flat(f, b)
  {
    if a == [] {
      assert a + b == b;
    } else {
      FlatConcat(f, a[1..], b);
      assert (a + b)[0] == a[0] && (a + b)[1..] == a[1..] + b;
      Associate(f(a[0]), Flat(f, a[1..]), Flat(f, b));
    }
  }

  lemma {:induction false} FlatOne<T, U>(f: T -> seq<U>, x: T)
    ensures Flat(f, [x]) == f(x)
  {
    assert [x][1..] == [];
  }

  lemma {:induction false} FlatStep<T, U>(f: T -> seq<U>, xs: seq<T>, done: seq<U>)
    requires xs != []
    ensures done + Flat(f, xs) == (done + f(xs[0])) + Flat(f, xs[1..])
  {
    Associate(done, f(xs[0]), Flat(f, xs[1..]));
  }

  lemma {:induction false} FlatMember<T, U>(f: T -> seq<U>, xs: seq<T>, u: U)
    ensures u in Flat(f, xs) <==> exists x :: x in xs && u in f(x)
  {
    if xs != [] {
      FlatMember(f, xs[1..], u);
      assert xs == [xs[0]] + xs[1..];
    }
  }

  // ---- visit -------------------------------------------------------------------------------------

  /** The target nodes visit stops at. */
  function Outermost(node: Node, target: string -> bool): seq<Node>
    decreases node, 1
  {
    if target(node.kind) then [node] else OutermostIn(node.children, target)
  }

  function OutermostIn(nodes: seq<Node>, target: string -> bool): seq<Node>
    decreases nodes, 0
  {
    if nodes == [] then [] else Outermost(nodes[0], target) + OutermostIn(nodes[1..], target)
  }

  /** A node of the tree, and whether a target node encloses it. */
  datatype Placed = Placed(node: Node, enclosed: bool)

  /** All nodes in document order. */
  function Preorder(node: Node, enclosed: bool, target: string -> bool): seq<Placed>
    decreases node, 1
  {
    [Placed(node, enclosed)] + PreorderIn(node.children, enclosed || target(node.kind), target)
  }

  function PreorderIn(nodes: seq<Node>, enclosed: bool, target: string -> bool): seq<Placed>
    decreases nodes, 0
  {
    if nodes == [] then [] else Preorder(nodes[0], enclosed, target) + PreorderIn(nodes[1..], enclosed, target)
  }

  function FreeTargets(nodes: seq<Placed>, target: string -> bool): seq<Node> {
    if nodes == [] then []
    else if target(nodes[0].node.kind) && !nodes[0].enclosed then [nodes[0].node] + FreeTargets(nodes[1..], target)
    else FreeTargets(nodes[1..], target)
  }

  lemma {:induction false} FreeTargetsConcat(a: seq<Placed>, b: seq<Placed>, target: string -> bool)
    ensures FreeTargets(a + b, target) == FreeTargets(a, target) + FreeTargets(b, target)
  {
    if a == [] {
      assert a + b == b;
    } else {
      assert (a + b)[1..] == a[1..] + b;
      FreeTargetsConcat(a[1..], b, target);
    }
  }

  /** visit finds exactly the target nodes that no target node encloses, in document order. */
  lemma {:induction false} OutermostMeaning(node: Node, target: string -> bool)
    ensures FreeTargets(Preorder(node, false, target), target) == Outermost(node, target)
    ensures FreeTargets(Preorder(node, true, target), target) == []
    decreases node, 1
  {
    OutermostMeaningIn(node.children, target);
    assert Preorder(node, false, target)[1..] == PreorderIn(node.children, target(node.kind), target);
    assert Preorder(node, true, target)[1..] == PreorderIn(node.children, true, target);
  }

  lemma {:induction false} OutermostMeaningIn(nodes: seq<Node>, target: string -> bool)
    ensures FreeTargets(PreorderIn(nodes, false, target), target) == OutermostIn(nodes, target)
    ensures FreeTargets(PreorderIn(nodes, true, target), target) == []
    decreases nodes, 0
  {
    if nodes != [] {
      OutermostMeaning(nodes[0], target);
      OutermostMeaningIn(nodes[1..], target);
      FreeTargetsConcat(Preorder(nodes[0], false, target), PreorderIn(nodes[1..], false, target), target);
      FreeTargetsConcat(Preorder(nodes[0], true, target), PreorderIn(nodes[1..], true, target), target);
    }
  }

  function NodeChunk(lines: seq<string>, node: Node): Chunk {
    Chunk(Join(Slice(lines, node.startRow, node.endRow + 1)), node.name, NodeSymbolType(node.kind), node.startRow + 1, node.endRow + 1)
  }

  /** A chunk, unless it is blank. */
  function Kept(c: Chunk): seq<Chunk> { if Blank(c.content) then [] else [c] }

  /** `if content.strip(): chunks.append(...)` */
  method AppendUnlessBlank(chunks0: seq<Chunk>, c: Chunk) returns (chunks: seq<Chunk>)
    ensures chunks == chunks0 + Kept(c)
  {
    chunks := if Blank(c.content) then chunks0 else chunks0 + [c];
  }

  function ChunkOf(lines: seq<string>): Node -> seq<Chunk> {
    (node: Node) => Kept(NodeChunk(lines, node))
  }

  /** The chunks of the nodes that are not blank. */
  function NodeChunks(lines: seq<string>, nodes: seq<Node>): seq<Chunk> { Flat(ChunkOf(lines), nodes) }

  /** The chunks of the children from number `i` on. */
  ghost function RestChunks(lines: seq<string>, nodes: seq<Node>, i: nat, target: string -> bool): seq<Chunk>
    requires i <= |nodes|
  {
    NodeChunks(lines, OutermostIn(nodes[i..], target))
  }

  lemma {:induction false} RestStep(lines: seq<string>, nodes: seq<Node>, i: nat, target: string -> bool)
    requires i < |nodes|
    ensures RestChunks(lines, nodes, i, target) == NodeChunks(lines, Outermost(nodes[i], target)) + RestChunks(lines, nodes, i + 1, target)
  {
    FlatConcat(ChunkOf(lines), Outermost(nodes[i], target), OutermostIn(nodes[i + 1..], target));
    assert nodes[i..][1..] == nodes[i + 1..];
  }

  /** The recursive visit, appending to the list of chunks. */
  method Visit(lines: seq<string>, node: Node, target: string -> bool, chunks0: seq<Chunk>) returns (chunks: seq<Chunk>)
    ensures chunks == chunks0 + NodeChunks(lines, Outermost(node, target))
    decreases node, 1
  {
    if target(node.kind) {
      var c := NodeChunk(lines, node);
      FlatOne(ChunkOf(lines), node);
      chunks := AppendUnlessBlank(chunks0, c);
    } else {
      chunks := VisitAll(lines, node.children, target, chunks0);
    }
  }

  /** The loop over the children. */
  method VisitAll(lines: seq<string>, nodes: seq<Node>, target: string -> bool, chunks0: seq<Chunk>) returns (chunks: seq<Chunk>)
    ensures chunks == chunks0 + NodeChunks(lines, OutermostIn(nodes, target))
    decreases nodes, 0
  {
    chunks := chunks0;
    ghost var all := RestChunks(lines, nodes, 0, target);
    assert nodes[0..] == nodes;
    for i := 0 to |nodes|
      invariant chunks + RestChunks(lines, nodes, i, target) == chunks0 + all
    {
      RestStep(lines, nodes, i, target);
      ghost var one := NodeChunks(lines, Outermost(nodes[i], target));
      Associate(chunks, one, RestChunks(lines, nodes, i + 1, target));
      chunks := Visit(lines, nodes[i], target, chunks);
    }
    assert RestChunks(lines, nodes, |nodes|, target) == [];
  }

  // ---- The module chunk ----------------------------------------------------------------------------

  /** Line `k`, counted from 0, lies in the rows of a symbol chunk. */
  predicate Covered(chunks: seq<Chunk>, k: nat) {
    exists c <- chunks :: c.startLine <= k + 1 <= c.endLine
  }

  /** The positions of the non-blank lines that no chunk covers, in order. */
  function Uncovered(lines: seq<string>, chunks: seq<Chunk>): seq<nat> {
    if lines == [] then []
    else
      var before, k := Uncovered(lines[..|lines| - 1], chunks), |lines| - 1;
      if Blank(lines[k]) || Covered(chunks, k) then before else before + [k]
  }

  lemma {:induction false} UncoveredMeaning(lines: seq<string>, chunks: seq<Chunk>)
    ensures forall k :: k in Uncovered(lines, chunks) <==> 0 <= k < |lines| && !Blank(lines[k]) && !Covered(chunks, k)
    ensures forall i, j :: 0 <= i < j < |Uncovered(lines, chunks)| ==> Uncovered(lines, chunks)[i] < Uncovered(lines, chunks)[j]
  {
    if lines != [] {
      var init := lines[..|lines| - 1];
      UncoveredMeaning(init, chunks);
      assert forall k :: k in Uncovered(init, chunks) ==> k < |lines| - 1 && lines[k] == init[k];
      assert forall i :: 0 <= i < |Uncovered(init, chunks)| ==> Uncovered(init, chunks)[i] in Uncovered(init, chunks);
    }
  }

  predicate Positions(lines: seq<string>, at: seq<nat>) {
    forall i :: 0 <= i < |at| ==> at[i] < |lines|
  }

  /** The lines at some positions. */
  function Pick(lines: seq<string>, at: seq<nat>): seq<string>
    requires Positions(lines, at)
  {
    seq(|at|, i requires 0 <= i < |at| => lines[at[i]])
  }

  function ModuleChunk(lines: seq<string>, rest: seq<nat>): Chunk
    requires rest != [] && Positions(lines, rest)
  {
    Chunk(Join(Pick(lines, rest)), "", Module, rest[0] + 1, rest[|rest| - 1] + 1)
  }

  method FindUncovered(lines: seq<string>, chunks: seq<Chunk>) returns (uncovered: seq<nat>)
    ensures uncovered == Uncovered(lines, chunks) && Positions(lines, uncovered)
  {
    var covered: set<nat> := {};
    for i := 0 to |chunks|
      invariant forall n :: n in covered <==> exists j :: 0 <= j < i && chunks[j].startLine <= n <= chunks[j].endLine
    {
      for line := chunks[i].startLine to if chunks[i].startLine <= chunks[i].endLine then chunks[i].endLine + 1 else chunks[i].startLine
        invariant forall n :: n in covered <==>
          (chunks[i].startLine <= n < line) || exists j :: 0 <= j < i && chunks[j].startLine <= n <= chunks[j].endLine
      {
        covered := covered + {line};
      }
    }
    forall k: nat ensures k + 1 in covered <==> Covered(chunks, k) {
      if Covered(chunks, k) {
        var c :| c in chunks && c.startLine <= k + 1 <= c.endLine;
        var j :| 0 <= j < |chunks| && chunks[j] == c;
      }
    }
    uncovered := [];
    for k := 0 to |lines|
      invariant uncovered == Uncovered(lines[..k], chunks)
    {
      assert lines[..k + 1][..k] == lines[..k];
      if k + 1 !in covered && !Blank(lines[k]) { uncovered := uncovered + [k]; }
    }
    assert lines[..|lines|] == lines;
    UncoveredPositions(lines, chunks);
  }

  /** What a chunk holds of the text: the lines from its first to its last, or, for the module chunk, the
      lines at the positions `rest`. */
  ghost predicate Describes(lines: seq<string>, c: Chunk, rest: seq<nat>) {
    if c.symbolType.Module? then
      && rest != [] && Positions(lines, rest) && c.symbol == ""
      && c.content == Join(seq(|rest|, i requires 0 <= i < |rest| => lines[rest[i]]))
      && c.startLine == rest[0] + 1 && c.endLine == rest[|rest| - 1] + 1
    else
      var end := if c.endLine <= |lines| then c.endLine else |lines|;
      c.startLine >= 1 && c.content == Join(if c.startLine <= end then lines[c.startLine - 1..end] else [])
  }

  /** Line `k` is among the lines a chunk holds. */
  ghost predicate HoldsLine(c: Chunk, rest: seq<nat>, k: nat) {
    if c.symbolType.Module? then k in rest else c.startLine <= k + 1 <= c.endLine
  }

  lemma {:induction false} JoinHolds(parts: seq<string>, k: nat)
    requires k < |parts|
    ensures Within(parts[k], Join(parts))
  {
    var n := |parts| - 1;
    var before := Join(parts[..n]);
    if k == n {
      assert (before + parts[n])[|before|..|before| + |parts[n]|] == parts[n];
      assert At(parts[n], before + parts[n], |before|);
    } else {
      JoinHolds(parts[..n], k);
      var i: nat :| i + |parts[k]| <= |before| && At(parts[k], before, i);
      assert (before + parts[n])[i..i + |parts[k]|] == before[i..i + |parts[k]|];
      assert At(parts[k], before + parts[n], i);
    }
  }

  /** A line that a chunk holds stands in its content. */
  lemma {:induction false} HeldInContent(lines: seq<string>, c: Chunk, rest: seq<nat>, k: nat)
    requires Describes(lines, c, rest) && HoldsLine(c, rest, k) && k < |lines|
    ensures Within(lines[k], c.content)
  {
    if c.symbolType.Module? {
      var i :| 0 <= i < |rest| && rest[i] == k;
      JoinHolds(seq(|rest|, i requires 0 <= i < |rest| => lines[rest[i]]), i);
    } else {
      var end := if c.endLine <= |lines| then c.endLine else |lines|;
      var held := lines[c.startLine - 1..end];
      assert held[k - (c.startLine - 1)] == lines[k];
      JoinHolds(held, k - (c.startLine - 1));
    }
  }

  /** Every line that is not blank stands in the content of some chunk. */
  ghost predicate TextKept(lines: seq<string>, chunks: seq<Chunk>) {
    forall k :: 0 <= k < |lines| && !Blank(lines[k]) ==> exists c :: c in chunks && Within(lines[k], c.content)
  }

  lemma {:induction false} NothingLostKeepsText(lines: seq<string>, chunks: seq<Chunk>, rest: seq<nat>)
    requires NothingLost(lines, chunks, rest)
    ensures TextKept(lines, chunks)
  {
    forall k | 0 <= k < |lines| && !Blank(lines[k]) ensures exists c :: c in chunks && Within(lines[k], c.content) {
      var c :| c in chunks && HoldsLine(c, rest, k);
      HeldInContent(lines, c, rest, k);
    }
  }

  /** Every line that is not blank is held by some chunk. */
  ghost predicate NothingLost(lines: seq<string>, chunks: seq<Chunk>, rest: seq<nat>) {
    && (forall c :: c in chunks ==> Describes(lines, c, rest))
    && (forall k :: 0 <= k < |lines| && !Blank(lines[k]) ==> exists c :: c in chunks && HoldsLine(c, rest, k))
  }

  lemma {:induction false} NodeChunkDescribes(lines: seq<string>, node: Node, rest: seq<nat>, c: Chunk)
    requires c in ChunkOf(lines)(node)
    ensures IsSymbol(c.symbolType) && !Blank(c.content) && Describes(lines, c, rest)
    ensures c.startLine == node.startRow + 1 && c.endLine == node.endRow + 1 && c.symbol == node.name && c.symbolType == NodeSymbolType(node.kind)
  {
    var end := if c.endLine <= |lines| then c.endLine else |lines|;
    assert Slice(lines, node.startRow, node.endRow + 1) == if c.startLine <= end then lines[c.startLine - 1..end] else [];
  }

  /** The rows of a node that the text has. */
  function Rows(lines: seq<string>, node: Node): seq<string> {
    var end := if node.endRow + 1 <= |lines| then node.endRow + 1 else |lines|;
    if node.startRow < end then lines[node.startRow..end] else []
  }

  lemma {:induction false} NodeChunkIs(lines: seq<string>, node: Node)
    ensures NodeChunk(lines, node) == Chunk(Join(Rows(lines, node)), node.name, NodeSymbolType(node.kind), node.startRow + 1, node.endRow + 1)
    ensures Blank(NodeChunk(lines, node).content) <==> forall k :: 0 <= k < |Rows(lines, node)| ==> Blank(Rows(lines, node)[k])
  {
    assert Slice(lines, node.startRow, node.endRow + 1) == Rows(lines, node);
    JoinBlank(Rows(lines, node));
  }

  /** The symbol chunks are those of the nodes whose lines are not all blank: content, rows, name and type
      are the node's. */
  lemma {:induction false} NodeChunksMeaning(lines: seq<string>, nodes: seq<Node>, c: Chunk)
    ensures c in NodeChunks(lines, nodes) <==> exists node :: node in nodes && ChunksTo(lines, node, c)
  {
    FlatMember(ChunkOf(lines), nodes, c);
    forall node ensures c in ChunkOf(lines)(node) <==> ChunksTo(lines, node, c) {
      NodeChunkIs(lines, node);
    }
  }

  ghost predicate ChunksTo(lines: seq<string>, node: Node, c: Chunk) {
    && (exists k :: 0 <= k < |Rows(lines, node)| && !Blank(Rows(lines, node)[k]))
    && c == Chunk(Join(Rows(lines, node)), node.name, NodeSymbolType(node.kind), node.startRow + 1, node.endRow + 1)
  }

  lemma {:induction false} NodeChunksDescribe(lines: seq<string>, nodes: seq<Node>, rest: seq<nat>)
    ensures forall c :: c in NodeChunks(lines, nodes) ==> IsSymbol(c.symbolType) && !Blank(c.content) && Describes(lines, c, rest)
  {
    forall c | c in NodeChunks(lines, nodes) ensures IsSymbol(c.symbolType) && !Blank(c.content) && Describes(lines, c, rest) {
      FlatMember(ChunkOf(lines), nodes, c);
      var node :| node in nodes && c in ChunkOf(lines)(node);
      NodeChunkDescribes(lines, node, rest, c);
    }
  }

  /** The chunks of a parsed file: the outermost symbols in document order, and one module chunk of
      exactly the non-blank lines outside their rows. */
  method AstChunk(lines: seq<string>, root: Node, target: string -> bool) returns (chunks: seq<Chunk>)
    ensures var symbols := NodeChunks(lines, Outermost(root, target));
            var rest := Uncovered(lines, symbols);
            && Positions(lines, rest)
            && chunks == symbols + (if rest == [] then [] else [ModuleChunk(lines, rest)])
            && NothingLost(lines, chunks, rest)
    ensures TextKept(lines, chunks)
  {
    chunks := Visit(lines, root, target, []);
    assert chunks == NodeChunks(lines, Outermost(root, target));
    var uncovered := FindUncovered(lines, chunks);
    SymbolsAndModule(lines, Outermost(root, target));
    if uncovered != [] {
      chunks := chunks + [ModuleChunk(lines, uncovered)];
    }
    NothingLostKeepsText(lines, chunks, uncovered);
  }

  lemma {:induction false} ModuleDescribes(lines: seq<string>, rest: seq<nat>)
    requires rest != [] && Positions(lines, rest)
    ensures Describes(lines, ModuleChunk(lines, rest), rest)
  {
    assert Pick(lines, rest) == seq(|rest|, i requires 0 <= i < |rest| => lines[rest[i]]);
  }

  lemma {:induction false} CoveredIsHeld(symbols: seq<Chunk>, rest: seq<nat>, k: nat, chunks: seq<Chunk>)
    requires Covered(symbols, k) && symbols <= chunks && forall c :: c in symbols ==> IsSymbol(c.symbolType)
    ensures exists c :: c in chunks && HoldsLine(c, rest, k)
  {
    var c :| c in symbols && c.startLine <= k + 1 <= c.endLine;
    assert c in chunks && HoldsLine(c, rest, k);
  }

  lemma {:induction false} UncoveredPositions(lines: seq<string>, chunks: seq<Chunk>)
    ensures Positions(lines, Uncovered(lines, chunks))
  {
    UncoveredMeaning(lines, chunks);
    var rest := Uncovered(lines, chunks);
    forall i | 0 <= i < |rest| ensures rest[i] < |lines| { assert rest[i] in rest; }
  }

  /** The symbol chunks, followed by the module chunk if there is anything for it, lose nothing. */
  lemma {:induction false} SymbolsAndModule(lines: seq<string>, nodes: seq<Node>)
    ensures var symbols := NodeChunks(lines, nodes);
            var rest := Uncovered(lines, symbols);
            && Positions(lines, rest)
            && NothingLost(lines, symbols + if rest == [] then [] else [ModuleChunk(lines, rest)], rest)
  {
    var symbols := NodeChunks(lines, nodes);
    var rest := Uncovered(lines, symbols);
    UncoveredPositions(lines, symbols);
    NodeChunksDescribe(lines, nodes, rest);
    var chunks := symbols + if rest == [] then [] else [ModuleChunk(lines, rest)];
    NothingUncovered(lines, symbols, rest, chunks);
    forall c | c in chunks ensures Describes(lines, c, rest) {
      if c !in symbols { ModuleDescribes(lines, rest); }
    }
  }

  lemma {:induction false} NothingUncovered(lines: seq<string>, symbols: seq<Chunk>, rest: seq<nat>, chunks: seq<Chunk>)
    requires rest == Uncovered(lines, symbols) && symbols <= chunks
    requires forall c :: c in symbols ==> IsSymbol(c.symbolType)
    requires rest != [] ==> exists c :: c in chunks && c.symbolType.Module?
    ensures forall k :: 0 <= k < |lines| && !Blank(lines[k]) ==> exists c :: c in chunks && HoldsLine(c, rest, k)
  {
    UncoveredMeaning(lines, symbols);
    forall k | 0 <= k < |lines| && !Blank(lines[k]) ensures exists c :: c in chunks && HoldsLine(c, rest, k) {
      if Covered(symbols, k) {
        CoveredIsHeld(symbols, rest, k, chunks);
      } else {
        assert k in rest;
        var c :| c in chunks && c.symbolType.Module?;
        assert HoldsLine(c, rest, k);
      }
    }
  }

  // ---- Windows of lines -----------------------------------------------------------------------------

  function Window(lines: seq<string>, i: nat, size: nat): Chunk {
    Chunk(Join(Slice(lines, i, i + size)), "", Lines, i + 1, if i + size <= |lines| then i + size else |lines|)
  }

  /** The lines from `i` on where windows begin. */
  function Starts(n: nat, i: nat, step: nat): seq<nat>
    requires step > 0
    decreases n - i
  {
    if i >= n then [] else [i] + Starts(n, i + step, step)
  }

  function WindowAt(lines: seq<string>, size: nat): nat -> seq<Chunk> {
    (i: nat) => Kept(Window(lines, i, size))
  }

  /** The windows, `step` lines apart, that are not blank. */
  function Windows(lines: seq<string>, size: nat, step: nat): seq<Chunk>
    requires step > 0
  {
    Flat(WindowAt(lines, size), Starts(|lines|, 0, step))
  }

  /** Windows begin every `step` lines, as long as there are lines. */
  lemma {:induction false} StartsMeaning(n: nat, step: nat, m: nat)
    requires step > 0
    ensures var starts := Starts(n, m * step, step);
            && (forall k :: 0 <= k < |starts| ==> starts[k] == (m + k) * step < n)
            && n <= (m + |starts|) * step
    decreases n - m * step
  {
    if m * step < n {
      assert (m + 1) * step == m * step + step;
      StartsMeaning(n, step, m + 1);
      var starts, later := Starts(n, m * step, step), Starts(n, (m + 1) * step, step);
      assert starts == [m * step] + later;
      forall k | 0 <= k < |starts| ensures starts[k] == (m + k) * step < n {
        if k > 0 { assert starts[k] == later[k - 1] == (m + 1 + (k - 1)) * step; }
      }
    }
  }

  /** Some window begins within `size` lines before line `k`. */
  lemma {:induction false} StartsCover(n: nat, i: nat, step: nat, k: nat) returns (s: nat)
    requires 0 < step && i <= k < n
    ensures s in Starts(n, i, step) && s <= k < s + step
    decreases n - i
  {
    if k < i + step { s := i; } else { s := StartsCover(n, i + step, step, k); }
  }

  lemma {:induction false} StartsBelow(n: nat, i: nat, step: nat, s: nat)
    requires step > 0 && s in Starts(n, i, step)
    ensures s < n
    decreases n - i
  {
    if s != i { StartsBelow(n, i + step, step, s); }
  }

  lemma {:induction false} WindowNotBlank(lines: seq<string>, i: nat, size: nat, k: nat)
    requires i <= k < |lines| && k < i + size && !Blank(lines[k])
    ensures !Blank(Window(lines, i, size).content)
  {
    var slice := Slice(lines, i, i + size);
    JoinBlank(slice);
    assert slice[k - i] == lines[k];
  }

  lemma {:induction false} WindowsHold(lines: seq<string>, size: nat, step: nat, k: nat) returns (c: Chunk)
    requires 0 < step <= size && k < |lines| && !Blank(lines[k])
    ensures c in Windows(lines, size, step) && c.startLine <= k + 1 <= c.endLine
  {
    var i := StartsCover(|lines|, 0, step, k);
    WindowNotBlank(lines, i, size, k);
    c := Window(lines, i, size);
    assert c in WindowAt(lines, size)(i);
    FlatMember(WindowAt(lines, size), Starts(|lines|, 0, step), c);
  }

  ghost predicate IsWindow(lines: seq<string>, c: Chunk, size: nat) {
    c.symbolType.Lines? && Describes(lines, c, []) && c.endLine <= |lines| && c.endLine <= c.startLine - 1 + size
  }

  lemma {:induction false} WindowDescribes(lines: seq<string>, i: nat, size: nat)
    requires i < |lines|
    ensures IsWindow(lines, Window(lines, i, size), size)
  {
    var c := Window(lines, i, size);
    assert Slice(lines, i, i + size) == if c.startLine <= c.endLine then lines[i..c.endLine] else [];
  }

  lemma {:induction false} WindowsDescribe(lines: seq<string>, size: nat, step: nat, c: Chunk)
    requires step > 0 && c in Windows(lines, size, step)
    ensures IsWindow(lines, c, size)
  {
    FlatMember(WindowAt(lines, size), Starts(|lines|, 0, step), c);
    var i: nat :| i in Starts(|lines|, 0, step) && c in WindowAt(lines, size)(i);
    StartsBelow(|lines|, 0, step, i);
    WindowDescribes(lines, i, size);
    assert c == Window(lines, i, size);
  }

  /** The while loop over windows; `window(i)` is the chunk of the window at line `i`, if not blank. */
  method CutWindows<U>(n: nat, step: nat, window: nat -> seq<U>) returns (chunks: seq<U>)
    requires 0 < step
    ensures chunks == Flat(window, Starts(n, 0, step))
  {
    chunks := [];
    var i := 0;
    while i < n
      invariant chunks + Flat(window, Starts(n, i, step)) == Flat(window, Starts(n, 0, step))
      decreases n - i
    {
      FlatStep(window, Starts(n, i, step), chunks);
      chunks := chunks + window(i);
      i := i + step;
    }
  }

  /** The fallback; the original always uses size 100 and overlap 10. */
  method LineChunk(text: string, lines: seq<string>, size: nat, overlap: nat) returns (chunks: seq<Chunk>)
    requires overlap < size && lines == SplitKeepEnds(text)
    ensures var windows := Windows(lines, size, size - overlap);
            chunks == if windows != [] then windows else [Chunk(text, "", Lines, 1, |lines|)]
    ensures NothingLost(lines, chunks, []) && TextKept(lines, chunks)
  {
    chunks := CutWindows(|lines|, size - overlap, WindowAt(lines, size));
    if chunks == [] {
      WholeText(text, lines);
      chunks := [Chunk(text, "", Lines, 1, |lines|)];
    } else {
      WindowsKeepAll(lines, size, size - overlap);
    }
    NothingLostKeepsText(lines, chunks, []);
  }

  lemma {:induction false} WholeText(text: string, lines: seq<string>)
    requires lines == SplitKeepEnds(text)
    ensures NothingLost(lines, [Chunk(text, "", Lines, 1, |lines|)], [])
  {
    JoinSplit(text, "");
    assert lines[0..|lines|] == lines;
    var c := Chunk(text, "", Lines, 1, |lines|);
    assert Describes(lines, c, []);
    forall k | 0 <= k < |lines| && !Blank(lines[k]) ensures exists c :: c in [Chunk(text, "", Lines, 1, |lines|)] && HoldsLine(c, [], k) {
      assert c in [c] && HoldsLine(c, [], k);
    }
  }

  lemma {:induction false} WindowsKeepAll(lines: seq<string>, size: nat, step: nat)
    requires 0 < step <= size
    ensures NothingLost(lines, Windows(lines, size, step), [])
  {
    forall c | c in Windows(lines, size, step) ensures Describes(lines, c, []) {
      WindowsDescribe(lines, size, step, c);
    }
    forall k | 0 <= k < |lines| && !Blank(lines[k]) ensures exists c :: c in Windows(lines, size, step) && HoldsLine(c, [], k) {
      var c := WindowsHold(lines, size, step, k);
      assert HoldsLine(c, [], k);
    }
  }

  /** Keeping the ends, the lines of a text make up the text. */
  lemma {:induction false} JoinSplit(s: string, current: string)
    ensures Join(SplitKeepFrom(s, current)) == current + s
    decreases |s|
  {
    if s == "" {
      if current != "" { assert [current][..0] == []; }
    } else if IsBreak(s[0]) {
      JoinSplit(s[BreakLength(s)..], "");
      JoinFirst(current + s[..BreakLength(s)], SplitKeepFrom(s[BreakLength(s)..], ""));
      Cut(current, s, BreakLength(s));
    } else {
      JoinSplit(s[1..], current + [s[0]]);
      Cut(current, s, 1);
    }
  }

  lemma {:induction false} JoinFirst(line: string, later: seq<string>)
    ensures Join([line] + later) == line + Join(later)
  {
    JoinConcat([line], later);
    assert [line][..0] == [];
    assert Join([line]) == line;
  }

  lemma {:induction false} Cut(a: string, s: string, n: nat)
    requires n <= |s|
    ensures (a + s[..n]) + s[n..] == a + s
  {
  }

  // ---- chunk_file --------------------------------------------------------------------------------------

  /** `tree` is None when the language is unknown, or its parser is missing or fails. */
  method ChunkFile(text: string, tree: Option<Node>, target: string -> bool) returns (chunks: seq<Chunk>)
    ensures |chunks| >= 1
    ensures exists rest :: NothingLost(SplitKeepEnds(text), chunks, rest)
    ensures TextKept(SplitKeepEnds(text), chunks)
    ensures var lines := SplitKeepEnds(text);
            var symbols := if tree.Some? then NodeChunks(lines, Outermost(tree.value, target)) else [];
            var rest := Uncovered(lines, symbols);
            && (tree.Some? && rest == [] && symbols != [] ==> chunks == symbols)
            && (tree.Some? && rest != [] ==> |chunks| == |symbols| + 1 && symbols <= chunks && Describes(lines, chunks[|symbols|], rest) && chunks[|symbols|].symbolType.Module?)
            && (tree.None? || (rest == [] && symbols == []) ==> forall c :: c in chunks ==> c.symbolType.Lines?)
  {
    var lines := SplitKeepEnds(text);
    if tree.Some? {
      chunks := AstChunk(lines, tree.value, target);
      if chunks != [] {
        assert chunks[|chunks| - 1] in chunks;
        return;
      }
    }
    chunks := LineChunk(text, lines, 100, 10);
    forall c | c in chunks ensures c.symbolType.Lines? { if c in Windows(lines, 100, 90) { WindowsDescribe(lines, 100, 90, c); } }
  }
}
