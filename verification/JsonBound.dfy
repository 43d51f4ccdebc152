/** `_bounded_json` of research_evidence.py: a stack walk that refuses recursive, huge or non-JSON
    values before they are serialised.

    The walked value is a graph of live objects, so it may share parts and may even contain itself;
    the reference definition unfolds it as a tree. */
module JsonBound {
  import opened Common

  const MAX_NODES: nat := 10_000
  const MAX_DEPTH: nat := 32
  const MAX_BYTES: nat := 262_144

  type Ref = nat

  /** An object key: exactly a string, or anything else a mapping can hold. */
  datatype ObjectKey = Text(text: string) | Foreign

  datatype Cell =
    | Plain
    | Float(finite: bool)
    | Str(text: string)
    | List(items: seq<Ref>)
    | Dict(keys: seq<ObjectKey>, values: seq<Ref>)
    | Exotic

  type Heap = map<Ref, Cell>

  function At(h: Heap, r: Ref): Cell {
    if r in h then h[r] else Exotic
  }

  /** The length of one character in UTF-8. */
  function CharBytes(c: char): nat {
    if c < '\U{0080}' then 1 else if c < '\U{0800}' then 2 else if c < '\U{010000}' then 3 else 4
  }

  function Utf8Length(s: string): nat {
    if s == [] then 0 else Utf8Length(s[..|s| - 1]) + CharBytes(s[|s| - 1])
  }

  function KeyBytes(keys: seq<ObjectKey>, n: nat): nat
    requires n <= |keys|
  {
    if n == 0 then 0 else KeyBytes(keys, n - 1) + if keys[n - 1].Text? then Utf8Length(keys[n - 1].text) else 0
  }

  function Children(c: Cell): seq<Ref> {
    match c case List(items) => items case Dict(_, values) => values case _ => []
  }

  function OwnBytes(c: Cell): nat {
    match c case Str(text) => Utf8Length(text) case Dict(keys, _) => KeyBytes(keys, |keys|) case _ => 0
  }

  predicate TextKeys(keys: seq<ObjectKey>) {
    forall i :: 0 <= i < |keys| ==> keys[i].Text?
  }

  predicate CellOk(c: Cell) {
    match c case Float(finite) => finite case Dict(keys, _) => TextKeys(keys) case Exotic => false case _ => true
  }

  // ---- The reference definition ---------------------------------------------------------

  /** Every node of the unfolded tree is JSON and none lies deeper than the bound. */
  predicate Fits(h: Heap, r: Ref, depth: nat)
    decreases MAX_DEPTH + 1 - depth, 0
  {
    depth <= MAX_DEPTH && CellOk(At(h, r)) && AllFit(h, Children(At(h, r)), depth + 1)
  }

  predicate AllFit(h: Heap, refs: seq<Ref>, depth: nat)
    decreases MAX_DEPTH + 1 - depth, |refs| + 1
  {
    refs != [] ==> AllFit(h, refs[..|refs| - 1], depth) && Fits(h, refs[|refs| - 1], depth)
  }

  /** The nodes of the unfolded tree; one too deep is counted but not opened. */
  function Nodes(h: Heap, r: Ref, depth: nat): (n: nat)
    ensures n >= 1
    decreases MAX_DEPTH + 1 - depth, 0
  {
    if depth > MAX_DEPTH then 1 else 1 + AllNodes(h, Children(At(h, r)), depth + 1)
  }

  function AllNodes(h: Heap, refs: seq<Ref>, depth: nat): nat
    decreases MAX_DEPTH + 1 - depth, |refs| + 1
  {
    if refs == [] then 0 else AllNodes(h, refs[..|refs| - 1], depth) + Nodes(h, refs[|refs| - 1], depth)
  }

  function Bytes(h: Heap, r: Ref, depth: nat): nat
    decreases MAX_DEPTH + 1 - depth, 0
  {
    if depth > MAX_DEPTH then 0 else OwnBytes(At(h, r)) + AllBytes(h, Children(At(h, r)), depth + 1)
  }

  function AllBytes(h: Heap, refs: seq<Ref>, depth: nat): nat
    decreases MAX_DEPTH + 1 - depth, |refs| + 1
  {
    if refs == [] then 0 else AllBytes(h, refs[..|refs| - 1], depth) + Bytes(h, refs[|refs| - 1], depth)
  }

  ghost predicate Bounded(h: Heap, root: Ref) {
    Fits(h, root, 0) && Nodes(h, root, 0) <= MAX_NODES && Bytes(h, root, 0) <= MAX_BYTES
  }

  // ---- No recursive value is accepted ---------------------------------------------------

  /** `path` walks from parent to child. */
  predicate IsPath(h: Heap, path: seq<Ref>) {
    path != [] && forall i :: 0 <= i < |path| - 1 ==> path[i + 1] in Children(At(h, path[i]))
  }

  lemma {:induction false} ChildFits(h: Heap, refs: seq<Ref>, depth: nat, r: Ref)
    requires AllFit(h, refs, depth) && r in refs
    ensures Fits(h, r, depth)
    decreases |refs|
  {
    if r != refs[|refs| - 1] {
      assert r in refs[..|refs| - 1];
      ChildFits(h, refs[..|refs| - 1], depth, r);
    }
  }

  /** Every path in a fitting value stays within the depth bound. */
  lemma {:induction false} PathsAreShort(h: Heap, path: seq<Ref>, depth: nat)
    requires IsPath(h, path) && Fits(h, path[0], depth)
    ensures depth + |path| - 1 <= MAX_DEPTH
    decreases |path|
  {
    if |path| > 1 {
      ChildFits(h, Children(At(h, path[0])), depth + 1, path[1]);
      assert IsPath(h, path[1..]) by {
        forall i | 0 <= i < |path[1..]| - 1
          ensures path[1..][i + 1] in Children(At(h, path[1..][i]))
        {
          assert path[i + 1 + 1] in Children(At(h, path[i + 1]));
        }
      }
      PathsAreShort(h, path[1..], depth + 1);
    }
  }

  /** A cycle walked `n` times. */
  function Around(cycle: seq<Ref>, n: nat): seq<Ref>
    requires cycle != []
  {
    if n == 0 then [cycle[0]] else Around(cycle, n - 1) + cycle[1..]
  }

  lemma {:induction false} AroundIsPath(h: Heap, cycle: seq<Ref>, n: nat)
    requires IsPath(h, cycle) && |cycle| > 1 && cycle[0] == cycle[|cycle| - 1]
    ensures var p := Around(cycle, n); IsPath(h, p) && p[0] == cycle[0] && p[|p| - 1] == cycle[0] && |p| > n
    decreases n
  {
    if n > 0 {
      AroundIsPath(h, cycle, n - 1);
      JoinPaths(h, Around(cycle, n - 1), cycle);
    }
  }

  lemma JoinPaths(h: Heap, a: seq<Ref>, b: seq<Ref>)
    requires IsPath(h, a) && IsPath(h, b) && a[|a| - 1] == b[0]
    ensures IsPath(h, a + b[1..])
  {
    var p := a + b[1..];
    forall i | 0 <= i < |p| - 1
      ensures p[i + 1] in Children(At(h, p[i]))
    {
      if i < |a| - 1 {
        assert a[i + 1] in Children(At(h, a[i]));
      } else {
        var j := i - (|a| - 1);
        assert p[i] == b[j] && p[i + 1] == b[j + 1];
        assert b[j + 1] in Children(At(h, b[j]));
      }
    }
  }

  /** A value that contains itself, however deep inside, is refused. */
  lemma RecursiveValuesAreRefused(h: Heap, path: seq<Ref>, cycle: seq<Ref>)
    requires IsPath(h, path) && IsPath(h, cycle) && |cycle| > 1
    requires path[|path| - 1] == cycle[0] && cycle[0] == cycle[|cycle| - 1]
    ensures !Bounded(h, path[0])
  {
    AroundIsPath(h, cycle, MAX_DEPTH + 1);
    var long := path + Around(cycle, MAX_DEPTH + 1)[1..];
    JoinPaths(h, path, Around(cycle, MAX_DEPTH + 1));
    if Fits(h, path[0], 0) {
      PathsAreShort(h, long, 0);
    }
  }

  // ---- The walk -------------------------------------------------------------------------

  datatype Entry = Entry(ref: Ref, depth: nat)

  predicate StackFits(h: Heap, stack: seq<Entry>) {
    stack != [] ==> StackFits(h, stack[..|stack| - 1]) && Fits(h, stack[|stack| - 1].ref, stack[|stack| - 1].depth)
  }

  function StackNodes(h: Heap, stack: seq<Entry>): nat {
    if stack == [] then 0
    else StackNodes(h, stack[..|stack| - 1]) + Nodes(h, stack[|stack| - 1].ref, stack[|stack| - 1].depth)
  }

  function StackBytes(h: Heap, stack: seq<Entry>): nat {
    if stack == [] then 0
    else StackBytes(h, stack[..|stack| - 1]) + Bytes(h, stack[|stack| - 1].ref, stack[|stack| - 1].depth)
  }

  function Entries(refs: seq<Ref>, depth: nat): (e: seq<Entry>)
    ensures |e| == |refs|
  {
    if refs == [] then [] else Entries(refs[..|refs| - 1], depth) + [Entry(refs[|refs| - 1], depth)]
  }

  /** Pushing a node's children puts exactly the node's remainder on the stack. */
  lemma {:induction false} PushChildren(h: Heap, stack: seq<Entry>, refs: seq<Ref>, depth: nat)
    ensures var pushed := stack + Entries(refs, depth);
            && (StackFits(h, pushed) <==> StackFits(h, stack) && AllFit(h, refs, depth))
            && StackNodes(h, pushed) == StackNodes(h, stack) + AllNodes(h, refs, depth)
            && StackBytes(h, pushed) == StackBytes(h, stack) + AllBytes(h, refs, depth)
    decreases |refs|
  {
    var pushed := stack + Entries(refs, depth);
    if refs == [] {
      assert pushed == stack;
    } else {
      PushChildren(h, stack, refs[..|refs| - 1], depth);
      assert pushed[..|pushed| - 1] == stack + Entries(refs[..|refs| - 1], depth);
    }
  }

  /** `_bounded_json`: terminates on every value, and accepts exactly the bounded ones. */
  method BoundedJson(h: Heap, root: Ref) returns (ok: bool)
    ensures ok <==> Bounded(h, root)
  {
    var pending := [Entry(root, 0)];
    var visited, bytes := 0, 0;
    assert pending[..0] == [];
    while pending != []
      invariant visited <= MAX_NODES && bytes <= MAX_BYTES
      invariant visited + StackNodes(h, pending) == Nodes(h, root, 0)
      invariant bytes + StackBytes(h, pending) == Bytes(h, root, 0)
      invariant StackFits(h, pending) <==> Fits(h, root, 0)
      decreases MAX_NODES - visited
    {
      var node := pending[|pending| - 1];
      pending := pending[..|pending| - 1];
      visited := visited + 1;
      if visited > MAX_NODES || node.depth > MAX_DEPTH {
        return false;
      }
      var cell := At(h, node.ref);
      if !CellOk(cell) {
        return false;
      }
      PushChildren(h, pending, Children(cell), node.depth + 1);
      pending := pending + Entries(Children(cell), node.depth + 1);
      bytes := bytes + OwnBytes(cell);
      if bytes > MAX_BYTES {
        return false;
      }
    }
    ok := true;
  }
}
