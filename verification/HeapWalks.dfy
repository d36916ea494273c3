/**
 Two walks over an arbitrary graph of objects. One copies plain data and meets no object twice; the
 other only checks, and lets an object be met again when it is not below itself.
 */
module HeapWalks {
  import opened Results

  type Address = nat

  /** A value: a string, boolean, null or finite number; anything else that is not an object; or an object. */
  datatype Val = Atom(text: string) | Unsafe | Ref(address: Address)

  datatype Slot = Slot(key: string, value: Val)

  /** An object: a dense array, a record of plain data fields with or without a prototype, or anything else. */
  datatype Cell = ArrayCell(items: seq<Val>) | RecordCell(fields: seq<Slot>, nullPrototype: bool) | Exotic

  type Heap = map<Address, Cell>

  datatype Tree = Leaf(text: string) | Node(isArray: bool, keys: seq<string>, children: seq<Tree>)

  /** What a walk allows. */
  datatype Limits = Limits(depth: nat, nodes: nat, arrayLength: nat, objectKeys: nat, nullPrototypes: bool)

  const CLONE_LIMITS := Limits(64, 10_000, 2_048, 512, false)
  const PLAIN_LIMITS := Limits(64, 20_000, 4_096, 512, true)

  /** The values in an object, and the keys they are under; arrays have none. */
  function Values(c: Cell): seq<Val> {
    match c
    case ArrayCell(items) => items
    case RecordCell(fields, _) => seq(|fields|, i requires 0 <= i < |fields| => fields[i].value)
    case Exotic => []
  }

  function Keys(c: Cell): seq<string> {
    match c
    case RecordCell(fields, _) => seq(|fields|, i requires 0 <= i < |fields| => fields[i].key)
    case _ => []
  }

  /** The shape of one object is within the limits. */
  predicate CellOk(l: Limits, c: Cell) {
    match c
    case ArrayCell(items) => |items| <= l.arrayLength
    case RecordCell(fields, nullPrototype) => |fields| <= l.objectKeys && (nullPrototype ==> l.nullPrototypes)
    case Exotic => false
  }

  // The walks.

  datatype Cloned = Cloned(tree: Tree, seen: set<Address>, nodes: nat) | CloneRefused

  datatype ClonedList = ClonedList(trees: seq<Tree>, seen: set<Address>, nodes: nat) | ListRefused

  /** `clonePlainData`: the objects seen are never forgotten. */
  function Clone(l: Limits, h: Heap, v: Val, seen: set<Address>, nodes: nat, depth: nat): Cloned
    decreases if depth > l.depth then 0 else l.depth + 1 - depth, 0
  {
    if nodes + 1 > l.nodes || depth > l.depth then CloneRefused
    else
      match v
      case Atom(text) => Cloned(Leaf(text), seen, nodes + 1)
      case Unsafe => CloneRefused
      case Ref(a) =>
        if a !in h || a in seen || !CellOk(l, h[a]) then CloneRefused
        else
          var r := CloneAll(l, h, Values(h[a]), seen + {a}, nodes + 1, depth + 1);
          if r.ListRefused? then CloneRefused else Cloned(Node(h[a].ArrayCell?, Keys(h[a]), r.trees), r.seen, r.nodes)
  }

  function CloneAll(l: Limits, h: Heap, vs: seq<Val>, seen: set<Address>, nodes: nat, depth: nat): ClonedList
    decreases if depth > l.depth then 0 else l.depth + 1 - depth, 1 + |vs|
  {
    if vs == [] then ClonedList([], seen, nodes)
    else
      var init := CloneAll(l, h, vs[..|vs| - 1], seen, nodes, depth);
      if init.ListRefused? then ListRefused
      else
        var last := Clone(l, h, vs[|vs| - 1], init.seen, init.nodes, depth);
        if last.CloneRefused? then ListRefused else ClonedList(init.trees + [last.tree], last.seen, last.nodes)
  }

  datatype Checked = Checked(nodes: nat) | CheckRefused

  /** `assertPlain`: the objects seen are those above the value. */
  function Check(l: Limits, h: Heap, v: Val, seen: set<Address>, nodes: nat, depth: nat): Checked
    decreases if depth > l.depth then 0 else l.depth + 1 - depth, 0
  {
    if nodes + 1 > l.nodes || depth > l.depth then CheckRefused
    else
      match v
      case Atom(_) => Checked(nodes + 1)
      case Unsafe => CheckRefused
      case Ref(a) =>
        if a !in h || a in seen || !CellOk(l, h[a]) then CheckRefused
        else CheckAll(l, h, Values(h[a]), seen + {a}, nodes + 1, depth + 1)
  }

  function CheckAll(l: Limits, h: Heap, vs: seq<Val>, seen: set<Address>, nodes: nat, depth: nat): Checked
    decreases if depth > l.depth then 0 else l.depth + 1 - depth, 1 + |vs|
  {
    if vs == [] then Checked(nodes)
    else
      var init := CheckAll(l, h, vs[..|vs| - 1], seen, nodes, depth);
      if init.CheckRefused? then CheckRefused else Check(l, h, vs[|vs| - 1], seen, init.nodes, depth)
  }

  /** The state that both walks share over their recursive calls. */
  class WalkState {
    var seen: set<Address>
    var nodes: nat

    constructor ()
      ensures seen == {} && nodes == 0
    {
      seen, nodes := {}, 0;
    }

    method ClonePlainData(l: Limits, h: Heap, v: Val, depth: nat) returns (tree: Option<Tree>)
      modifies this
      ensures Clone(l, h, v, old(seen), old(nodes), depth)
           == if tree.Some? then Cloned(tree.value, seen, nodes) else CloneRefused
      decreases if depth > l.depth then 0 else l.depth + 1 - depth
    {
      hide CellOk;
      if nodes + 1 > l.nodes || depth > l.depth {
        return None;
      }
      nodes := nodes + 1;
      match v {
        case Atom(text) => return Some(Leaf(text));
        case Unsafe => return None;
        case Ref(a) =>
          if a !in h || a in seen || !CellOk(l, h[a]) {
            return None;
          }
          seen := seen + {a};
          var vs := Values(h[a]);
          var trees: seq<Tree> := [];
          var n := 0;
          ghost var before, started := seen, nodes;
          assert vs[..0] == [];
          while n < |vs|
            invariant 0 <= n <= |vs|
            invariant CloneAll(l, h, vs[..n], before, started, depth + 1) == ClonedList(trees, seen, nodes)
          {
            assert vs[..n + 1][..n] == vs[..n];
            var child := ClonePlainData(l, h, vs[n], depth + 1);
            if child.None? {
              RefusedAll(l, h, vs, before, started, depth + 1, n + 1);
              return None;
            }
            trees := trees + [child.value];
            n := n + 1;
          }
          assert vs[..n] == vs;
          return Some(Node(h[a].ArrayCell?, Keys(h[a]), trees));
      }
    }

    method AssertPlain(l: Limits, h: Heap, v: Val, depth: nat) returns (ok: bool)
      modifies this
      ensures Check(l, h, v, old(seen), old(nodes), depth) == (if ok then Checked(nodes) else CheckRefused)
      ensures ok ==> seen == old(seen)
      decreases if depth > l.depth then 0 else l.depth + 1 - depth
    {
      hide CellOk;
      if nodes + 1 > l.nodes || depth > l.depth {
        return false;
      }
      nodes := nodes + 1;
      match v {
        case Atom(_) => return true;
        case Unsafe => return false;
        case Ref(a) =>
          if a !in h || a in seen || !CellOk(l, h[a]) {
            return false;
          }
          seen := seen + {a};
          var vs := Values(h[a]);
          var n := 0;
          ghost var inside, started := seen, nodes;
          assert vs[..0] == [];
          while n < |vs|
            invariant 0 <= n <= |vs| && seen == inside
            invariant CheckAll(l, h, vs[..n], inside, started, depth + 1) == Checked(nodes)
          {
            assert vs[..n + 1][..n] == vs[..n];
            var child := AssertPlain(l, h, vs[n], depth + 1);
            if !child {
              UncheckedAll(l, h, vs, inside, started, depth + 1, n + 1);
              return false;
            }
            n := n + 1;
          }
          assert vs[..n] == vs;
          seen := seen - {a};
          return true;
      }
    }
  }

  lemma {:induction false} RefusedAll(l: Limits, h: Heap, vs: seq<Val>, seen: set<Address>, nodes: nat,
                                      depth: nat, m: nat)
    requires m <= |vs| && CloneAll(l, h, vs[..m], seen, nodes, depth).ListRefused?
    ensures CloneAll(l, h, vs, seen, nodes, depth).ListRefused?
  {
    hide Clone;
    if m < |vs| {
      assert vs[..|vs| - 1][..m] == vs[..m];
      RefusedAll(l, h, vs[..|vs| - 1], seen, nodes, depth, m);
    } else {
      assert vs[..m] == vs;
    }
  }

  lemma {:induction false} UncheckedAll(l: Limits, h: Heap, vs: seq<Val>, seen: set<Address>, nodes: nat,
                                        depth: nat, m: nat)
    requires m <= |vs| && CheckAll(l, h, vs[..m], seen, nodes, depth).CheckRefused?
    ensures CheckAll(l, h, vs, seen, nodes, depth).CheckRefused?
  {
    hide Check;
    if m < |vs| {
      assert vs[..|vs| - 1][..m] == vs[..m];
      UncheckedAll(l, h, vs[..|vs| - 1], seen, nodes, depth, m);
    } else {
      assert vs[..m] == vs;
    }
  }
}
