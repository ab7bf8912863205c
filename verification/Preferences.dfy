/**
 User preferences: the explicit-stack walk that bounds nesting and refuses NUL characters, and the
 merge of an accepted patch into what is stored.
 */
module Preferences {

  datatype Json = Null | Bool(b: bool) | Num(n: int) | Str(s: string) | Arr(items: seq<Json>) | Obj(members: seq<Member>)

  datatype Member = Member(key: string, value: Json)

  const NUL := '\0'

  predicate HasNul(s: string) { NUL in s }

  ghost predicate Below(children: seq<Json>, v: Json) {
    forall i | 0 <= i < |children| :: children[i] < v
  }

  function Children(v: Json): (r: seq<Json>)
    ensures Below(r, v)
  {
    match v
    case Arr(items) => items
    case Obj(members) => seq(|members|, i requires 0 <= i < |members| => members[i].value)
    case _ => []
  }

  predicate Container(v: Json) { v.Arr? || v.Obj? }

  // ---------------------------------------------------------------- the specification

  function Max(a: nat, b: nat): nat { if a >= b then a else b }

  /** How deep containers nest. */
  function Depth(v: Json): nat {
    if Container(v) then 1 + Deepest(v, Children(v)) else 0
  }

  function Deepest(v: Json, children: seq<Json>): (d: nat)
    requires Below(children, v)
    decreases v, |children|
  {
    if children == [] then 0 else Max(Depth(children[0]), Deepest(v, children[1..]))
  }

  /** No NUL in any key or string, at any depth. */
  predicate Clean(v: Json)
    decreases v
  {
    && (v.Str? ==> !HasNul(v.s))
    && (v.Obj? ==> forall i | 0 <= i < |v.members| :: !HasNul(v.members[i].key))
    && (forall i | 0 <= i < |Children(v)| :: Clean(Children(v)[i]))
  }

  lemma {:induction false} DeepestIsMax(v: Json, children: seq<Json>, room: int)
    requires Below(children, v) && room >= 0
    ensures Deepest(v, children) <= room <==> forall i | 0 <= i < |children| :: Depth(children[i]) <= room
    decreases |children|
  {
    if children != [] {
      DeepestIsMax(v, children[1..], room);
      assert forall i | 1 <= i < |children| :: children[i] == children[1..][i - 1];
      assert Deepest(v, children) == Max(Depth(children[0]), Deepest(v, children[1..]));
    }
  }

  // ---------------------------------------------------------------- the walk

  datatype Verdict = Fine | TooDeep | NulFound

  /** Nodes of a tree, itself included. */
  function Size(v: Json): nat {
    1 + Sizes(v, Children(v))
  }

  function Sizes(v: Json, children: seq<Json>): nat
    requires Below(children, v)
    decreases v, |children|
  {
    if children == [] then 0 else Size(children[0]) + Sizes(v, children[1..])
  }

  datatype Item = Item(node: Json, depth: nat)

  /** Nodes still under the stack: what the walk uses up. */
  function Pending(stack: seq<Item>): nat {
    if stack == [] then 0 else Pending(stack[..|stack| - 1]) + Size(stack[|stack| - 1].node)
  }

  lemma PendingOne(stack: seq<Item>, item: Item)
    ensures Pending(stack + [item]) == Pending(stack) + Size(item.node)
  {
    assert (stack + [item])[..|stack|] == stack;
  }

  lemma PushedCons(children: seq<Json>, stack: seq<Item>, depth: nat)
    requires children != []
    ensures stack + Pushed(children, depth) == stack + [Item(children[0], depth)] + Pushed(children[1..], depth)
  {
  }

  lemma {:induction false} PendingSnoc(v: Json, children: seq<Json>, stack: seq<Item>, depth: nat)
    requires Below(children, v)
    ensures Pending(stack + Pushed(children, depth)) == Pending(stack) + Sizes(v, children)
    decreases |children|
  {
    if children == [] {
      assert stack + Pushed(children, depth) == stack;
    } else {
      var one := stack + [Item(children[0], depth)];
      PendingOne(stack, Item(children[0], depth));
      PushedCons(children, stack, depth);
      PendingSnoc(v, children[1..], one, depth);
    }
  }

  function Pushed(children: seq<Json>, depth: nat): seq<Item> {
    seq(|children|, i requires 0 <= i < |children| => Item(children[i], depth))
  }

  /** A node at `depth` does not take nesting past the limit. */
  predicate Shallow(t: Item, limit: nat) {
    Container(t.node) ==> t.depth + Depth(t.node) - 1 <= limit
  }

  predicate AllShallow(stack: seq<Item>, limit: nat) {
    forall i | 0 <= i < |stack| :: Shallow(stack[i], limit)
  }

  predicate AllClean(stack: seq<Item>) {
    forall i | 0 <= i < |stack| :: Clean(stack[i].node)
  }

  predicate KeysClean(v: Json) {
    v.Obj? ==> forall i | 0 <= i < |v.members| :: !HasNul(v.members[i].key)
  }

  /** A container is shallow iff it is not itself too deep and its children, one deeper, are. */
  lemma ShallowByChildren(t: Item, limit: nat)
    requires Container(t.node)
    ensures Shallow(t, limit) <==> t.depth <= limit && AllShallow(Pushed(Children(t.node), t.depth + 1), limit)
  {
    var children := Children(t.node);
    var pushed := Pushed(children, t.depth + 1);
    if t.depth <= limit {
      DeepestIsMax(t.node, children, limit - t.depth);
      assert forall i | 0 <= i < |children| :: Shallow(pushed[i], limit) <==> Depth(children[i]) <= limit - t.depth;
    }
  }

  /** Replacing a container by its children loses and adds nothing, and uses the container up. */
  lemma Expand(rest: seq<Item>, t: Item, limit: nat)
    requires Container(t.node) && t.depth <= limit && KeysClean(t.node)
    ensures var pushed := Pushed(Children(t.node), t.depth + 1);
            && (AllShallow(rest + pushed, limit) <==> AllShallow(rest + [t], limit))
            && (AllClean(rest + pushed) <==> AllClean(rest + [t]))
            && Pending(rest + pushed) < Pending(rest + [t])
  {
    var pushed := Pushed(Children(t.node), t.depth + 1);
    ShallowByChildren(t, limit);
    CleanByChildren(t);
    SplitStack(rest, pushed, limit);
    OnTop(rest, t, limit);
    PendingSnoc(t.node, Children(t.node), rest, t.depth + 1);
  }

  lemma CleanByChildren(t: Item)
    requires Container(t.node) && KeysClean(t.node)
    ensures AllClean(Pushed(Children(t.node), t.depth + 1)) <==> Clean(t.node)
  {
    var pushed := Pushed(Children(t.node), t.depth + 1);
    assert forall i | 0 <= i < |pushed| :: pushed[i].node == Children(t.node)[i];
  }

  lemma OnTop(rest: seq<Item>, t: Item, limit: nat)
    ensures AllShallow(rest + [t], limit) <==> AllShallow(rest, limit) && Shallow(t, limit)
    ensures AllClean(rest + [t]) <==> AllClean(rest) && Clean(t.node)
    ensures Pending(rest + [t]) == Pending(rest) + Size(t.node)
  {
    var all := rest + [t];
    assert all[..|all| - 1] == rest;
    assert all[|rest|] == t && forall i | 0 <= i < |rest| :: all[i] == rest[i];
  }

  lemma SplitStack(a: seq<Item>, b: seq<Item>, limit: nat)
    ensures AllShallow(a + b, limit) <==> AllShallow(a, limit) && AllShallow(b, limit)
    ensures AllClean(a + b) <==> AllClean(a) && AllClean(b)
  {
    assert forall i | 0 <= i < |a| :: (a + b)[i] == a[i];
    assert forall i | 0 <= i < |b| :: (a + b)[|a| + i] == b[i];
  }

  lemma PopLeaf(rest: seq<Item>, t: Item, limit: nat)
    requires !Container(t.node) && Clean(t.node)
    ensures (AllShallow(rest, limit) <==> AllShallow(rest + [t], limit)) && (AllClean(rest) <==> AllClean(rest + [t]))
    ensures Pending(rest) < Pending(rest + [t])
  {
    OnTop(rest, t, limit);
  }

  lemma ConcatOne(a: seq<Item>, b: seq<Item>, item: Item)
    requires Pending(a + b) == Pending(a) + Pending(b)
    ensures Pending(a + (b + [item])) == Pending(a) + Pending(b + [item])
  {
    assert a + (b + [item]) == (a + b) + [item];
    PendingOne(a + b, item);
    PendingOne(b, item);
  }

  lemma {:induction false} PendingConcat(a: seq<Item>, b: seq<Item>)
    ensures Pending(a + b) == Pending(a) + Pending(b)
    decreases |b|
  {
    if b == [] {
      assert a + b == a;
    } else {
      var init, last := b[..|b| - 1], b[|b| - 1];
      PendingConcat(a, init);
      ConcatOne(a, init, last);
      assert b == init + [last];
    }
  }

  function Without(stack: seq<Item>, i: nat): seq<Item>
    requires i < |stack|
  {
    stack[..i] + stack[i + 1..]
  }

  lemma SwapParts(before: seq<Item>, a: seq<Item>, b: seq<Item>, limit: nat)
    ensures AllShallow(before + (a + b), limit) <==> AllShallow(before + (b + a), limit)
    ensures AllClean(before + (a + b)) <==> AllClean(before + (b + a))
  {
    SplitStack(before, a + b, limit);
    SplitStack(before, b + a, limit);
    SplitStack(a, b, limit);
    SplitStack(b, a, limit);
  }

  lemma SwapPending(before: seq<Item>, a: seq<Item>, b: seq<Item>)
    ensures Pending(before + (a + b)) == Pending(before + (b + a))
  {
    PendingConcat(before, a + b);
    PendingConcat(before, b + a);
    PendingConcat(a, b);
    PendingConcat(b, a);
  }

  lemma CutAt(stack: seq<Item>, i: nat)
    requires i < |stack|
    ensures stack[..i] + ([stack[i]] + stack[i + 1..]) == stack
    ensures stack[..i] + (stack[i + 1..] + [stack[i]]) == Without(stack, i) + [stack[i]]
  {
  }

  /** Whichever item is taken, it might as well have been on top. */
  lemma AnyItem(stack: seq<Item>, i: nat, limit: nat)
    requires i < |stack|
    ensures var onTop := Without(stack, i) + [stack[i]];
            && (AllShallow(onTop, limit) <==> AllShallow(stack, limit)) && (AllClean(onTop) <==> AllClean(stack))
            && Pending(onTop) == Pending(stack)
  {
    var before, one, after := stack[..i], [stack[i]], stack[i + 1..];
    CutAt(stack, i);
    SwapParts(before, one, after, limit);
    SwapPending(before, one, after);
  }

  /** The walk with its own stack: it takes the last item. */
  method CheckShape(value: Json, limit: nat) returns (r: Verdict)
    ensures r.Fine? <==> Depth(value) <= limit && Clean(value)
    ensures r.TooDeep? ==> Depth(value) > limit
    ensures r.NulFound? ==> !Clean(value)
  {
    r := Walk(value, limit, (n: nat) => if n > 0 then n - 1 else 0);
  }

  /** In whatever order items are taken, the walk refuses exactly the trees that nest too deep or carry
      a NUL, and says truthfully which. */
  method Walk(value: Json, limit: nat, next: nat -> nat) returns (r: Verdict)
    requires forall n: nat | n > 0 :: next(n) < n
    ensures r.Fine? <==> Depth(value) <= limit && Clean(value)
    ensures r.TooDeep? ==> Depth(value) > limit
    ensures r.NulFound? ==> !Clean(value)
  {
    var stack := [Item(value, 1)];
    while stack != []
      invariant AllShallow(stack, limit) <==> Depth(value) <= limit
      invariant AllClean(stack) <==> Clean(value)
      decreases Pending(stack)
    {
      var i := next(|stack|);
      var t, rest := stack[i], Without(stack, i);
      AnyItem(stack, i, limit);
      OnTop(rest, t, limit);
      if Container(t.node) {
        if t.depth > limit { return TooDeep; }
        if t.node.Obj? && exists i | 0 <= i < |t.node.members| :: HasNul(t.node.members[i].key) { return NulFound; }
        Expand(rest, t, limit);
        stack := rest + Pushed(Children(t.node), t.depth + 1);
      } else {
        if t.node.Str? && HasNul(t.node.s) { return NulFound; }
        PopLeaf(rest, t, limit);
        stack := rest;
      }
    }
    r := Fine;
  }

  // ---------------------------------------------------------------- merging a patch

  /** Top-level merge: a listed key is replaced where it stands, a new one is appended. */
  function Merge(stored: seq<Member>, patch: seq<Member>): seq<Member>
    decreases |patch|
  {
    if patch == [] then stored
    else Merge(Put(stored, patch[0]), patch[1..])
  }

  function Put(stored: seq<Member>, m: Member): seq<Member>
    decreases |stored|
  {
    if stored == [] then [m]
    else if stored[0].key == m.key then [m] + stored[1..]
    else [stored[0]] + Put(stored[1..], m)
  }

  /** A member acceptable one level down. */
  predicate MemberFits(e: Member, limit: nat) {
    !HasNul(e.key) && Shallow(Item(e.value, 2), limit) && Clean(e.value)
  }

  predicate MembersFit(members: seq<Member>, limit: nat) {
    forall i | 0 <= i < |members| :: MemberFits(members[i], limit)
  }

  lemma {:induction false} PutKeepsShape(stored: seq<Member>, m: Member, limit: nat)
    requires MemberFits(m, limit) && MembersFit(stored, limit)
    ensures MembersFit(Put(stored, m), limit)
    decreases |stored|
  {
    if stored != [] && stored[0].key != m.key { PutKeepsShape(stored[1..], m, limit); }
  }

  lemma ObjectFits(members: seq<Member>, limit: nat)
    ensures Depth(Obj(members)) <= limit && Clean(Obj(members)) <==> limit >= 1 && MembersFit(members, limit)
  {
    var v := Obj(members);
    ShallowByChildren(Item(v, 1), limit);
    var pushed := Pushed(Children(v), 2);
    assert forall i | 0 <= i < |members| :: pushed[i] == Item(members[i].value, 2) && Children(v)[i] == members[i].value;
  }

  /** Merging accepted patches into accepted preferences keeps the bounds: the stored object is never
      walked again and does not need to be. */
  lemma MergeKeepsShape(stored: seq<Member>, patch: seq<Member>, limit: nat)
    requires Depth(Obj(stored)) <= limit && Clean(Obj(stored))
    requires Depth(Obj(patch)) <= limit && Clean(Obj(patch))
    ensures Depth(Obj(Merge(stored, patch))) <= limit && Clean(Obj(Merge(stored, patch)))
  {
    ObjectFits(stored, limit);
    ObjectFits(patch, limit);
    MergeFits(stored, patch, limit);
    ObjectFits(Merge(stored, patch), limit);
  }

  lemma {:induction false} MergeFits(stored: seq<Member>, patch: seq<Member>, limit: nat)
    requires MembersFit(stored, limit) && MembersFit(patch, limit)
    ensures MembersFit(Merge(stored, patch), limit)
    decreases |patch|
  {
    if patch != [] {
      PutKeepsShape(stored, patch[0], limit);
      MergeFits(Put(stored, patch[0]), patch[1..], limit);
    }
  }
}
