/** Deep merging in place, on a heap of objects. */
module DeepMerge {
  import opened Stepping
  import opened Trees

  /** A map's value: another object, or anything else. */
  datatype Value = Text(text: string) | Ref(node: Node)

  class Node {
    var entries: map<string, Value>
    /** The objects reached from this one are among these. */
    ghost var repr: set<Node>

    constructor ()
      ensures entries == map[] && repr == {this}
    {
      entries := map[];
      repr := {this};
    }

    /** The objects directly below are reached separately, and none reaches back. */
    ghost predicate Apart()
      reads this, repr
    {
      && this in repr
      && (forall k | k in entries && entries[k].Ref? ::
        entries[k].node in repr && entries[k].node.repr <= repr && this !in entries[k].node.repr)
      && forall j, k | j in entries && entries[j].Ref? && k in entries && entries[k].Ref? && j != k ::
        entries[j].node.repr !! entries[k].node.repr
    }

    /** The objects directly below may be shared, but none reaches back. */
    ghost predicate Layered()
      reads this, repr
    {
      && this in repr
      && forall k | k in entries && entries[k].Ref? ::
        entries[k].node in repr && entries[k].node.repr <= repr && this !in entries[k].node.repr
    }

    /** The document read from this object; None when some object below reaches back. */
    ghost function View(): Option<Object>
      reads this, repr
      decreases repr
    {
      if Layered() && forall k | k in entries && entries[k].Ref? :: Layered() && entries[k].node.View().Some? then
        Some(Obj(map k | k in entries :: if entries[k].Text? then Leaf(entries[k].text) else entries[k].node.View().value))
      else None
    }

    /** The document this object stands for; None when the objects below are tangled. */
    ghost function Doc(): Option<Object>
      reads this, repr
      decreases repr
    {
      if Apart() && forall k | k in entries && entries[k].Ref? :: Apart() && entries[k].node.Doc().Some? then
        Some(Obj(map k | k in entries :: if entries[k].Text? then Leaf(entries[k].text) else entries[k].node.Doc().value))
      else None
    }
  }

  /** An untangled object reads as its document. */
  lemma {:induction false} DocIsView(n: Node)
    requires n.Doc().Some?
    ensures n.View() == n.Doc()
    decreases n.repr
  {
    forall k | k in n.entries && n.entries[k].Ref?
      ensures n.entries[k].node.View() == n.entries[k].node.Doc()
    {
      DocIsView(n.entries[k].node);
    }
    assert n.View().value.entries == n.Doc().value.entries;
  }

  /** What merging leaves under a key of src. */
  function Merged(d: Object, s: Object, k: string): Tree
    requires k in s.entries
  {
    if s.entries[k].Leaf? then s.entries[k] else Merge(Under(d, k), s.entries[k])
  }

  /** The merge so far, when these keys of src are done. */
  function Partial(d: Object, s: Object, done: set<string>): Object {
    Obj(map k | k in d.entries.Keys + done * s.entries.Keys :: if k in done && k in s.entries then Merged(d, s, k) else d.entries[k])
  }

  lemma PartialStep(d: Object, s: Object, done: set<string>, k: string)
    requires k in s.entries && k !in done
    ensures Obj(Partial(d, s, done).entries[k := Merged(Partial(d, s, done), s, k)]) == Partial(d, s, done + {k})
  {
    assert Under(Partial(d, s, done), k) == Under(d, k);
    assert Partial(d, s, done).entries[k := Merged(d, s, k)] == Partial(d, s, done + {k}).entries;
  }

  lemma PartialNone(d: Object, s: Object)
    ensures Partial(d, s, {}) == d
  {
    assert Partial(d, s, {}).entries == d.entries;
  }

  lemma PartialAll(d: Object, s: Object)
    ensures Partial(d, s, s.entries.Keys) == Merge(d, s)
  {
    assert Partial(d, s, s.entries.Keys).entries == Merge(d, s).entries;
  }

  /** dst holds under its other keys what d does. */
  ghost predicate OthersHold(dst: Node, k: string, d: Object)
    reads dst, dst.repr
  {
    && dst.Apart() && (forall j | j in d.entries && j != k :: j in dst.entries)
    && forall j | j in dst.entries && j != k ::
      && j in d.entries
      && (dst.entries[j].Text? ==> d.entries[j] == Leaf(dst.entries[j].text))
      && (dst.entries[j].Ref? ==> dst.Apart() && dst.entries[j].node.Doc() == Some(d.entries[j]))
  }

  lemma TextDoc(dst: Node, k: string, text: string, d: Object)
    requires OthersHold(dst, k, d) && k in dst.entries && dst.entries[k] == Text(text)
    ensures dst.Doc() == Some(Obj(d.entries[k := Leaf(text)]))
  {
    assert dst.Doc().Some?;
    assert dst.Doc().value.entries == d.entries[k := Leaf(text)];
  }

  lemma RefDoc(dst: Node, k: string, child: Node, d: Object, t: Object)
    requires OthersHold(dst, k, d) && k in dst.entries && dst.entries[k] == Ref(child) && child.Doc() == Some(t)
    ensures dst.Doc() == Some(Obj(d.entries[k := t]))
  {
    assert dst.Doc().Some?;
    assert dst.Doc().value.entries == d.entries[k := t];
  }

  /** A key of src that holds no object. */
  method SetText(dst: Node, k: string, text: string, ghost d: Object)
    requires dst.Doc() == Some(d)
    modifies dst
    ensures dst.Doc() == Some(Obj(d.entries[k := Leaf(text)])) && dst.repr == old(dst.repr)
  {
    dst.entries := dst.entries[k := Text(text)];
    TextDoc(dst, k, text, d);
  }

  /** dst is a document again once child is its object under k: its other objects are sound and apart from child. */
  ghost predicate Loose(dst: Node, k: string, child: Node)
    reads dst, dst.repr, child
  {
    && dst in dst.repr && dst !in child.repr
    && (forall j | j in dst.entries && j != k && dst.entries[j].Ref? ::
      var c := dst.entries[j].node;
      c in dst.repr && c.repr <= dst.repr && dst !in c.repr && c.repr !! child.repr)
    && forall i, j | i in dst.entries && j in dst.entries && i != k && j != k && i != j
      && dst.entries[i].Ref? && dst.entries[j].Ref? :: dst.entries[i].node.repr !! dst.entries[j].node.repr
  }

  /** The values under the other keys are those of d. */
  ghost predicate OthersAre(dst: Node, k: string, child: Node, d: Object)
    requires Loose(dst, k, child)
    reads dst, dst.repr, child
  {
    && (forall j | j in d.entries && j != k :: j in dst.entries)
    && forall j | j in dst.entries && j != k ::
      && j in d.entries
      && (dst.entries[j].Text? ==> d.entries[j] == Leaf(dst.entries[j].text))
      && (dst.entries[j].Ref? ==> dst.entries[j].node.Doc() == Some(d.entries[j]))
  }

  /** The object to merge into: the one dst has under k, or a new one. */
  method Target(dst: Node, k: string, ghost d: Object) returns (child: Node)
    requires dst.Doc() == Some(d)
    ensures child.Doc() == Some(Under(d, k)) && Loose(dst, k, child) && OthersAre(dst, k, child, d)
    ensures (fresh(child) && child.repr == {child}) || child.repr <= dst.repr
  {
    if k in dst.entries && dst.entries[k].Ref? {
      child := dst.entries[k].node;
    } else {
      child := new Node();
      assert child.Doc().value.entries == map[];
    }
  }

  /** Puts child under k. */
  method Attach(dst: Node, k: string, child: Node, ghost d: Object, ghost t: Object)
    requires Loose(dst, k, child) && OthersAre(dst, k, child, d) && child.Doc() == Some(t)
    modifies dst
    ensures dst.Doc() == Some(Obj(d.entries[k := t])) && dst.repr == old(dst.repr) + old(child.repr)
  {
    assert child in child.repr && child != dst;
    dst.entries := dst.entries[k := Ref(child)];
    dst.repr := dst.repr + child.repr;
    assert child.Doc() == Some(t);
    forall j | j in dst.entries && j != k && dst.entries[j].Ref?
      ensures dst.entries[j].node.Doc() == Some(d.entries[j])
    {
      var c := dst.entries[j].node;
      assert old(c.Doc()) == Some(d.entries[j]) && dst !in c.repr;
    }
    RefDoc(dst, k, child, d, t);
  }

  /** Merges below k; dst's other objects stay as they are. */
  method MergeBelow(dst: Node, k: string, child: Node, sub: Node, ghost d: Object, ghost t: Object, ghost s: Object)
    requires Loose(dst, k, child) && OthersAre(dst, k, child, d)
    requires child.Doc() == Some(t) && sub.View() == Some(s) && child.repr !! sub.repr
    modifies child.repr
    ensures Loose(dst, k, child) && OthersAre(dst, k, child, d) && dst.repr == old(dst.repr)
    ensures child.Doc() == Some(Merge(t, s))
    ensures forall o :: o in child.repr ==> o in old(child.repr) || fresh(o)
    decreases sub.repr, 4
  {
    var merged := DeepMerge(child, sub);
    forall j | j in dst.entries && j != k && dst.entries[j].Ref?
      ensures dst.entries[j].node.repr == old(dst.entries[j].node.repr)
      ensures dst.entries[j].node.Doc() == Some(d.entries[j]) && dst.entries[j].node.repr !! child.repr
    {
      var c := dst.entries[j].node;
      assert old(c.Doc()).Some? && c in old(c.repr) && c !in old(child.repr);
    }
  }

  /** A key of src that holds an object. */
  method MergeObject(dst: Node, k: string, sub: Node, ghost d: Object, ghost s: Object)
    requires dst.Doc() == Some(d) && sub.View() == Some(s) && dst.repr !! sub.repr
    modifies dst.repr
    ensures dst.Doc() == Some(Obj(d.entries[k := Merge(Under(d, k), s)]))
    ensures forall o :: o in dst.repr ==> o in old(dst.repr) || fresh(o)
    decreases sub.repr, 5
  {
    var child := Target(dst, k, d);
    MergeBelow(dst, k, child, sub, d, Under(d, k), s);
    Attach(dst, k, child, d, Merge(Under(d, k), s));
  }

  ghost function Progress(d: Object, s: Object): set<string> -> Object {
    done => Partial(d, s, done)
  }

  /** Each key's merge takes one stage to the next. */
  ghost predicate Stages(stage: set<string> -> Object, s: Object) {
    forall done, k {:trigger stage(done + {k})} :: k in s.entries && k !in done ==>
      stage(done + {k}) == Obj(stage(done).entries[k := Merged(stage(done), s, k)])
  }

  lemma ProgressStages(d: Object, s: Object)
    ensures Stages(Progress(d, s), s) && Progress(d, s)({}) == d && Progress(d, s)(s.entries.Keys) == Merge(d, s)
  {
    forall done, k | k in s.entries && k !in done
      ensures Progress(d, s)(done + {k}) == Obj(Progress(d, s)(done).entries[k := Merged(Progress(d, s)(done), s, k)])
    {
      PartialStep(d, s, done, k);
    }
    PartialNone(d, s);
    PartialAll(d, s);
  }

  /** One key of src. */
  method MergeKey(dst: Node, src: Node, k: string, ghost s: Object, ghost stage: set<string> -> Object, ghost done: set<string>)
    requires dst.Doc() == Some(stage(done)) && src.View() == Some(s) && dst.repr !! src.repr
    requires k in src.entries && k !in done && Stages(stage, s)
    modifies dst.repr
    ensures dst.Doc() == Some(stage(done + {k}))
    ensures src.View() == Some(s) && src.repr == old(src.repr) && src.entries == old(src.entries) && dst.repr !! src.repr
    ensures forall o :: o in dst.repr ==> o in old(dst.repr) || fresh(o)
    decreases src.repr, 1
  {
    ghost var d := stage(done);
    assert stage(done + {k}) == Obj(d.entries[k := Merged(d, s, k)]);
    match src.entries[k]
    case Text(text) => SetText(dst, k, text, d);
    case Ref(sub) => MergeObject(dst, k, sub, d, s.entries[k]);
  }

  /** Of these keys, done are merged and left are not. */
  ghost predicate Split(keys: set<string>, done: set<string>, left: set<string>) {
    done + left == keys && done !! left
  }

  lemma SplitNext(keys: set<string>, done: set<string>, left: set<string>, k: string)
    requires Split(keys, done, left) && k in left
    ensures Split(keys, done + {k}, left - {k}) && k in keys && k !in done
  {}

  lemma SplitAll(keys: set<string>, done: set<string>)
    requires Split(keys, done, {})
    ensures done == keys
  {}

  /** src reads as s through the same map. */
  ghost predicate Source(src: Node, s: Object, entries: map<string, Value>, repr: set<Node>)
    reads src, src.repr
  {
    src.View() == Some(s) && src.entries == entries && src.repr == repr
  }

  /** Every key of src, in whatever order its map gives them. */
  method MergeKeys(dst: Node, src: Node, ghost s: Object, ghost stage: set<string> -> Object)
    requires dst.Doc() == Some(stage({})) && src.View() == Some(s) && dst.repr !! src.repr && Stages(stage, s)
    modifies dst.repr
    ensures dst.Doc() == Some(stage(src.entries.Keys)) && src.View() == Some(s) && src.entries == old(src.entries)
    ensures src.repr == old(src.repr) && dst.repr !! src.repr
    ensures forall o :: o in dst.repr ==> o in old(dst.repr) || fresh(o)
    decreases src.repr, 2
  {
    ghost var done: set<string> := {};
    ghost var entries, repr := src.entries, src.repr;
    var left := src.entries.Keys;
    while left != {}
      invariant Split(entries.Keys, done, left) && Source(src, s, entries, repr)
      invariant dst.Doc() == Some(stage(done)) && dst.repr !! repr
      invariant forall o :: o in dst.repr ==> o in old(dst.repr) || fresh(o)
      decreases |left|
    {
      var k :| k in left;
      SplitNext(entries.Keys, done, left, k);
      MergeKey(dst, src, k, s, stage, done);
      left, done := left - {k}, done + {k};
    }
    SplitAll(entries.Keys, done);
  }

  /** Merges src into dst and returns dst; src keeps its contents and shares no object with the result. */
  method DeepMerge(dst: Node, src: Node) returns (r: Node)
    requires dst.Doc().Some? && src.View().Some? && dst.repr !! src.repr
    modifies dst.repr
    ensures r == dst && dst.Doc() == Some(Merge(old(dst.Doc()).value, old(src.View()).value)) && r.View() == dst.Doc()
    ensures src.View() == old(src.View()) && src.repr == old(src.repr) && dst.repr !! src.repr
    ensures forall o :: o in dst.repr ==> o in old(dst.repr) || fresh(o)
    decreases src.repr, 3
  {
    ghost var d, s := dst.Doc().value, src.View().value;
    ProgressStages(d, s);
    assert src.entries.Keys == s.entries.Keys;
    MergeKeys(dst, src, s, Progress(d, s));
    DocIsView(dst);
    return dst;
  }
}
