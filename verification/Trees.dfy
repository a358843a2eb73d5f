/** Documents as values: what deep merging means, path by path. */
module Trees {
  import opened Stepping

  /** A leaf is any value that is not an object. */
  datatype Tree = Leaf(text: string) | Obj(entries: map<string, Tree>)

  type Object = t: Tree | t.Obj? witness Obj(map[])

  /** The object under a key, or an empty one to merge into. */
  function Under(d: Object, k: string): Object {
    if k in d.entries && d.entries[k].Obj? then d.entries[k] else Obj(map[])
  }

  /** Objects merge recursively; any other value of src replaces dst's. */
  function Merge(d: Object, s: Object): Object
    decreases s
  {
    Obj(map k | k in d.entries.Keys + s.entries.Keys ::
      if k !in s.entries then d.entries[k]
      else if s.entries[k].Leaf? then s.entries[k]
      else Merge(Under(d, k), s.entries[k]))
  }

  // ---- Path by path ----

  function At(t: Tree, path: seq<string>): Option<Tree> {
    if path == [] then Some(t)
    else if t.Leaf? || path[0] !in t.entries then None
    else At(t.entries[path[0]], path[1..])
  }

  /** The path runs through a leaf. */
  predicate Blocked(t: Tree, path: seq<string>) {
    path != [] && (t.Leaf? || (path[0] in t.entries && Blocked(t.entries[path[0]], path[1..])))
  }

  function ObjectAt(d: Tree, path: seq<string>): Object {
    var t := At(d, path);
    if t.Some? && t.value.Obj? then t.value else Obj(map[])
  }

  /** What a merged document holds at a path, from what the two hold there. */
  function Expected(d: Tree, s: Tree, path: seq<string>): Option<Tree> {
    if Blocked(s, path) then None
    else
      match At(s, path)
      case None => At(d, path)
      case Some(Leaf(text)) => Some(Leaf(text))
      case Some(Obj(entries)) => Some(Merge(ObjectAt(d, path), Obj(entries)))
  }

  lemma UnderAt(d: Object, k: string, rest: seq<string>)
    ensures ObjectAt(d, [k] + rest) == ObjectAt(Under(d, k), rest)
    ensures rest != [] ==> At(d, [k] + rest) == At(Under(d, k), rest)
  {
    var path := [k] + rest;
    assert path[0] == k && path[1..] == rest;
    if k in d.entries {
      assert At(d, path) == At(d.entries[k], rest);
    } else {
      assert At(d, path) == None;
    }
  }

  lemma MergeAtObject(d: Object, s: Object, k: string, rest: seq<string>)
    requires k in s.entries && s.entries[k].Obj?
    requires At(Merge(Under(d, k), s.entries[k]), rest) == Expected(Under(d, k), s.entries[k], rest)
    ensures At(Merge(d, s), [k] + rest) == Expected(d, s, [k] + rest)
  {
    var path := [k] + rest;
    UnderAt(d, k, rest);
    assert path[1..] == rest;
    assert At(Merge(d, s), path) == At(Merge(Under(d, k), s.entries[k]), rest);
    assert Blocked(s, path) == Blocked(s.entries[k], rest) && At(s, path) == At(s.entries[k], rest);
  }

  /**
   At every path: src's leaf wins, below it there is nothing, objects of both merge, and where src has
   nothing the result keeps dst's value.
   */
  lemma {:induction false} MergeAt(d: Object, s: Object, path: seq<string>)
    ensures At(Merge(d, s), path) == Expected(d, s, path)
    decreases |path|
  {
    if path != [] {
      var k, rest := path[0], path[1..];
      assert path == [k] + rest;
      if k in s.entries && s.entries[k].Obj? {
        MergeAt(Under(d, k), s.entries[k], rest);
        MergeAtObject(d, s, k, rest);
      } else if k in s.entries {
        assert Merge(d, s).entries[k] == s.entries[k];
        assert Blocked(s, path) <==> rest != [];
      } else {
        assert k in d.entries ==> Merge(d, s).entries[k] == d.entries[k];
        assert !Blocked(s, path) && At(s, path).None?;
      }
    }
  }

  // ---- Laws ----

  lemma {:induction false} MergeIntoEmpty(s: Object)
    ensures Merge(Obj(map[]), s) == s
    decreases s
  {
    var empty := Obj(map[]);
    forall k | k in s.entries
      ensures Merge(empty, s).entries[k] == s.entries[k]
    {
      if s.entries[k].Obj? {
        MergeIntoEmpty(s.entries[k]);
      }
    }
    assert Merge(empty, s).entries == s.entries;
  }

  /** Applying a patch again changes nothing. */
  lemma {:induction false} Idempotent(d: Object, s: Object)
    ensures Merge(Merge(d, s), s) == Merge(d, s)
    decreases s
  {
    var once := Merge(d, s);
    forall k | k in once.entries
      ensures Merge(once, s).entries[k] == once.entries[k]
    {
      if k in s.entries && s.entries[k].Obj? {
        Idempotent(Under(d, k), s.entries[k]);
      }
    }
    assert Merge(once, s).entries == once.entries;
  }

  /** Where the middle document has a leaf between two objects, the first adds nothing to the last. */
  predicate RegroupsAt(a: Object, b: Object, c: Object, k: string)
    decreases c, 0
  {
    if k !in c.entries || c.entries[k].Leaf? || k !in b.entries then true
    else if b.entries[k].Leaf? then Merge(Under(a, k), c.entries[k]) == c.entries[k]
    else Regroups(Under(a, k), b.entries[k], c.entries[k])
  }

  predicate Regroups(a: Object, b: Object, c: Object)
    decreases c, 1
  {
    forall k | k in c.entries :: RegroupsAt(a, b, c, k)
  }

  predicate Agree(a: Object, b: Object, c: Object) {
    Merge(Merge(a, b), c) == Merge(a, Merge(b, c))
  }

  predicate AgreeAt(a: Object, b: Object, c: Object, k: string)
    requires k in a.entries.Keys + b.entries.Keys + c.entries.Keys
  {
    Merge(Merge(a, b), c).entries[k] == Merge(a, Merge(b, c)).entries[k]
  }

  lemma AssociativeAt(a: Object, b: Object, c: Object, k: string)
    requires k in a.entries.Keys + b.entries.Keys + c.entries.Keys
    requires k in c.entries && c.entries[k].Obj? && k in b.entries && b.entries[k].Obj? ==>
      (Agree(Under(a, k), b.entries[k], c.entries[k]) <==> Regroups(Under(a, k), b.entries[k], c.entries[k]))
    ensures AgreeAt(a, b, c, k) <==> RegroupsAt(a, b, c, k)
  {
    if k in c.entries && c.entries[k].Obj? {
      MergeIntoEmpty(c.entries[k]);
    }
  }

  lemma AgreeByKey(a: Object, b: Object, c: Object)
    ensures Agree(a, b, c) <==> forall k | k in a.entries.Keys + b.entries.Keys + c.entries.Keys :: AgreeAt(a, b, c, k)
  {
    var left, right := Merge(Merge(a, b), c), Merge(a, Merge(b, c));
    var keys := a.entries.Keys + b.entries.Keys + c.entries.Keys;
    assert left.entries.Keys == keys && right.entries.Keys == keys;
    if forall k | k in keys :: AgreeAt(a, b, c, k) {
      forall k | k in keys
        ensures left.entries[k] == right.entries[k]
      {
        assert AgreeAt(a, b, c, k);
      }
      assert left.entries == right.entries;
    }
  }

  /** Merging is not associative; two groupings agree exactly when the documents regroup. */
  lemma {:induction false} AssociativeIff(a: Object, b: Object, c: Object)
    ensures Agree(a, b, c) <==> Regroups(a, b, c)
    decreases c
  {
    forall k | k in a.entries.Keys + b.entries.Keys + c.entries.Keys
      ensures AgreeAt(a, b, c, k) <==> RegroupsAt(a, b, c, k)
    {
      if k in c.entries && c.entries[k].Obj? && k in b.entries && b.entries[k].Obj? {
        AssociativeIff(Under(a, k), b.entries[k], c.entries[k]);
      }
      AssociativeAt(a, b, c, k);
    }
    AgreeByKey(a, b, c);
  }

  /** A leaf in the middle hides the first document's object from one grouping only. */
  lemma NotAssociative()
    ensures var a, b, c := Obj(map["x" := Obj(map["y" := Leaf("1")])]), Obj(map["x" := Leaf("0")]), Obj(map["x" := Obj(map[])]);
      !Agree(a, b, c)
  {
    var a, b, c := Obj(map["x" := Obj(map["y" := Leaf("1")])]), Obj(map["x" := Leaf("0")]), Obj(map["x" := Obj(map[])]);
    AssociativeIff(a, b, c);
    assert "y" in Merge(Under(a, "x"), c.entries["x"]).entries;
    assert !RegroupsAt(a, b, c, "x");
  }
}
