/** `deep_merge` on JSON trees. */
module DeepMerge {
  import opened Wrappers

  /** Lists, numbers, strings, booleans and null are all replaced as a whole. */
  datatype Json = Leaf(text: string) | List(items: seq<Json>) | Obj(fields: map<string, Json>)

  /** What a key holds after the merge when it held `base` and is overridden by `over`. */
  function Merge(base: Json, over: Json): (r: Json)
    decreases over
  {
    if base.Obj? && over.Obj? then
      Obj(map k | k in base.fields.Keys + over.fields.Keys ::
            if k !in over.fields then base.fields[k]
            else if k !in base.fields then over.fields[k]
            else Merge(base.fields[k], over.fields[k]))
    else over
  }

  /** The value of a key after the override was applied to it. */
  function ValueAt(base: Json, over: Json, k: string): Json
    requires base.Obj? && over.Obj? && (k in base.fields || k in over.fields)
  {
    if k !in over.fields then base.fields[k]
    else if k !in base.fields then over.fields[k]
    else Merge(base.fields[k], over.fields[k])
  }

  lemma MergeFields(base: Json, over: Json, fields: map<string, Json>)
    requires base.Obj? && over.Obj? && forall k :: k in fields <==> k in base.fields || k in over.fields
    requires forall k | k in fields :: fields[k] == ValueAt(base, over, k)
    ensures Merge(base, over) == Obj(fields)
  {
    assert Merge(base, over).fields == fields;
  }

  lemma MergeReplaces(base: Json, over: Json)
    requires !(base.Obj? && over.Obj?)
    ensures Merge(base, over) == over
  {
  }

  /** `deep_merge` on two dictionaries: a copy of `base`, rewritten key by key. */
  method DeepMergeDicts(base: Json, override: Json) returns (result: Json)
    requires base.Obj? && override.Obj?
    ensures result == Merge(base, override)
    decreases override
  {
    hide Merge, ValueAt;
    var fields := base.fields;
    var todo := override.fields.Keys;
    forall k | k in base.fields && k !in override.fields ensures base.fields[k] == ValueAt(base, override, k) {
      Untouched(base, override, k);
    }
    while todo != {}
      invariant forall k | k in todo :: k in override.fields
      invariant forall k :: k in fields <==> k in base.fields || (k in override.fields && k !in todo)
      invariant forall k | k in todo && k in base.fields :: fields[k] == base.fields[k]
      invariant forall k | k in fields && k !in todo :: fields[k] == ValueAt(base, override, k)
      decreases todo
    {
      var key :| key in todo;
      todo := todo - {key};
      var value := override.fields[key];
      Overridden(base, override, key);
      if key in fields && fields[key].Obj? && value.Obj? {
        value := DeepMergeDicts(fields[key], value);
      } else if key in fields {
        MergeReplaces(fields[key], value);
      }
      fields := fields[key := value];
    }
    result := Obj(fields);
    MergeFields(base, override, fields);
  }

  lemma Untouched(base: Json, over: Json, k: string)
    requires base.Obj? && over.Obj? && k in base.fields && k !in over.fields
    ensures ValueAt(base, over, k) == base.fields[k]
  {
  }

  lemma Overridden(base: Json, over: Json, k: string)
    requires base.Obj? && over.Obj? && k in over.fields
    ensures ValueAt(base, over, k) == if k in base.fields then Merge(base.fields[k], over.fields[k]) else over.fields[k]
  {
  }

  // ---------- what a path leads to ----------

  type Path = seq<string>

  function Lookup(j: Json, p: Path): Option<Json> {
    if p == [] then Some(j)
    else if j.Obj? && p[0] in j.fields then Lookup(j.fields[p[0]], p[1..])
    else None
  }

  /** The walk along `p` stops at an object that lacks the next key. */
  predicate MissesKey(j: Json, p: Path) {
    p != [] && j.Obj? && (p[0] in j.fields ==> MissesKey(j.fields[p[0]], p[1..]))
  }

  /** Every path: an overriding value that is no object wins; an overriding object is merged with the
      object it meets; where the override says nothing the base is kept; below an overriding leaf
      nothing of the base is left. */
  lemma {:induction false} MergeAt(base: Json, over: Json, p: Path)
    requires base.Obj? && over.Obj?
    ensures Lookup(over, p).Some? ==>
              Lookup(Merge(base, over), p)
              == Some(if Lookup(base, p).Some? then Merge(Lookup(base, p).value, Lookup(over, p).value)
                      else Lookup(over, p).value)
    ensures MissesKey(over, p) ==> Lookup(Merge(base, over), p) == Lookup(base, p)
    ensures Lookup(over, p).None? && !MissesKey(over, p) ==> Lookup(Merge(base, over), p).None?
    decreases p
  {
    if p != [] && p[0] in over.fields && p[0] in base.fields {
      var b, o := base.fields[p[0]], over.fields[p[0]];
      if b.Obj? && o.Obj? {
        MergeAt(b, o, p[1..]);
      } else {
        MergeLeaf(b, o, p[1..]);
      }
    } else if MissesKey(over, p) {
      MissesNothingThere(over, p);
    }
  }

  lemma MergeLeaf(b: Json, o: Json, p: Path)
    requires !(b.Obj? && o.Obj?)
    ensures Merge(b, o) == o
    ensures p != [] && !b.Obj? ==> Lookup(b, p).None?
    ensures MissesKey(o, p) ==> Lookup(o, p).None? && Lookup(b, p).None?
  {
    if MissesKey(o, p) {
      MissesNothingThere(o, p);
    }
  }

  lemma {:induction false} MissesNothingThere(j: Json, p: Path)
    requires MissesKey(j, p)
    ensures Lookup(j, p).None?
  {
    if p[0] in j.fields {
      MissesNothingThere(j.fields[p[0]], p[1..]);
    }
  }

  // ---------- algebra ----------

  /** Overriding twice with the same tree is overriding once: the second application of
      `supplier_override` and `customer_override` in an update is harmless. */
  lemma {:induction false} OverrideTwice(base: Json, over: Json)
    ensures Merge(Merge(base, over), over) == Merge(base, over)
    decreases over
  {
    if over.Obj? {
      SelfMerge(over);
      if base.Obj? {
        var once, twice := Merge(base, over), Merge(Merge(base, over), over);
        forall k | k in once.fields ensures twice.fields[k] == once.fields[k] {
          if k in over.fields && k in base.fields {
            OverrideTwice(base.fields[k], over.fields[k]);
          } else if k in over.fields {
            SelfMerge(over.fields[k]);
          }
        }
        assert twice.fields == once.fields;
      }
    }
  }

  lemma {:induction false} SelfMerge(j: Json)
    ensures Merge(j, j) == j
    decreases j
  {
    if j.Obj? {
      forall k | k in j.fields ensures Merge(j, j).fields[k] == j.fields[k] {
        SelfMerge(j.fields[k]);
      }
      assert Merge(j, j).fields == j.fields;
    }
  }

  /** Every value of `a` is overridden by `c`. */
  predicate Covered(a: Json, c: Json)
    decreases a
  {
    a.Obj? && c.Obj? ==>
      forall k | k in a.fields :: k in c.fields && Covered(a.fields[k], c.fields[k])
  }

  lemma {:induction false} CoveredIff(a: Json, c: Json)
    ensures Merge(a, c) == c <==> Covered(a, c)
    decreases a
  {
    if a.Obj? && c.Obj? {
      var m := Merge(a, c);
      forall k | k in a.fields && k in c.fields
        ensures m.fields[k] == c.fields[k] <==> Covered(a.fields[k], c.fields[k])
      {
        CoveredIff(a.fields[k], c.fields[k]);
      }
      if Covered(a, c) {
        assert m.fields == c.fields;
      }
      if m == c {
        assert forall k | k in a.fields :: k in m.fields;
      }
    }
  }

  /** Nowhere does `b` put a value that is no object between two objects, unless the first is covered by the last. */
  predicate Associates(a: Json, b: Json, c: Json)
    decreases a
  {
    a.Obj? && c.Obj? ==>
      if b.Obj? then
        forall k | k in a.fields && k in b.fields && k in c.fields :: Associates(a.fields[k], b.fields[k], c.fields[k])
      else Covered(a, c)
  }

  /** Merging is associative exactly on the trees that associate. */
  lemma {:induction false} AssociativeIff(a: Json, b: Json, c: Json)
    ensures Merge(Merge(a, b), c) == Merge(a, Merge(b, c)) <==> Associates(a, b, c)
    decreases a
  {
    if a.Obj? && b.Obj? && c.Obj? {
      AssociativeObjects(a, b, c);
    } else if a.Obj? && c.Obj? {
      CoveredIff(a, c);
    }
  }

  lemma {:induction false} AssociativeObjects(a: Json, b: Json, c: Json)
    requires a.Obj? && b.Obj? && c.Obj?
    ensures Merge(Merge(a, b), c) == Merge(a, Merge(b, c)) <==> Associates(a, b, c)
    decreases a, 0
  {
    var left, right := Merge(Merge(a, b), c), Merge(a, Merge(b, c));
    assert left.fields.Keys == right.fields.Keys;
    forall k | k in left.fields
      ensures left.fields[k] == right.fields[k]
         <==> (k in a.fields && k in b.fields && k in c.fields ==> Associates(a.fields[k], b.fields[k], c.fields[k]))
    {
      if k in a.fields && k in b.fields && k in c.fields {
        AssociativeIff(a.fields[k], b.fields[k], c.fields[k]);
      }
    }
    if Associates(a, b, c) {
      assert left.fields == right.fields;
    }
  }
}
