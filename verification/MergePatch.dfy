/** JSON merge patches (internal/domain/entity/mergepatch.go, section 2 of
    RFC 7396). */
module MergePatch {
  import opened Json

  function Fields(v: Value): map<string, Value> {
    if v.Obj? then v.fields else map[]
  }

  function Member(fields: map<string, Value>, k: string): Value {
    if k in fields then fields[k] else Null
  }

  function Merge(target: Value, patch: Value): Value
    decreases patch
  {
    if !patch.Obj? then patch
    else
      var f := Fields(target);
      Obj(map k | k in f.Keys + patch.fields.Keys && !(k in patch.fields && patch.fields[k].Null?) ::
            if k in patch.fields then Merge(Member(f, k), patch.fields[k]) else f[k])
  }

  /** applyMergePatch: members are merged one by one, in whatever order the
      patch's keys come, into the target's own map. */
  method ApplyMergePatch(target: Value, patch: Value) returns (r: Value)
    ensures r == Merge(target, patch)
    decreases patch
  {
    if !patch.Obj? {
      return patch;
    }
    var fields := Fields(target);
    var rest := patch.fields.Keys;
    ghost var before, merged := fields, Merge(target, patch).fields;
    while rest != {}
      invariant rest <= patch.fields.Keys
      invariant forall k :: k in rest ==> (k in fields <==> k in before) && Member(fields, k) == Member(before, k)
      invariant forall k :: k !in rest ==> (k in fields <==> k in merged) && Member(fields, k) == Member(merged, k)
      decreases rest
    {
      var k :| k in rest;
      if patch.fields[k].Null? {
        fields := fields - {k};
      } else {
        var v := ApplyMergePatch(Member(fields, k), patch.fields[k]);
        fields := fields[k := v];
      }
      rest := rest - {k};
    }
    assert forall k :: k in fields ==> fields[k] == Member(fields, k);
    assert forall k :: k in merged ==> merged[k] == Member(merged, k);
    assert fields == merged;
    r := Obj(fields);
  }

  /** Applying a patch a second time changes nothing. */
  lemma {:induction false} MergeIsIdempotent(target: Value, patch: Value)
    ensures Merge(Merge(target, patch), patch) == Merge(target, patch)
    decreases patch
  {
    if patch.Obj? {
      var once, f := Merge(target, patch).fields, Fields(target);
      var twice := Merge(Obj(once), patch).fields;
      forall k | k in patch.fields && !patch.fields[k].Null? ensures twice[k] == once[k] {
        MergeIsIdempotent(Member(f, k), patch.fields[k]);
      }
      assert twice.Keys == once.Keys;
      assert twice == once;
    }
  }

  /** The empty patch changes nothing exactly when the document is an object. */
  lemma EmptyPatchKeeps(target: Value)
    ensures Merge(target, Obj(map[])) == target <==> target.Obj?
  {
    assert Merge(target, Obj(map[])).fields == Fields(target);
  }

  // --- what a patch can reach --------------------------------------------

  /** Every null member of `b`, at whatever depth below objects, is already a
      null member of `a`: a patch can delete members but cannot set them null. */
  predicate NullsFrom(a: Value, b: Value)
    decreases b
  {
    b.Obj? ==>
      var f := Fields(a);
      forall k :: k in b.fields ==>
        if b.fields[k].Null? then k in f && f[k].Null? else NullsFrom(Member(f, k), b.fields[k])
  }

  /** The patch that takes `a` to `b`. */
  function Diff(a: Value, b: Value): Value
    decreases b
  {
    if !b.Obj? then b
    else
      var f := Fields(a);
      Obj(map k | k in f.Keys + b.fields.Keys && !(k in b.fields && b.fields[k].Null?) ::
            if k in b.fields then Diff(Member(f, k), b.fields[k]) else Null)
  }

  lemma {:induction false} NullsFromItself(v: Value)
    ensures NullsFrom(v, v)
    decreases v
  {
    if v.Obj? {
      forall k | k in v.fields ensures NullsFrom(v.fields[k], v.fields[k]) {
        NullsFromItself(v.fields[k]);
      }
    }
  }

  lemma {:induction false} MergeAddsNoNull(a: Value, p: Value)
    ensures NullsFrom(a, Merge(a, p))
    decreases p
  {
    if p.Obj? {
      var f, r := Fields(a), Merge(a, p).fields;
      forall k | k in r && !r[k].Null? ensures NullsFrom(Member(f, k), r[k]) {
        if k in p.fields {
          MergeAddsNoNull(Member(f, k), p.fields[k]);
        } else {
          NullsFromItself(f[k]);
        }
      }
    }
  }

  lemma {:induction false} DiffReaches(a: Value, b: Value)
    requires NullsFrom(a, b)
    ensures Merge(a, Diff(a, b)) == b
    ensures !b.Null? ==> !Diff(a, b).Null?
    decreases b
  {
    if b.Obj? {
      var f, p := Fields(a), Diff(a, b).fields;
      var r := Merge(a, Diff(a, b)).fields;
      forall k | k in b.fields ensures k in r && r[k] == b.fields[k] {
        if !b.fields[k].Null? {
          DiffReaches(Member(f, k), b.fields[k]);
        }
      }
      assert r.Keys == b.fields.Keys;
      assert r == b.fields;
    }
  }

  /** Some patch takes `a` to `b` exactly when `b` has no null member that `a`
      does not have. */
  lemma ReachableExactlyWhen(a: Value, b: Value)
    ensures (exists p :: Merge(a, p) == b) <==> NullsFrom(a, b)
  {
    if p :| Merge(a, p) == b {
      MergeAddsNoNull(a, p);
    }
    if NullsFrom(a, b) {
      DiffReaches(a, b);
    }
  }
}
