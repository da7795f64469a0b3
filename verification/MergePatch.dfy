/**
 JSON documents and JSON Merge Patch (section 2 of RFC 7396), the content type with which the
 Kopf controller updates an object that already exists.  The laws below say what a sequence of
 such updates does to a document, for every document and every patch.
 */
module MergePatch {
  import opened Options
  import Text

  datatype Json =
    | Null
    | Bool(flag: bool)
    | Number(number: int)
    | Str(text: string)
    | Arr(items: seq<Json>)
    | Obj(fields: map<string, Json>)

  function Fields(j: Json): map<string, Json> {
    if j.Obj? then j.fields else map[]
  }

  /** The member k of a document; an absent member reads as Null, which merging treats alike. */
  function Member(j: Json, k: string): Json {
    if k in Fields(j) then Fields(j)[k] else Null
  }

  function Patched(target: Json, patch: Json): Json
    decreases patch
  {
    if !patch.Obj? then patch
    else
      Obj(map k | k in Fields(target).Keys + patch.fields.Keys && !(k in patch.fields && patch.fields[k].Null?) ::
            if k in patch.fields then Patched(Member(target, k), patch.fields[k]) else Fields(target)[k])
  }

  /** The value that a path of member names leads to. */
  function At(j: Json, path: seq<string>): Option<Json> {
    if path == [] then Some(j)
    else if j.Obj? && path[0] in j.fields then At(j.fields[path[0]], path[1..])
    else None
  }

  /** Applying the same patch twice is applying it once. */
  lemma {:induction false} Idempotent(target: Json, patch: Json)
    ensures Patched(Patched(target, patch), patch) == Patched(target, patch)
    decreases patch
  {
    if patch.Obj? {
      var once := Patched(target, patch);
      forall k | k in patch.fields && !patch.fields[k].Null?
        ensures Patched(Member(once, k), patch.fields[k]) == once.fields[k]
      {
        Idempotent(Member(target, k), patch.fields[k]);
      }
      assert Patched(once, patch).fields == once.fields;
    }
  }

  /** Whatever the patch says at a path is what the result says there: a null removes, a value
      that is not an object (a list included) is read back verbatim, an object is merged. */
  lemma {:induction false} ReadsBack(target: Json, patch: Json, path: seq<string>)
    requires path != [] && At(patch, path).Some?
    ensures var v := At(patch, path).value;
            At(Patched(target, patch), path) ==
            if v.Null? then None
            else if v.Obj? then
              Some(Patched(if At(target, path).Some? then At(target, path).value else Null, v))
            else Some(v)
    decreases path
  {
    if |path| > 1 {
      var k := path[0];
      ReadsBack(Member(target, k), patch.fields[k], path[1..]);
      assert !patch.fields[k].Null?;
    } else {
      assert path[1..] == [];
    }
  }

  /** What the patch does not mention is left as it was. */
  lemma {:induction false} Untouched(target: Json, patch: Json, path: seq<string>, depth: nat)
    requires depth < |path|
    requires At(patch, path[..depth]).Some? && At(patch, path[..depth]).value.Obj?
    requires path[depth] !in At(patch, path[..depth]).value.fields
    ensures At(Patched(target, patch), path) == At(target, path)
    decreases path
  {
    if depth > 0 {
      var k := path[0];
      assert path[..depth][1..] == path[1..][..depth - 1];
      Untouched(Member(target, k), patch.fields[k], path[1..], depth - 1);
    }
  }

  /** later mentions every member that earlier mentions, at every level down to a value that
      later replaces wholesale. */
  predicate Covers(later: Json, earlier: Json)
    decreases later
  {
    later.Obj? ==>
      && earlier.Obj?
      && forall k | k in earlier.fields :: k in later.fields && Covers(later.fields[k], earlier.fields[k])
  }

  lemma {:induction false} CoversItself(j: Json)
    ensures Covers(j, j)
    decreases j
  {
    if j.Obj? {
      forall k | k in j.fields ensures Covers(j.fields[k], j.fields[k]) { CoversItself(j.fields[k]); }
    }
  }

  /** The member k of the result does not tell the two targets apart. */
  predicate AgreeAt(a: Json, b: Json, patch: Json, k: string)
    requires patch.Obj?
  {
    if k in patch.fields then
      patch.fields[k].Null? || Patched(Member(a, k), patch.fields[k]) == Patched(Member(b, k), patch.fields[k])
    else
      (k in Fields(a) <==> k in Fields(b)) && (k in Fields(a) ==> Fields(a)[k] == Fields(b)[k])
  }

  lemma SameByMembers(a: Json, b: Json, patch: Json)
    requires patch.Obj? && forall k :: AgreeAt(a, b, patch, k)
    ensures Patched(a, patch) == Patched(b, patch)
  {
    var pa, pb := Patched(a, patch).fields, Patched(b, patch).fields;
    forall k ensures k in pa <==> k in pb {
      assert AgreeAt(a, b, patch, k);
    }
    forall k | k in pa ensures pa[k] == pb[k] {
      assert AgreeAt(a, b, patch, k);
    }
    assert pa == pb;
  }

  lemma {:induction false} CoveredIsAbsorbed(target: Json, earlier: Json, later: Json)
    requires Covers(later, earlier)
    ensures Patched(Patched(target, earlier), later) == Patched(target, later)
    decreases later
  {
    if later.Obj? {
      var mid := Patched(target, earlier);
      forall k ensures AgreeAt(mid, target, later, k) {
        if k in later.fields && k in earlier.fields && later.fields[k].Obj? {
          CoveredIsAbsorbed(Member(target, k), earlier.fields[k], later.fields[k]);
        }
      }
      SameByMembers(mid, target, later);
    }
  }

  /** A document on which the earlier patch leaves a trace that the later one does not remove. */
  lemma {:induction false} UncoveredLeavesTrace(earlier: Json, later: Json) returns (target: Json)
    requires !Covers(later, earlier)
    ensures Patched(Patched(target, earlier), later) != Patched(target, later)
    decreases later
  {
    if !earlier.Obj? {
      var unused := Text.UnusedName(later.fields.Keys);
      target := Obj(map[unused := Bool(true)]);
      assert unused in Patched(target, later).fields;
      assert unused !in Patched(Patched(target, earlier), later).fields;
    } else {
      var k :| k in earlier.fields && !(k in later.fields && Covers(later.fields[k], earlier.fields[k]));
      if k !in later.fields {
        target := if earlier.fields[k].Null? then Obj(map[k := Bool(true)]) else Obj(map[]);
        assert k in Patched(Patched(target, earlier), later).fields <==> !earlier.fields[k].Null?;
        assert k in Patched(target, later).fields <==> earlier.fields[k].Null?;
      } else {
        var inner := UncoveredLeavesTrace(earlier.fields[k], later.fields[k]);
        target := Obj(map[k := inner]);
        var mid := Patched(target, earlier);
        assert Patched(target, later).fields[k] == Patched(inner, later.fields[k]);
        assert Patched(mid, later).fields[k] == Patched(Member(mid, k), later.fields[k]);
        if earlier.fields[k].Null? {
          assert Member(mid, k) == Null == Patched(inner, earlier.fields[k]);
        }
      }
    }
  }

  /** A later patch makes an earlier one irrelevant for every document exactly when it covers it. */
  lemma AbsorbedExactlyWhenCovered(earlier: Json, later: Json)
    ensures (forall target :: Patched(Patched(target, earlier), later) == Patched(target, later))
            <==> Covers(later, earlier)
  {
    if Covers(later, earlier) {
      forall target ensures Patched(Patched(target, earlier), later) == Patched(target, later) {
        CoveredIsAbsorbed(target, earlier, later);
      }
    } else {
      var target := UncoveredLeavesTrace(earlier, later);
    }
  }
}
