/**
 The override allowlist of the generate-document endpoints: a request body is checked
 leaf by leaf against dotted paths and, only if every leaf passes, merged (section 2
 of RFC 7396) over an input the server derived from its own records.
 */
module MergePatch {
  import opened JsonValue
  import opened Strings
  import opened Wrappers

  /** A key path from the root of a document. */
  type Path = seq<string>

  // ---------------------------------------------------------------------------
  // The check
  // ---------------------------------------------------------------------------

  function Dot(prefix: string, key: string): string {
    if prefix == "" then key else prefix + "." + key
  }

  /** An object with something in it; anything else is a leaf. */
  predicate Inner(j: Json) {
    j.Object? && j.fields != map[]
  }

  /**
   The dotted path of the first disallowed leaf under `keys`, in the order the members
   are iterated.
   */
  function FirstBad(extra: Json, keys: seq<string>, allowed: seq<string>, prefix: string): Option<string>
    requires extra.Object? && forall k :: k in keys ==> k in extra.fields
    decreases extra, |keys|
  {
    if keys == [] then None
    else
      var v, path := extra.fields[keys[0]], Dot(prefix, keys[0]);
      var here :=
        if Inner(v) then FirstBad(v, SortedKeys(v.fields.Keys), allowed, path)
        else if path in allowed then None
        else Some(path);
      if here.Some? then here else FirstBad(extra, keys[1..], allowed, prefix)
  }

  function Rejected(extra: Json, allowed: seq<string>): Option<string>
    requires extra.Object?
  {
    FirstBad(extra, SortedKeys(extra.fields.Keys), allowed, "")
  }

  /** The loop; the reply is the field a 422 names, if there is one. */
  method ValidateExtraAllowlist(extra: Json, allowed: seq<string>, prefix: string) returns (reply: Option<string>)
    requires extra.Object?
    ensures reply == FirstBad(extra, SortedKeys(extra.fields.Keys), allowed, prefix)
    decreases extra
  {
    var keys := SortedKeys(extra.fields.Keys);
    for i := 0 to |keys|
      invariant FirstBad(extra, keys, allowed, prefix) == FirstBad(extra, keys[i..], allowed, prefix)
    {
      var value := extra.fields[keys[i]];
      var path := Dot(prefix, keys[i]);
      assert keys[i..][1..] == keys[i + 1..];
      if value.Object? && value.fields != map[] {
        var inner := ValidateExtraAllowlist(value, allowed, path);
        if inner.Some? {
          return inner;
        }
        continue;
      }
      if path !in allowed {
        return Some(path);
      }
    }
    return None;
  }

  // ---------------------------------------------------------------------------
  // The merge
  // ---------------------------------------------------------------------------

  /** MergePatch of section 2 of RFC 7396. */
  function Merge(target: Json, patch: Json): Json
    decreases patch
  {
    if !patch.Object? then patch
    else
      var base := if target.Object? then target.fields else map[];
      Object(map k | k in base.Keys + patch.fields.Keys && !(k in patch.fields && patch.fields[k].Null?) ::
        if k in patch.fields then Merge(if k in base then base[k] else Null, patch.fields[k]) else base[k])
  }

  /** The document the handler builds and the merge overwrites. */
  class Input {
    var value: Json

    constructor (value: Json)
      ensures this.value == value
    {
      this.value := value;
    }

    method MergeAllowedExtra(extra: Json, allowed: seq<string>) returns (reply: Option<string>)
      requires extra.Object?
      modifies this
      ensures reply == Rejected(extra, allowed)
      ensures value == if reply.None? then Merge(old(value), extra) else old(value)
    {
      reply := ValidateExtraAllowlist(extra, allowed, "");
      if reply.Some? {
        return;
      }
      value := Merge(value, extra);
    }
  }

  // ---------------------------------------------------------------------------
  // What the check accepts
  // ---------------------------------------------------------------------------

  /** q leads to a leaf of j: a value that is not an object, or an empty object. */
  ghost predicate LeafPath(j: Json, q: Path)
    decreases |q|
  {
    && q != [] && j.Object? && q[0] in j.fields
    && if |q| == 1 then !Inner(j.fields[q[0]]) else LeafPath(j.fields[q[0]], q[1..])
  }

  function Dotted(prefix: string, q: Path): string
    decreases |q|
  {
    if q == [] then prefix else Dotted(Dot(prefix, q[0]), q[1..])
  }

  ghost predicate Allows(allowed: seq<string>, q: Path) {
    Dotted("", q) in allowed
  }

  /** q comes before r: at the first key where they differ, q has the smaller one. */
  ghost predicate Before(q: Path, r: Path) {
    exists i :: 0 <= i < |q| && i < |r| && q[..i] == r[..i] && Less(q[i], r[i])
  }

  lemma {:induction false} InnerHasLeaf(j: Json) returns (q: Path)
    requires Inner(j)
    ensures LeafPath(j, q)
    decreases j
  {
    var k :| k in j.fields;
    if Inner(j.fields[k]) {
      var rest := InnerHasLeaf(j.fields[k]);
      q := [k] + rest;
      assert q[1..] == rest;
    } else {
      q := [k];
    }
  }

  /** Every leaf path of the members `keys` is allowed. */
  ghost predicate LeavesAllowed(extra: Json, keys: seq<string>, allowed: seq<string>, prefix: string) {
    forall q :: LeafPath(extra, q) && q[0] in keys ==> Dotted(prefix, q) in allowed
  }

  /** The leaves below one member are the leaves of its value, each behind its key. */
  lemma LeavesOfInnerMember(extra: Json, k: string, allowed: seq<string>, prefix: string)
    requires extra.Object? && k in extra.fields && Inner(extra.fields[k])
    ensures var v := extra.fields[k];
            LeavesAllowed(extra, [k], allowed, prefix) <==>
              LeavesAllowed(v, SortedKeys(v.fields.Keys), allowed, Dot(prefix, k))
  {
    var v, path := extra.fields[k], Dot(prefix, k);
    if LeavesAllowed(extra, [k], allowed, prefix) {
      forall r | LeafPath(v, r) ensures Dotted(path, r) in allowed {
        assert ([k] + r)[1..] == r;
        assert LeafPath(extra, [k] + r) && Dotted(prefix, [k] + r) == Dotted(path, r);
      }
    }
    if LeavesAllowed(v, SortedKeys(v.fields.Keys), allowed, path) {
      forall q | LeafPath(extra, q) && q[0] in [k] ensures Dotted(prefix, q) in allowed {
        assert LeafPath(v, q[1..]) && Dotted(prefix, q) == Dotted(path, q[1..]);
      }
    }
  }

  lemma OnlyInnerHasLeaves(j: Json, q: Path)
    ensures LeafPath(j, q) ==> Inner(j)
  {
  }

  lemma LeavesOfLeafMember(extra: Json, k: string, allowed: seq<string>, prefix: string)
    requires extra.Object? && k in extra.fields && !Inner(extra.fields[k])
    ensures LeavesAllowed(extra, [k], allowed, prefix) <==> Dot(prefix, k) in allowed
  {
    assert [k][1..] == [] && Dotted(Dot(prefix, k), []) == Dot(prefix, k);
    assert LeafPath(extra, [k]) && Dotted(prefix, [k]) == Dot(prefix, k);
    forall q | LeafPath(extra, q) && q[0] in [k] ensures q == [k] {
      OnlyInnerHasLeaves(extra.fields[k], q[1..]);
    }
  }

  lemma LeavesOfMembers(extra: Json, keys: seq<string>, allowed: seq<string>, prefix: string)
    requires keys != []
    ensures LeavesAllowed(extra, keys, allowed, prefix) <==>
            LeavesAllowed(extra, [keys[0]], allowed, prefix) && LeavesAllowed(extra, keys[1..], allowed, prefix)
  {
    assert keys == [keys[0]] + keys[1..];
  }

  /** Acceptance of the members `keys`, read on leaf paths. */
  lemma {:induction false} AcceptedIffLeavesAllowed(extra: Json, keys: seq<string>, allowed: seq<string>,
                                                    prefix: string)
    requires extra.Object? && forall k :: k in keys ==> k in extra.fields
    ensures FirstBad(extra, keys, allowed, prefix).None? <==> LeavesAllowed(extra, keys, allowed, prefix)
    decreases extra, |keys|
  {
    if keys != [] {
      var k := keys[0];
      var v := extra.fields[k];
      AcceptedIffLeavesAllowed(extra, keys[1..], allowed, prefix);
      LeavesOfMembers(extra, keys, allowed, prefix);
      if Inner(v) {
        AcceptedIffLeavesAllowed(v, SortedKeys(v.fields.Keys), allowed, Dot(prefix, k));
        LeavesOfInnerMember(extra, k, allowed, prefix);
      } else {
        LeavesOfLeafMember(extra, k, allowed, prefix);
      }
    }
  }

  /** q is the first leaf under `keys` whose dotted path is not allowed. */
  ghost predicate FirstOffence(extra: Json, keys: seq<string>, allowed: seq<string>, prefix: string, q: Path) {
    && LeafPath(extra, q) && q[0] in keys && Dotted(prefix, q) !in allowed
    && forall r :: LeafPath(extra, r) && r[0] in keys && Before(r, q) ==> Dotted(prefix, r) in allowed
  }

  lemma LeafOfMember(extra: Json, prefix: string, r: Path)
    requires LeafPath(extra, r) && Inner(extra.fields[r[0]])
    ensures LeafPath(extra.fields[r[0]], r[1..]) && Dotted(prefix, r) == Dotted(Dot(prefix, r[0]), r[1..])
  {
  }

  lemma OffenceInside(extra: Json, keys: seq<string>, allowed: seq<string>, prefix: string, rest: Path)
    requires extra.Object? && keys != [] && keys[0] in extra.fields && Inner(extra.fields[keys[0]])
    requires forall j :: j in keys ==> !Less(j, keys[0])
    requires var v := extra.fields[keys[0]];
             FirstOffence(v, SortedKeys(v.fields.Keys), allowed, Dot(prefix, keys[0]), rest)
    ensures FirstOffence(extra, keys, allowed, prefix, [keys[0]] + rest)
    ensures Dotted(prefix, [keys[0]] + rest) == Dotted(Dot(prefix, keys[0]), rest)
  {
    var q := [keys[0]] + rest;
    assert q[1..] == rest;
    forall r | LeafPath(extra, r) && r[0] in keys && Before(r, q) ensures Dotted(prefix, r) in allowed {
      BeforeTail(r, q);
      LeafOfMember(extra, prefix, r);
    }
  }

  lemma OffenceHere(extra: Json, keys: seq<string>, allowed: seq<string>, prefix: string)
    requires extra.Object? && keys != [] && keys[0] in extra.fields && !Inner(extra.fields[keys[0]])
    requires forall j :: j in keys ==> !Less(j, keys[0])
    requires Dot(prefix, keys[0]) !in allowed
    ensures FirstOffence(extra, keys, allowed, prefix, [keys[0]])
    ensures Dotted(prefix, [keys[0]]) == Dot(prefix, keys[0])
  {
    var q := [keys[0]];
    assert q[1..] == [];
    forall r | LeafPath(extra, r) && r[0] in keys ensures !Before(r, q) {
      assert !Less(r[0], q[0]);
    }
  }

  lemma OffenceLater(extra: Json, keys: seq<string>, allowed: seq<string>, prefix: string, q: Path)
    requires extra.Object? && keys != [] && forall k :: k in keys ==> k in extra.fields
    requires FirstBad(extra, [keys[0]], allowed, prefix).None?
    requires FirstOffence(extra, keys[1..], allowed, prefix, q)
    ensures FirstOffence(extra, keys, allowed, prefix, q)
  {
    AcceptedIffLeavesAllowed(extra, [keys[0]], allowed, prefix);
    assert forall j :: j in keys ==> j in [keys[0]] || j in keys[1..];
  }

  /** A rejection names the first disallowed leaf in key order, and every leaf before it is allowed. */
  lemma {:induction false} FirstBadIsFirst(extra: Json, keys: seq<string>, allowed: seq<string>, prefix: string)
    returns (q: Path)
    requires extra.Object? && forall k :: k in keys ==> k in extra.fields
    requires Ascending(keys) && FirstBad(extra, keys, allowed, prefix).Some?
    ensures FirstOffence(extra, keys, allowed, prefix, q)
    ensures FirstBad(extra, keys, allowed, prefix) == Some(Dotted(prefix, q))
    decreases extra, |keys|
  {
    var k := keys[0];
    var v, path := extra.fields[k], Dot(prefix, k);
    assert forall j :: j in keys ==> !Less(j, k) by {
      forall i | 0 <= i < |keys| ensures !Less(keys[i], k) { LessIsTotal(keys[i], k); }
    }
    if Inner(v) && FirstBad(v, SortedKeys(v.fields.Keys), allowed, path).Some? {
      SortedKeysAscend(v.fields.Keys);
      var rest := FirstBadIsFirst(v, SortedKeys(v.fields.Keys), allowed, path);
      OffenceInside(extra, keys, allowed, prefix, rest);
      q := [k] + rest;
    } else if !Inner(v) && path !in allowed {
      OffenceHere(extra, keys, allowed, prefix);
      q := [k];
    } else {
      assert FirstBad(extra, [k], allowed, prefix).None? by { assert [k][1..] == []; }
      q := FirstBadIsFirst(extra, keys[1..], allowed, prefix);
      OffenceLater(extra, keys, allowed, prefix, q);
    }
  }

  lemma BeforeTail(r: Path, q: Path)
    requires r != [] && q != [] && Before(r, q) && !Less(r[0], q[0])
    ensures r[0] == q[0] && Before(r[1..], q[1..])
  {
    var i :| 0 <= i < |r| && i < |q| && r[..i] == q[..i] && Less(r[i], q[i]);
    assert r[..i][0] == q[..i][0];
    assert r[1..][..i - 1] == r[..i][1..] == q[..i][1..] == q[1..][..i - 1];
    assert Less(r[1..][i - 1], q[1..][i - 1]);
  }

  /** The check accepts a body if and only if every leaf of it is on the allowlist. */
  lemma CheckDecidesLeaves(extra: Json, allowed: seq<string>)
    requires extra.Object?
    ensures Rejected(extra, allowed).None? <==> forall q :: LeafPath(extra, q) ==> Allows(allowed, q)
  {
    var keys := SortedKeys(extra.fields.Keys);
    AcceptedIffLeavesAllowed(extra, keys, allowed, "");
    assert forall q :: LeafPath(extra, q) ==> q[0] in keys && (Allows(allowed, q) <==> Dotted("", q) in allowed);
  }

  /** A refused body is answered with the first disallowed leaf of the whole document. */
  lemma RejectionNamesFirstLeaf(extra: Json, allowed: seq<string>) returns (q: Path)
    requires extra.Object? && Rejected(extra, allowed).Some?
    ensures Rejected(extra, allowed) == Some(Dotted("", q))
    ensures LeafPath(extra, q) && !Allows(allowed, q)
    ensures forall r :: LeafPath(extra, r) && Before(r, q) ==> Allows(allowed, r)
  {
    SortedKeysAscend(extra.fields.Keys);
    q := FirstBadIsFirst(extra, SortedKeys(extra.fields.Keys), allowed, "");
  }

  // ---------------------------------------------------------------------------
  // What the merge changes
  // ---------------------------------------------------------------------------

  function At(j: Json, p: Path): Option<Json>
    decreases |p|
  {
    if p == [] then Some(j)
    else if j.Object? && p[0] in j.fields then At(j.fields[p[0]], p[1..])
    else None
  }

  predicate Comparable(p: Path, q: Path) { p <= q || q <= p }

  lemma {:induction false} MergeFrame(base: Json, patch: Json, p: Path)
    requires patch.Object? && (base.Object? || p != [])
    requires forall q :: LeafPath(patch, q) ==> !Comparable(p, q)
    ensures At(Merge(base, patch), p) == At(base, p)
    decreases patch
  {
    if p == [] {
      if Inner(patch) {
        var q := InnerHasLeaf(patch);
        assert false;
      } else {
        assert Merge(base, patch).fields == base.fields;
      }
      return;
    }
    var k, rest := p[0], p[1..];
    if k !in patch.fields { return; }
    var v := patch.fields[k];
    assert Comparable(p, [k]);
    assert !Inner(v) ==> LeafPath(patch, [k]);
    if !Inner(v) {
      assert false;
    }
    forall q | LeafPath(v, q) ensures !Comparable(rest, q) {
      assert ([k] + q)[1..] == q;
      assert LeafPath(patch, [k] + q);
      assert Comparable(rest, q) ==> Comparable(p, [k] + q);
    }
    var q := InnerHasLeaf(v);
    assert rest != [];
    var b := if base.Object? && k in base.fields then base.fields[k] else Null;
    MergeFrame(b, v, rest);
  }

  /**
   The frame theorem: after an accepted merge, whatever stood (or did not stand) at a key
   path comparable to no allowed path stands there unchanged.
   */
  lemma DerivedValuesSurvive(base: Json, extra: Json, allowed: seq<string>, p: Path)
    requires base.Object? && extra.Object? && Rejected(extra, allowed).None?
    requires forall q :: q != [] && Allows(allowed, q) ==> !Comparable(p, q)
    ensures At(Merge(base, extra), p) == At(base, p)
  {
    CheckDecidesLeaves(extra, allowed);
    MergeFrame(base, extra, p);
  }

  /** What a leaf of the patch does: null deletes, {} makes an object, anything else is stored. */
  lemma {:induction false} PatchLeafApplies(target: Json, patch: Json, q: Path)
    requires LeafPath(patch, q)
    ensures At(patch, q).Some?
    ensures var leaf, was := At(patch, q).value, At(target, q);
            At(Merge(target, patch), q) ==
              if leaf.Null? then None
              else if leaf.Object? && was.Some? && was.value.Object? then was
              else Some(leaf)
    decreases patch
  {
    var k := q[0];
    var v := patch.fields[k];
    var b := if target.Object? && k in target.fields then target.fields[k] else Null;
    if |q| == 1 {
      assert q[1..] == [];
      if v.Object? && b.Object? {
        assert Merge(b, v).fields == b.fields;
      }
    } else {
      PatchLeafApplies(b, v, q[1..]);
    }
  }

  /** The member k of the object at p, if there is an object at p and it has one. */
  predicate HasMember(j: Json, p: Path, k: string) {
    At(j, p).Some? && At(j, p).value.Object? && k in At(j, p).value.fields
  }

  /**
   What a merge does where the patch has an object: an object stands there, with the members
   the target has there and those of the patch, less those the patch sets to null.  A target
   without an object there has none to give.
   */
  lemma {:induction false} PatchObjectApplies(target: Json, patch: Json, p: Path)
    requires At(patch, p).Some? && At(patch, p).value.Object?
    ensures At(Merge(target, patch), p).Some? && At(Merge(target, patch), p).value.Object?
    ensures forall k :: HasMember(Merge(target, patch), p, k) <==>
              if HasMember(patch, p, k) then !At(patch, p).value.fields[k].Null? else HasMember(target, p, k)
    decreases |p|
  {
    if p != [] {
      var b := if target.Object? && p[0] in target.fields then target.fields[p[0]] else Null;
      var v := patch.fields[p[0]];
      PatchObjectApplies(b, v, p[1..]);
      assert At(Merge(target, patch), p) == At(Merge(b, v), p[1..]);
      assert forall k :: HasMember(target, p, k) <==> HasMember(b, p[1..], k);
      assert forall k :: HasMember(Merge(target, patch), p, k) <==> HasMember(Merge(b, v), p[1..], k);
    }
  }

  /** A string where the patch nests an object gives way to it, even if all it does is delete. */
  lemma DeletingInsideReplaces()
    ensures var base := Object(map["seller" := String("x")]);
            var extra := Object(map["seller" := Object(map["bank" := Null])]);
            && Rejected(extra, ["seller.bank"]).None?
            && Merge(base, extra) == Object(map["seller" := Object(map[])])
  {
    var base := Object(map["seller" := String("x")]);
    var inner := Object(map["bank" := Null]);
    var extra := Object(map["seller" := inner]);
    assert Inner(inner) by { assert "bank" in inner.fields; }
    TwoKeys("seller", "bank");
    assert "seller" + "." + "bank" == "seller.bank";
    forall q | LeafPath(extra, q) ensures q == ["seller", "bank"] {
      assert LeafPath(inner, q[1..]);
      OnlyInnerHasLeaves(Null, q[1..][1..]);
    }
    CheckDecidesLeaves(extra, ["seller.bank"]);
    assert Merge(String("x"), inner) == Object(map[]);
  }

  lemma TwoKeys(k: string, l: string)
    requires k != ""
    ensures Dotted("", [k, l]) == k + "." + l
  {
    assert [k, l][1..] == [l] && [l][1..] == [];
    assert Dotted(k, [l]) == Dotted(k + "." + l, []);
  }

  /** Sending the same body again changes nothing. */
  lemma {:induction false} MergeIsIdempotent(target: Json, patch: Json)
    ensures Merge(Merge(target, patch), patch) == Merge(target, patch)
    decreases patch
  {
    if patch.Object? {
      var once := Merge(target, patch);
      var twice := Merge(once, patch);
      forall k | k in once.fields ensures k in twice.fields && twice.fields[k] == once.fields[k] {
        if k in patch.fields {
          var b := if target.Object? && k in target.fields then target.fields[k] else Null;
          MergeIsIdempotent(b, patch.fields[k]);
        }
      }
      assert twice.fields.Keys == once.fields.Keys;
      assert twice.fields == once.fields;
    }
  }

  // ---------------------------------------------------------------------------
  // The allowlist is exact
  // ---------------------------------------------------------------------------

  function Nest(q: Path, x: Json): Json
    decreases |q|
  {
    if q == [] then x else Object(map[q[0] := Nest(q[1..], x)])
  }

  lemma {:induction false} NestHasOneLeaf(q: Path, x: Json, r: Path)
    requires q != [] && !Inner(x)
    ensures LeafPath(Nest(q, x), r) <==> r == q
    ensures At(Nest(q, x), q) == Some(x)
    decreases |q|
  {
    if |q| == 1 {
      assert q[1..] == [];
    } else {
      assert q[0] in Nest(q, x).fields && Nest(q, x).fields[q[0]] == Nest(q[1..], x);
      assert Nest(q[1..], x).fields != map[] by { assert q[1] in Nest(q[1..], x).fields; }
      NestHasOneLeaf(q[1..], x, if |r| > 1 then r[1..] else q[1..]);
      if r != [] && r[0] == q[0] && |r| > 1 {
        assert r == [r[0]] + r[1..] && q == [q[0]] + q[1..];
      }
    }
  }

  lemma {:induction false} AtSplit(j: Json, p: Path, r: Path)
    ensures At(j, p + r) == if At(j, p).Some? then At(At(j, p).value, r) else None
    decreases |p|
  {
    if p == [] {
      assert p + r == r;
    } else {
      assert (p + r)[1..] == p[1..] + r;
      if j.Object? && p[0] in j.fields {
        AtSplit(j.fields[p[0]], p[1..], r);
      }
    }
  }

  /** An allowed path comparable to a stored value's path is enough to change the value. */
  lemma OverrideExists(base: Json, allowed: seq<string>, p: Path, q: Path) returns (extra: Json)
    requires base.Object? && p != [] && At(base, p).Some?
    requires q != [] && Allows(allowed, q) && Comparable(p, q)
    ensures extra.Object? && Rejected(extra, allowed).None?
    ensures At(Merge(base, extra), p) != At(base, p)
  {
    var x := if At(base, q) == Some(Bool(true)) then Bool(false) else Bool(true);
    extra := Nest(q, x);
    forall r ensures LeafPath(extra, r) <==> r == q { NestHasOneLeaf(q, x, r); }
    CheckDecidesLeaves(extra, allowed);
    NestHasOneLeaf(q, x, q);
    PatchLeafApplies(base, extra, q);
    var m := Merge(base, extra);
    assert At(m, q) == Some(x) != At(base, q);
    if q <= p {
      assert p == q + p[|q|..];
      AtSplit(m, q, p[|q|..]);
      if |p| == |q| {
        assert p == q;
      } else {
        assert At(x, p[|q|..]).None?;
      }
    } else {
      assert q == p + q[|p|..];
      AtSplit(m, p, q[|p|..]);
      AtSplit(base, p, q[|p|..]);
    }
  }

  /**
   A stored value, object or scalar, survives every accepted body if and only if no allowed
   path is a prefix or an extension of its own.
   */
  lemma AllowlistIsExact(base: Json, allowed: seq<string>, p: Path)
    requires base.Object? && p != [] && At(base, p).Some?
    ensures (forall extra: Json :: extra.Object? && Rejected(extra, allowed).None? ==>
               At(Merge(base, extra), p) == At(base, p))
            <==>
            (forall q :: q != [] && Allows(allowed, q) ==> !Comparable(p, q))
  {
    if forall q :: q != [] && Allows(allowed, q) ==> !Comparable(p, q) {
      forall extra: Json | extra.Object? && Rejected(extra, allowed).None?
        ensures At(Merge(base, extra), p) == At(base, p)
      {
        DerivedValuesSurvive(base, extra, allowed, p);
      }
    } else {
      var q :| q != [] && Allows(allowed, q) && Comparable(p, q);
      var extra := OverrideExists(base, allowed, p, q);
    }
  }

  lemma {:induction false} DottedSplit(prefix: string, a: Path, b: Path)
    ensures Dotted(prefix, a + b) == Dotted(Dotted(prefix, a), b)
    decreases |a|
  {
    if a == [] {
      assert a + b == b;
    } else {
      assert (a + b)[1..] == a[1..] + b;
      DottedSplit(Dot(prefix, a[0]), a[1..], b);
    }
  }

  lemma {:induction false} DottedExtends(prefix: string, r: Path)
    requires prefix != "" && r != []
    ensures prefix + "." <= Dotted(prefix, r)
    decreases |r|
  {
    if |r| > 1 {
      DottedExtends(Dot(prefix, r[0]), r[1..]);
    } else {
      assert r[1..] == [];
    }
  }

  /**
   No allowed string is the dotted form of a prefix of the path, or starts with the path's
   dotted form and a dot: what a controller can read off its allowlist.  A path of empty
   keys has an empty dotted form, and every string extends it.
   */
  ghost predicate StringsKeepOff(allowed: seq<string>, p: Path) {
    if Dotted("", p) == "" then allowed == []
    else
      && (forall q :: q != [] && q <= p ==> Dotted("", q) !in allowed)
      && (forall a :: a in allowed ==> !(Dotted("", p) + "." <= a))
  }

  /** The string that an extension of the path by one key spells. */
  lemma OneKeyMore(p: Path, key: string)
    ensures Dotted("", p + [key]) == Dot(Dotted("", p), key)
  {
    DottedSplit("", p, [key]);
    assert [key][1..] == [];
    assert Dotted(Dot(Dotted("", p), key), []) == Dot(Dotted("", p), key);
  }

  /** An allowed string that extends the path's dotted form is an allowed path that extends the path. */
  lemma ExtensionIsAPath(allowed: seq<string>, p: Path, a: string)
    requires a in allowed && (Dotted("", p) == "" || Dotted("", p) + "." <= a)
    ensures exists q :: q != [] && Allows(allowed, q) && Comparable(p, q)
  {
    var d := Dotted("", p);
    var key := if d == "" then a else a[|d| + 1..];
    OneKeyMore(p, key);
    assert d != "" ==> a == d + "." + key;
    assert Allows(allowed, p + [key]) && p <= p + [key];
  }

  lemma StringsAreComparablePaths(allowed: seq<string>, p: Path)
    requires p != []
    ensures StringsKeepOff(allowed, p) <==> forall q :: q != [] && Allows(allowed, q) ==> !Comparable(p, q)
  {
    if StringsKeepOff(allowed, p) {
      forall q | q != [] && Allows(allowed, q) ensures !Comparable(p, q) {
        if p <= q && p != q {
          assert q == p + q[|p|..];
          DottedSplit("", p, q[|p|..]);
          DottedExtends(Dotted("", p), q[|p|..]);
        }
      }
    } else if Dotted("", p) == "" {
      ExtensionIsAPath(allowed, p, allowed[0]);
    } else if q :| q != [] && q <= p && Dotted("", q) in allowed {
      assert Allows(allowed, q) && Comparable(p, q);
    } else {
      var a :| a in allowed && Dotted("", p) + "." <= a;
      ExtensionIsAPath(allowed, p, a);
    }
  }

  /** The protection read on the allowlist's own strings, keys with dots included. */
  lemma StringsProtect(base: Json, extra: Json, allowed: seq<string>, p: Path)
    requires base.Object? && extra.Object? && Rejected(extra, allowed).None?
    requires p != [] && StringsKeepOff(allowed, p)
    ensures At(Merge(base, extra), p) == At(base, p)
  {
    StringsAreComparablePaths(allowed, p);
    DerivedValuesSurvive(base, extra, allowed, p);
  }

  /** A stored value survives every accepted body if and only if the allowlist's strings keep off its path. */
  lemma StringsAreExact(base: Json, allowed: seq<string>, p: Path)
    requires base.Object? && p != [] && At(base, p).Some?
    ensures (forall extra: Json :: extra.Object? && Rejected(extra, allowed).None? ==>
               At(Merge(base, extra), p) == At(base, p))
       <==> StringsKeepOff(allowed, p)
  {
    AllowlistIsExact(base, allowed, p);
    StringsAreComparablePaths(allowed, p);
  }
}
