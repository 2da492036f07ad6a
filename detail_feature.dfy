/** frontend/src/components/DetailFeature: resolving a shop's type, concept and layout references. */
module DetailFeature {
  import opened Wrappers
  import opened ShopTypes

  /** Array.prototype.find: the first element whose id is `id`. */
  function FindFirst<T>(entities: seq<T>, getId: T -> int, id: int): (r: Option<T>)
    ensures r.Some? ==> (exists k :: 0 <= k < |entities| && entities[k] == r.value && getId(r.value) == id
                                    && forall j :: 0 <= j < k ==> getId(entities[j]) != id)
    ensures r.None? <==> forall j :: 0 <= j < |entities| ==> getId(entities[j]) != id
    decreases |entities|
  {
    if entities == [] then None
    else if getId(entities[0]) == id then Some(entities[0])
    else
      var r := FindFirst(entities[1..], getId, id);
      assert forall j :: 1 <= j < |entities| ==> entities[j] == entities[1..][j - 1];
      r
  }

  /** mapToFetchedEntities: look every id up and drop the misses. */
  function MapToFetchedEntities<T>(ids: seq<int>, fetched: seq<T>, getId: T -> int): (r: seq<T>)
    ensures |r| <= |ids|
    ensures forall x :: x in r ==> x in fetched
    decreases |ids|
  {
    if ids == [] then []
    else
      var rest := MapToFetchedEntities(ids[1..], fetched, getId);
      match FindFirst(fetched, getId, ids[0])
      case Some(e) => [e] + rest
      case None => rest
  }

  /** The ids of the resolved entities are the found ids, in the input order. */
  function FoundIds<T>(ids: seq<int>, fetched: seq<T>, getId: T -> int): seq<int>
    decreases |ids|
  {
    if ids == [] then []
    else if FindFirst(fetched, getId, ids[0]).Some? then [ids[0]] + FoundIds(ids[1..], fetched, getId)
    else FoundIds(ids[1..], fetched, getId)
  }

  /**
   * Each output is the first fetched entity carrying the corresponding found id, so output
   * order follows input order; when every id resolves the output has one entry per id.
   */
  lemma {:induction false} MapToFetchedEntitiesSpec<T>(ids: seq<int>, fetched: seq<T>, getId: T -> int)
    ensures var r := MapToFetchedEntities(ids, fetched, getId);
      var found := FoundIds(ids, fetched, getId);
      |r| == |found|
      && (forall i :: 0 <= i < |r| ==> FindFirst(fetched, getId, found[i]) == Some(r[i]))
    ensures (forall i :: 0 <= i < |ids| ==> FindFirst(fetched, getId, ids[i]).Some?) ==>
      FoundIds(ids, fetched, getId) == ids
    decreases |ids|
  {
    if ids != [] {
      MapToFetchedEntitiesSpec(ids[1..], fetched, getId);
      var rest := MapToFetchedEntities(ids[1..], fetched, getId);
      var restFound := FoundIds(ids[1..], fetched, getId);
      match FindFirst(fetched, getId, ids[0]) {
        case Some(e) =>
          var r := [e] + rest;
          var found := [ids[0]] + restFound;
          assert MapToFetchedEntities(ids, fetched, getId) == r;
          assert FoundIds(ids, fetched, getId) == found;
          forall i | 0 <= i < |r|
            ensures FindFirst(fetched, getId, found[i]) == Some(r[i])
          {
            if i > 0 {
              assert r[i] == rest[i - 1] && found[i] == restFound[i - 1];
            }
          }
        case None =>
          assert MapToFetchedEntities(ids, fetched, getId) == rest;
          assert FoundIds(ids, fetched, getId) == restFound;
      }
      if forall i :: 0 <= i < |ids| ==> FindFirst(fetched, getId, ids[i]).Some? {
        assert forall i :: 0 <= i < |ids| - 1 ==> ids[1..][i] == ids[i + 1];
        assert ids == [ids[0]] + ids[1..];
      }
    }
  }

  function EntityId(e: Entity): int
  {
    e.id
  }

  /** One entry of the inline resolution: numbers are looked up, objects kept, nulls dropped. */
  function ResolveRef(r: Ref, fetched: seq<Entity>): Option<Entity>
  {
    match r
    case IdRef(id) => FindFirst(fetched, EntityId, id)
    case ObjRef(e) => Some(e)
    case NoRef => None
  }

  /** ResolveRef against a fixed list of fetched entities. */
  function Resolver(fetched: seq<Entity>): Ref -> Option<Entity>
  {
    r => ResolveRef(r, fetched)
  }

  /** The positions of `xs` on which `f` yields a value, in order. */
  ghost function KeptBy<A, B>(xs: seq<A>, f: A -> Option<B>): (r: seq<nat>)
    ensures forall i :: 0 <= i < |r| ==> r[i] < |xs|
    decreases |xs|
  {
    if xs == [] then []
    else (if f(xs[0]).Some? then [0] else []) + Shifted(KeptBy(xs[1..], f))
  }

  /** The positions of `refs` that resolve (an object, or an id found among the fetched entities), in order. */
  ghost function Kept(refs: seq<Ref>, fetched: seq<Entity>): (r: seq<nat>)
    ensures forall i :: 0 <= i < |r| ==> r[i] < |refs|
  {
    KeptBy(refs, Resolver(fetched))
  }

  /** Every position moved one place right. */
  function Shifted(ks: seq<nat>): (r: seq<nat>)
    ensures |r| == |ks| && forall i :: 0 <= i < |ks| ==> r[i] == ks[i] + 1
  {
    seq(|ks|, i requires 0 <= i < |ks| => ks[i] + 1)
  }

  lemma ShiftedMember(ks: seq<nat>, x: nat)
    requires x in ks
    ensures x + 1 in Shifted(ks)
  {
    var m :| 0 <= m < |ks| && ks[m] == x;
    assert Shifted(ks)[m] == x + 1;
  }

  lemma {:induction false} KeptByIncreasing<A, B>(xs: seq<A>, f: A -> Option<B>)
    ensures forall i, j :: 0 <= i < j < |KeptBy(xs, f)| ==> KeptBy(xs, f)[i] < KeptBy(xs, f)[j]
    decreases |xs|
  {
    if xs != [] {
      KeptByIncreasing(xs[1..], f);
      var rest := KeptBy(xs[1..], f);
      var pre := if f(xs[0]).Some? then [0] else [];
      var full := KeptBy(xs, f);
      assert full == pre + Shifted(rest);
      forall i, j | 0 <= i < j < |full|
        ensures full[i] < full[j]
      {
        if i >= |pre| {
          assert full[i] == rest[i - |pre|] + 1 && full[j] == rest[j - |pre|] + 1;
        } else {
          assert full[j] == rest[j - 1] + 1;
        }
      }
    }
  }

  lemma {:induction false} KeptByComplete<A, B>(xs: seq<A>, f: A -> Option<B>)
    ensures forall k :: 0 <= k < |xs| && f(xs[k]).Some? ==> k in KeptBy(xs, f)
    decreases |xs|
  {
    if xs != [] {
      KeptByComplete(xs[1..], f);
      var rest := KeptBy(xs[1..], f);
      var pre := if f(xs[0]).Some? then [0] else [];
      var full := KeptBy(xs, f);
      assert full == pre + Shifted(rest);
      forall k | 0 <= k < |xs| && f(xs[k]).Some?
        ensures k in full
      {
        if k == 0 {
          assert full[0] == 0;
        } else {
          assert xs[1..][k - 1] == xs[k];
          ShiftedMember(rest, k - 1);
        }
      }
    }
  }

  /** Kept lists the resolving positions in increasing order. */
  lemma KeptIncreasing(refs: seq<Ref>, fetched: seq<Entity>)
    ensures forall i, j :: 0 <= i < j < |Kept(refs, fetched)| ==> Kept(refs, fetched)[i] < Kept(refs, fetched)[j]
  {
    KeptByIncreasing(refs, Resolver(fetched));
  }

  /** Every resolving position is listed by Kept. */
  lemma KeptComplete(refs: seq<Ref>, fetched: seq<Entity>)
    ensures forall k :: 0 <= k < |refs| && ResolveRef(refs[k], fetched).Some? ==> k in Kept(refs, fetched)
  {
    KeptByComplete(refs, Resolver(fetched));
  }

  /** A value at the head, then the values of the rest, are the values at the kept positions. */
  lemma KeptByHit<A, B>(xs: seq<A>, f: A -> Option<B>, e: B, rest: seq<B>)
    requires xs != [] && f(xs[0]) == Some(e)
    requires |rest| == |KeptBy(xs[1..], f)|
    requires forall i :: 0 <= i < |rest| ==> Some(rest[i]) == f(xs[1..][KeptBy(xs[1..], f)[i]])
    ensures |[e] + rest| == |KeptBy(xs, f)|
    ensures forall i :: 0 <= i < |[e] + rest| ==> Some(([e] + rest)[i]) == f(xs[KeptBy(xs, f)[i]])
  {
    var kept := KeptBy(xs[1..], f);
    var full := KeptBy(xs, f);
    assert full == [0] + Shifted(kept);
    var r := [e] + rest;
    forall i | 1 <= i < |r|
      ensures Some(r[i]) == f(xs[full[i]])
    {
      assert r[i] == rest[i - 1];
      assert full[i] == kept[i - 1] + 1;
      assert xs[full[i]] == xs[1..][kept[i - 1]];
    }
  }

  /** No value at the head: the values of the rest are the values at the kept positions. */
  lemma KeptByMiss<A, B>(xs: seq<A>, f: A -> Option<B>, rest: seq<B>)
    requires xs != [] && f(xs[0]).None?
    requires |rest| == |KeptBy(xs[1..], f)|
    requires forall i :: 0 <= i < |rest| ==> Some(rest[i]) == f(xs[1..][KeptBy(xs[1..], f)[i]])
    ensures |rest| == |KeptBy(xs, f)|
    ensures forall i :: 0 <= i < |rest| ==> Some(rest[i]) == f(xs[KeptBy(xs, f)[i]])
  {
    var kept := KeptBy(xs[1..], f);
    var full := KeptBy(xs, f);
    assert full == Shifted(kept);
    forall i | 0 <= i < |rest|
      ensures Some(rest[i]) == f(xs[full[i]])
    {
      assert xs[full[i]] == xs[1..][kept[i]];
    }
  }

  /**
   * The inline map-then-filter over a shop's references: one entity per resolving position,
   * in the order of `refs`, each the object kept as it is or the entity found for the id.
   */
  function ResolveRefs(refs: seq<Ref>, fetched: seq<Entity>): (r: seq<Entity>)
    ensures |r| == |Kept(refs, fetched)|
    ensures forall i :: 0 <= i < |r| ==> Some(r[i]) == ResolveRef(refs[Kept(refs, fetched)[i]], fetched)
    decreases |refs|
  {
    if refs == [] then []
    else
      var rest := ResolveRefs(refs[1..], fetched);
      match ResolveRef(refs[0], fetched)
      case Some(e) => KeptByHit(refs, Resolver(fetched), e, rest); [e] + rest
      case None => KeptByMiss(refs, Resolver(fetched), rest); rest
  }

  /** Every resolved entity is an object entry of `refs` or a fetched entity whose id is an entry of `refs`. */
  lemma ResolveRefsSound(refs: seq<Ref>, fetched: seq<Entity>)
    ensures forall e :: e in ResolveRefs(refs, fetched) ==>
      ObjRef(e) in refs || (e in fetched && IdRef(e.id) in refs)
  {
    var r := ResolveRefs(refs, fetched);
    var kept := Kept(refs, fetched);
    forall e | e in r
      ensures ObjRef(e) in refs || (e in fetched && IdRef(e.id) in refs)
    {
      var i :| 0 <= i < |r| && r[i] == e;
      assert refs[kept[i]] in refs;
    }
  }

  /** When every entry is already an object, the resolution is those objects, in order. */
  lemma {:induction false} ObjectRefsKept(refs: seq<Ref>, fetched: seq<Entity>)
    requires forall i :: 0 <= i < |refs| ==> refs[i].ObjRef?
    ensures ResolveRefs(refs, fetched) == seq(|refs|, i requires 0 <= i < |refs| => refs[i].entity)
    decreases |refs|
  {
    if refs != [] {
      var tail := refs[1..];
      assert forall i :: 0 <= i < |tail| ==> tail[i] == refs[i + 1];
      ObjectRefsKept(tail, fetched);
      var objects := seq(|refs|, i requires 0 <= i < |refs| => refs[i].entity);
      assert ResolveRef(refs[0], fetched) == Some(refs[0].entity);
      assert ResolveRefs(refs, fetched) == [refs[0].entity] + ResolveRefs(tail, fetched);
      assert objects == [refs[0].entity] + seq(|tail|, i requires 0 <= i < |tail| => tail[i].entity);
    }
  }

  /** `list.find(x => x.id === id)?.name || fallback`. */
  function NameOr(entities: seq<Entity>, id: int, fallback: string): (name: string)
    ensures name == fallback <==> (FindFirst(entities, EntityId, id).None?
                                   || FindFirst(entities, EntityId, id).value.name in {"", fallback})
    ensures FindFirst(entities, EntityId, id).Some? && FindFirst(entities, EntityId, id).value.name != ""
      ==> name == FindFirst(entities, EntityId, id).value.name
  {
    match FindFirst(entities, EntityId, id)
    case Some(e) => if e.name != "" then e.name else fallback
    case None => fallback
  }

  function TypeName(types: seq<Entity>, id: int): string
  {
    NameOr(types, id, "Unknown Type")
  }

  function ConceptName(concepts: seq<Entity>, id: int): string
  {
    NameOr(concepts, id, "Unknown Concept")
  }

  function LayoutName(layouts: seq<Entity>, id: int): string
  {
    NameOr(layouts, id, "Unknown Layout")
  }

  /** Ids that are not among the loaded entities show the fallbacks. */
  lemma UnknownIdsFallBack(types: seq<Entity>, concepts: seq<Entity>, layouts: seq<Entity>, id: int)
    requires forall e :: e in types + concepts + layouts ==> e.id != id
    ensures TypeName(types, id) == "Unknown Type"
    ensures ConceptName(concepts, id) == "Unknown Concept"
    ensures LayoutName(layouts, id) == "Unknown Layout"
  {
    assert forall j :: 0 <= j < |types| ==> types[j] in types + concepts + layouts;
    assert forall j :: 0 <= j < |concepts| ==> concepts[j] in types + concepts + layouts;
    assert forall j :: 0 <= j < |layouts| ==> layouts[j] in types + concepts + layouts;
  }
}
