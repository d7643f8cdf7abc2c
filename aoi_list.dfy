/**
 * The list operations behind the store's actions: `updateAoi` maps an
 * overlay over the entries with a given id, `removeAoi` filters them out,
 * and `addAoi` appends without looking at ids. Each is a pure function
 * of the old list; the store writes the result back.
 */
module AoiList {
  import opened AoiTypes

  /** The record with every field present in `u` written over it. */
  function Overlay(a: Aoi, u: AoiUpdate): (r: Aoi)
    ensures u.id.None? ==> r.id == a.id
    ensures u.name.None? ==> r.name == a.name
    ensures u.geometry.None? ==> r.geometry == a.geometry
    ensures u.createdAt.None? ==> r.createdAt == a.createdAt
    ensures u.id.Some? ==> r.id == u.id.value
    ensures u.name.Some? ==> r.name == u.name.value
    ensures u.geometry.Some? ==> r.geometry == u.geometry.value
    ensures u.createdAt.Some? ==> r.createdAt == u.createdAt.value
  {
    Aoi(
      if u.id.Some? then u.id.value else a.id,
      if u.name.Some? then u.name.value else a.name,
      if u.geometry.Some? then u.geometry.value else a.geometry,
      if u.createdAt.Some? then u.createdAt.value else a.createdAt)
  }

  /** An update with no fields present. */
  const NoUpdate := AoiUpdate(None, None, None, None)

  /** An update that carries no field leaves the record as it was. */
  lemma OverlayEmptyUpdate(a: Aoi)
    ensures Overlay(a, NoUpdate) == a
  {
  }

  /** Spreading the same update twice is the same as spreading it once. */
  lemma OverlayIdempotent(a: Aoi, u: AoiUpdate)
    ensures Overlay(Overlay(a, u), u) == Overlay(a, u)
  {
  }

  /** Every entry whose id is `id` with the update spread over it; every other entry as it was. */
  function Updated(aois: seq<Aoi>, id: string, u: AoiUpdate): (r: seq<Aoi>)
    ensures |r| == |aois|
    ensures forall i :: 0 <= i < |aois| && aois[i].id == id ==> r[i] == Overlay(aois[i], u)
    ensures forall i :: 0 <= i < |aois| && aois[i].id != id ==> r[i] == aois[i]
  {
    if aois == [] then []
    else [if aois[0].id == id then Overlay(aois[0], u) else aois[0]] + Updated(aois[1..], id, u)
  }

  /** The entries whose id differs from `id`, in their original order. */
  function Removed(aois: seq<Aoi>, id: string): (r: seq<Aoi>)
    ensures |r| <= |aois|
    ensures forall a :: a in r <==> a in aois && a.id != id
  {
    if aois == [] then []
    else if aois[0].id != id then [aois[0]] + Removed(aois[1..], id)
    else Removed(aois[1..], id)
  }

  /** How many entries carry the id. */
  function CountId(aois: seq<Aoi>, id: string): nat
  {
    if aois == [] then 0
    else (if aois[0].id == id then 1 else 0) + CountId(aois[1..], id)
  }

  /** `s` is `t` with some entries dropped and the rest in their original order. */
  predicate IsSubsequence<T(==)>(s: seq<T>, t: seq<T>)
    decreases |t|
  {
    s == [] || (t != [] && ((s[0] == t[0] && IsSubsequence(s[1..], t[1..])) || IsSubsequence(s, t[1..])))
  }

  lemma {:induction false} CountIdAppend(aois: seq<Aoi>, a: Aoi, id: string)
    ensures CountId(aois + [a], id) == CountId(aois, id) + (if a.id == id then 1 else 0)
  {
    if aois == [] {
      assert aois + [a] == [a];
    } else {
      assert (aois + [a])[1..] == aois[1..] + [a];
      CountIdAppend(aois[1..], a, id);
    }
  }

  lemma {:induction false} CountIdPresent(aois: seq<Aoi>, id: string)
    ensures CountId(aois, id) > 0 <==> exists a :: a in aois && a.id == id
  {
    if aois != [] {
      CountIdPresent(aois[1..], id);
      assert forall a :: a in aois <==> a == aois[0] || a in aois[1..];
    }
  }

  /**
   * Appending never checks ids: appending a record whose id is already
   * listed leaves two entries with that id.
   */
  lemma AppendKeepsDuplicates(aois: seq<Aoi>, a: Aoi)
    requires exists b :: b in aois && b.id == a.id
    ensures CountId(aois + [a], a.id) == CountId(aois, a.id) + 1 >= 2
  {
    CountIdAppend(aois, a, a.id);
    CountIdPresent(aois, a.id);
  }

  /** Appending puts the record last and leaves the earlier entries in place. */
  lemma AppendKeepsPrefix(aois: seq<Aoi>, a: Aoi)
    ensures |aois + [a]| == |aois| + 1
    ensures (aois + [a])[..|aois|] == aois && (aois + [a])[|aois|] == a
  {
  }

  /** An update aimed at an id nobody carries leaves the list as it was. */
  lemma UpdatedUnknownId(aois: seq<Aoi>, id: string, u: AoiUpdate)
    requires forall a :: a in aois ==> a.id != id
    ensures Updated(aois, id, u) == aois
  {
  }

  /** An update that carries no id keeps every entry's id, so the list of ids is unchanged. */
  lemma UpdatedKeepsIds(aois: seq<Aoi>, id: string, u: AoiUpdate)
    requires u.id.None?
    ensures forall i :: 0 <= i < |aois| ==> Updated(aois, id, u)[i].id == aois[i].id
    ensures CountId(Updated(aois, id, u), id) == CountId(aois, id)
  {
  }

  /** After the removal no entry carries the id. */
  lemma RemovedHasNoId(aois: seq<Aoi>, id: string)
    ensures forall i :: 0 <= i < |Removed(aois, id)| ==> Removed(aois, id)[i].id != id
    ensures CountId(Removed(aois, id), id) == 0
  {
  }

  /** Exactly the entries that carried the id are gone. */
  lemma {:induction false} RemovedLength(aois: seq<Aoi>, id: string)
    ensures |Removed(aois, id)| == |aois| - CountId(aois, id)
  {
    if aois != [] {
      RemovedLength(aois[1..], id);
    }
  }

  /** The remaining entries keep their relative order. */
  lemma {:induction false} RemovedIsSubsequence(aois: seq<Aoi>, id: string)
    ensures IsSubsequence(Removed(aois, id), aois)
  {
    if aois != [] {
      RemovedIsSubsequence(aois[1..], id);
      var r := Removed(aois, id);
      if aois[0].id != id {
        assert r[0] == aois[0] && r[1..] == Removed(aois[1..], id);
      }
    }
  }

  /** Removal works entry by entry: it distributes over concatenation. */
  lemma {:induction false} RemovedConcat(xs: seq<Aoi>, ys: seq<Aoi>, id: string)
    ensures Removed(xs + ys, id) == Removed(xs, id) + Removed(ys, id)
  {
    if xs == [] {
      assert xs + ys == ys;
    } else {
      assert (xs + ys)[0] == xs[0] && (xs + ys)[1..] == xs[1..] + ys;
      RemovedConcat(xs[1..], ys, id);
    }
  }

  /** Removing an id nobody carries leaves the list as it was. */
  lemma {:induction false} RemovedUnknownId(aois: seq<Aoi>, id: string)
    requires forall a :: a in aois ==> a.id != id
    ensures Removed(aois, id) == aois
  {
    if aois != [] {
      assert aois[0] in aois;
      assert forall a :: a in aois[1..] ==> a in aois;
      RemovedUnknownId(aois[1..], id);
    }
  }

  /** Removing the same id again changes nothing. */
  lemma RemovedIdempotent(aois: seq<Aoi>, id: string)
    ensures Removed(Removed(aois, id), id) == Removed(aois, id)
  {
  }
}
