/** The entity tables: an id counter, the set of live entities, card references and placements. */
module EcsWorld {
  import opened Values

  /** A cmp_spatial entry: where the entity sits in world space. */
  datatype Pos = Pos(x: real, y: real)

  /** A card reference: the dict of the component ID card the entity stands for. */
  type Card = map<string, Value>

  /** g["next_entity_id"], cmp_entities, cmp_card_ref and cmp_spatial, as one value. */
  datatype EcsState = EcsState(nextEntityId: int, entities: set<int>, cardRef: map<int, Card>, spatial: map<int, Pos>)

  const Empty: EcsState := EcsState(1, {}, map[], map[])

  /** The tables with eid gone from all three of them; everything else is kept. */
  function Removed(s: EcsState, eid: int): (r: EcsState)
    ensures eid !in r.entities && eid !in r.cardRef && eid !in r.spatial
    ensures r.nextEntityId == s.nextEntityId
    ensures forall e :: e != eid ==> (e in r.entities <==> e in s.entities)
    ensures forall e :: e != eid ==> (e in r.cardRef <==> e in s.cardRef)
    ensures forall e :: e in r.cardRef ==> r.cardRef[e] == s.cardRef[e]
    ensures forall e :: e != eid ==> (e in r.spatial <==> e in s.spatial)
    ensures forall e :: e in r.spatial ==> r.spatial[e] == s.spatial[e]
  {
    EcsState(s.nextEntityId, s.entities - {eid}, s.cardRef - {eid}, s.spatial - {eid})
  }

  /** Removing an id that no table holds changes nothing. */
  lemma RemoveAbsent(s: EcsState, eid: int)
    requires eid !in s.entities && eid !in s.cardRef && eid !in s.spatial
    ensures Removed(s, eid) == s
  {
    assert s.cardRef - {eid} == s.cardRef;
    assert s.spatial - {eid} == s.spatial;
  }

  /** Removing twice is removing once. */
  lemma RemoveIdempotent(s: EcsState, eid: int)
    ensures Removed(Removed(s, eid), eid) == Removed(s, eid)
  {
    RemoveAbsent(Removed(s, eid), eid);
  }

  class Ecs {
    var nextEntityId: int
    var entities: set<int>
    var cardRef: map<int, Card>
    var spatial: map<int, Pos>

    function State(): EcsState
      reads this
    {
      EcsState(nextEntityId, entities, cardRef, spatial)
    }

    /** Every live id was handed out earlier, so it lies below the counter. */
    ghost predicate Valid()
      reads this
    {
      nextEntityId >= 1 && forall e :: e in entities ==> 1 <= e < nextEntityId
    }

    constructor ()
      ensures Valid() && State() == Empty
    {
      nextEntityId, entities, cardRef, spatial := 1, {}, map[], map[];
    }

    /** Hands out the counter's value, advances the counter by one and records the id as live. */
    method AllocateEntity() returns (eid: int)
      requires Valid()
      modifies this
      ensures Valid()
      ensures eid == old(nextEntityId) && eid !in old(entities)
      ensures State() == old(State()).(nextEntityId := eid + 1, entities := old(entities) + {eid})
    {
      eid := nextEntityId;
      nextEntityId := nextEntityId + 1;
      entities := entities + {eid};
    }

    /** Drops eid from every table; an absent id is not an error. */
    method RemoveEntity(eid: int)
      modifies this
      ensures State() == Removed(old(State()), eid)
      ensures old(Valid()) ==> Valid()
    {
      entities := entities - {eid};
      cardRef := cardRef - {eid};
      spatial := spatial - {eid};
    }

    method ResetEcs()
      modifies this
      ensures Valid() && State() == Empty
    {
      nextEntityId := 1;
      entities, cardRef, spatial := {}, map[], map[];
    }
  }

  /** After a reset the first three allocations return 1, 2 and 3. */
  method AllocateAfterReset(w: Ecs) returns (a: int, b: int, c: int)
    modifies w
    ensures a == 1 && b == 2 && c == 3
    ensures w.Valid() && w.entities == {1, 2, 3} && w.nextEntityId == 4
  {
    w.ResetEcs();
    a := w.AllocateEntity();
    b := w.AllocateEntity();
    c := w.AllocateEntity();
  }

  datatype EcsOp = Allocate | Remove(eid: int)

  /**
   * Runs allocations and removals in any order: the ids handed out rise
   * strictly, so none is handed out twice, and none was live beforehand.
   */
  method RunOps(w: Ecs, ops: seq<EcsOp>) returns (ids: seq<int>)
    requires w.Valid()
    modifies w
    ensures w.Valid()
    ensures forall i, j :: 0 <= i < j < |ids| ==> ids[i] < ids[j]
    ensures forall i :: 0 <= i < |ids| ==> old(w.nextEntityId) <= ids[i] < w.nextEntityId
    ensures forall i :: 0 <= i < |ids| ==> ids[i] !in old(w.entities)
  {
    ids := [];
    for k := 0 to |ops|
      invariant w.Valid()
      invariant old(w.nextEntityId) <= w.nextEntityId
      invariant forall i, j :: 0 <= i < j < |ids| ==> ids[i] < ids[j]
      invariant forall i :: 0 <= i < |ids| ==> old(w.nextEntityId) <= ids[i] < w.nextEntityId
    {
      match ops[k]
      case Allocate =>
        var eid := w.AllocateEntity();
        ids := ids + [eid];
      case Remove(eid) =>
        w.RemoveEntity(eid);
    }
  }
}
