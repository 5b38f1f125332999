/**
 * The render-intent layer: from the entity tables to a keyed map of shape
 * descriptors (RENDER), which the canvas layer then reconciles by tag.
 */
module Rendering {
  import opened Values
  import opened Text
  import opened EcsWorld
  import opened Collections

  const ComponentW: int := 120
  const ComponentH: int := 60
  const PerimeterOutline: string := "#4488cc"
  const PerimeterFill: string := "#223344"
  const TitleFill: string := "#ccddee"

  datatype Part = Perimeter | Title

  /** The element key `("entity", eid, part)`. */
  datatype ElementKey = EntityKey(eid: int, part: Part)

  function PartName(p: Part): (name: string)
    ensures |name| >= 1 && '|' !in name
  {
    match p
    case Perimeter => "perimeter"
    case Title => "title"
  }

  /** The string forms of the key's parts, `str(part)` for each. */
  function KeyParts(ek: ElementKey): seq<string> {
    ["entity", IntToString(ek.eid), PartName(ek.part)]
  }

  /** ek_to_tag: "ek|" and then the parts joined by "|". */
  function EkToTag(ek: ElementKey): (tag: string)
    ensures |tag| > 3 && tag[..3] == "ek|"
  {
    "ek|" + Join("|", KeyParts(ek))
  }

  /** entity_tag: the grouping tag of everything drawn for one entity. */
  function EntityTag(eid: int): (tag: string)
    ensures |tag| > 7 && tag[..7] == "entity|"
  {
    "entity|" + IntToString(eid)
  }

  /** The tag spelled out: the fixed prefix, the id, a bar, the part name. */
  lemma EkToTagForm(ek: ElementKey)
    ensures EkToTag(ek) == "ek|entity|" + (IntToString(ek.eid) + ['|'] + PartName(ek.part))
  {
    JoinThree("|", "entity", IntToString(ek.eid), PartName(ek.part));
  }

  lemma DropPrefix(p: string, x: string, y: string)
    requires p + x == p + y
    ensures x == y
  {
    assert x == (p + x)[|p|..];
    assert y == (p + y)[|p|..];
  }

  /** Different element keys have different tags, so a tag names one declared element. */
  lemma EkToTagInjective(a: ElementKey, b: ElementKey)
    requires EkToTag(a) == EkToTag(b)
    ensures a == b
  {
    EkToTagForm(a);
    EkToTagForm(b);
    DropPrefix("ek|entity|", IntToString(a.eid) + ['|'] + PartName(a.part), IntToString(b.eid) + ['|'] + PartName(b.part));
    SplitAtSeparator(IntToString(a.eid), PartName(a.part), IntToString(b.eid), PartName(b.part), '|');
    IntToStringInjective(a.eid, b.eid);
    assert a.part == b.part;
  }

  /** Different entities have different grouping tags. */
  lemma EntityTagInjective(a: int, b: int)
    requires EntityTag(a) == EntityTag(b)
    ensures a == b
  {
    assert IntToString(a) == EntityTag(a)[7..] == EntityTag(b)[7..] == IntToString(b);
    IntToStringInjective(a, b);
  }

  /** A RENDER entry: the descriptor of one canvas rectangle or text item. */
  datatype Desc =
    | Rectangle(x0: real, y0: real, x1: real, y1: real,
                outline: string, fill: string, width: int, tags: (string, string, string))
    | TextItem(x: real, y: real, text: Value, fill: string, font: (string, int),
               tags: (string, string, string))

  /** The three tags every entry carries. */
  function Tags(ek: ElementKey): (string, string, string) {
    (EkToTag(ek), EntityTag(ek.eid), "kind|component")
  }

  /** The perimeter of an entity placed at (sx, sy): a COMPONENT_W by COMPONENT_H box centred there. */
  function PerimeterDesc(eid: int, sx: real, sy: real): (d: Desc)
    ensures d.Rectangle? && d.tags == Tags(EntityKey(eid, Perimeter))
    ensures d.x1 - d.x0 == ComponentW as real && d.y1 - d.y0 == ComponentH as real
    ensures (d.x0 + d.x1) / 2.0 == sx && (d.y0 + d.y1) / 2.0 == sy
    ensures d.outline == PerimeterOutline && d.fill == PerimeterFill && d.width == 2
  {
    var halfW, halfH := ComponentW / 2, ComponentH / 2;
    Rectangle(sx - halfW as real, sy - halfH as real, sx + halfW as real, sy + halfH as real,
              PerimeterOutline, PerimeterFill, 2, Tags(EntityKey(eid, Perimeter)))
  }

  /** `card.get("title", "")`. */
  function TitleText(card: Card): (t: Value)
    ensures "title" in card ==> t == card["title"]
    ensures "title" !in card ==> t == VStr("")
  {
    if "title" in card then card["title"] else VStr("")
  }

  /** The title of an entity with a card, written at its position. */
  function TitleDesc(eid: int, sx: real, sy: real, card: Card): (d: Desc)
    ensures d.TextItem? && d.x == sx && d.y == sy && d.text == TitleText(card)
    ensures d.tags == Tags(EntityKey(eid, Title)) && d.fill == TitleFill && d.font == ("Consolas", 10)
  {
    TextItem(sx, sy, TitleText(card), TitleFill, ("Consolas", 10), Tags(EntityKey(eid, Title)))
  }

  // ---------------------------------------------------------------------
  // The intent the rules declare
  // ---------------------------------------------------------------------

  /** Whether the rules emit an entry under key k, given the entities considered. */
  predicate Declared(k: ElementKey, done: set<int>, cardRef: map<int, Card>, spatial: map<int, Pos>) {
    k.eid in done && k.eid in spatial && (k.part == Title ==> k.eid in cardRef)
  }

  /** The entry the rule for k's part emits, tagged with k's own tags. */
  function DescFor(k: ElementKey, cardRef: map<int, Card>, spatial: map<int, Pos>): (d: Desc)
    requires k.eid in spatial && (k.part == Title ==> k.eid in cardRef)
    ensures d.tags == Tags(k)
  {
    var p := spatial[k.eid];
    match k.part
    case Perimeter => PerimeterDesc(k.eid, p.x, p.y)
    case Title => TitleDesc(k.eid, p.x, p.y, cardRef[k.eid])
  }

  /** The keys the rules emit for the entities in `done`. */
  function DeclaredKeys(done: set<int>, cardRef: map<int, Card>, spatial: map<int, Pos>): (ks: set<ElementKey>)
    ensures forall k :: k in ks <==> Declared(k, done, cardRef, spatial)
  {
    var perimeters := set e | e in done && e in spatial :: EntityKey(e, Perimeter);
    var titles := set e | e in done && e in spatial && e in cardRef :: EntityKey(e, Title);
    assert forall k :: Declared(k, done, cardRef, spatial) && k.part == Perimeter ==> k == EntityKey(k.eid, Perimeter);
    assert forall k :: Declared(k, done, cardRef, spatial) && k.part == Title ==> k == EntityKey(k.eid, Title);
    perimeters + titles
  }

  /**
   * What RENDER holds once the rules have run for the entities in `done`:
   * a perimeter for every placed entity, a title for every placed entity
   * with a card, and nothing else.
   */
  function Intent(done: set<int>, cardRef: map<int, Card>, spatial: map<int, Pos>): (m: map<ElementKey, Desc>)
    ensures forall k :: k in m <==> Declared(k, done, cardRef, spatial)
    ensures forall k :: Declared(k, done, cardRef, spatial) ==> m[k] == DescFor(k, cardRef, spatial)
  {
    map k | k in DeclaredKeys(done, cardRef, spatial) :: DescFor(k, cardRef, spatial)
  }

  /** Running the rules for an entity without a placement adds nothing. */
  lemma IntentStepUnplaced(done: set<int>, eid: int, cardRef: map<int, Card>, spatial: map<int, Pos>)
    requires eid !in spatial
    ensures Intent(done + {eid}, cardRef, spatial) == Intent(done, cardRef, spatial)
  {
    var before, after := Intent(done, cardRef, spatial), Intent(done + {eid}, cardRef, spatial);
    assert forall k :: Declared(k, done + {eid}, cardRef, spatial) <==> Declared(k, done, cardRef, spatial);
    assert after.Keys == before.Keys;
  }

  /** Running the rules for one more entity leaves every other entity's entries as they were. */
  lemma IntentStepOthers(done: set<int>, eid: int, cardRef: map<int, Card>, spatial: map<int, Pos>)
    ensures var before, after := Intent(done, cardRef, spatial), Intent(done + {eid}, cardRef, spatial);
      forall k: ElementKey :: k.eid != eid ==> (k in after <==> k in before) && (k in after ==> after[k] == before[k])
  {
    var before, after := Intent(done, cardRef, spatial), Intent(done + {eid}, cardRef, spatial);
    forall k: ElementKey | k.eid != eid
      ensures (k in after <==> k in before) && (k in after ==> after[k] == before[k])
    {
      assert Declared(k, done + {eid}, cardRef, spatial) <==> Declared(k, done, cardRef, spatial);
    }
  }

  /** The entries a placed entity gets: its perimeter always, its title exactly when it has a card. */
  lemma IntentStepOwn(done: set<int>, eid: int, cardRef: map<int, Card>, spatial: map<int, Pos>)
    requires eid in spatial
    ensures var after, p := Intent(done + {eid}, cardRef, spatial), spatial[eid];
      && after[EntityKey(eid, Perimeter)] == PerimeterDesc(eid, p.x, p.y)
      && (EntityKey(eid, Title) in after <==> eid in cardRef)
      && (eid in cardRef ==> after[EntityKey(eid, Title)] == TitleDesc(eid, p.x, p.y, cardRef[eid]))
  {
    assert Declared(EntityKey(eid, Perimeter), done + {eid}, cardRef, spatial);
  }

  /** A map that differs from `before` only in one entity's perimeter and optional title is that update. */
  lemma EntityUpdate(before: map<ElementKey, Desc>, after: map<ElementKey, Desc>, eid: int,
                     perimeter: Desc, hasTitle: bool, title: Desc)
    requires forall k: ElementKey :: k.eid != eid ==> (k in after <==> k in before) && (k in after ==> after[k] == before[k])
    requires forall k: ElementKey :: k.eid == eid ==> k !in before
    requires EntityKey(eid, Perimeter) in after && after[EntityKey(eid, Perimeter)] == perimeter
    requires EntityKey(eid, Title) in after <==> hasTitle
    requires hasTitle ==> after[EntityKey(eid, Title)] == title
    ensures after == if hasTitle then before[EntityKey(eid, Perimeter) := perimeter][EntityKey(eid, Title) := title]
                     else before[EntityKey(eid, Perimeter) := perimeter]
  {
    var expected := if hasTitle then before[EntityKey(eid, Perimeter) := perimeter][EntityKey(eid, Title) := title]
                    else before[EntityKey(eid, Perimeter) := perimeter];
    forall k: ElementKey | k.eid == eid
      ensures k in after <==> k in expected
    {
      assert k !in before;
      match k.part
      case Perimeter => assert k == EntityKey(eid, Perimeter);
      case Title => assert k == EntityKey(eid, Title);
    }
    assert after.Keys == expected.Keys;
  }

  /** Running the rules for a placed entity adds its perimeter, and its title when it has a card. */
  lemma IntentStepPlaced(done: set<int>, eid: int, cardRef: map<int, Card>, spatial: map<int, Pos>)
    requires eid !in done && eid in spatial
    ensures var before, p := Intent(done, cardRef, spatial), spatial[eid];
      var withPerimeter := before[EntityKey(eid, Perimeter) := PerimeterDesc(eid, p.x, p.y)];
      Intent(done + {eid}, cardRef, spatial) ==
        if eid in cardRef then withPerimeter[EntityKey(eid, Title) := TitleDesc(eid, p.x, p.y, cardRef[eid])]
        else withPerimeter
  {
    var before, after := Intent(done, cardRef, spatial), Intent(done + {eid}, cardRef, spatial);
    var p := spatial[eid];
    var title := if eid in cardRef then TitleDesc(eid, p.x, p.y, cardRef[eid]) else PerimeterDesc(eid, p.x, p.y);
    IntentStepOthers(done, eid, cardRef, spatial);
    IntentStepOwn(done, eid, cardRef, spatial);
    EntityUpdate(before, after, eid, PerimeterDesc(eid, p.x, p.y), eid in cardRef, title);
  }

  // ---------------------------------------------------------------------
  // RENDER and the rules
  // ---------------------------------------------------------------------

  /** The module-level dict RENDER. */
  class Renderer {
    var render: map<ElementKey, Desc>

    constructor ()
      ensures render == map[]
    {
      render := map[];
    }

    method RulePerimeter(eid: int, sx: real, sy: real)
      modifies this
      ensures render == old(render)[EntityKey(eid, Perimeter) := PerimeterDesc(eid, sx, sy)]
    {
      render := render[EntityKey(eid, Perimeter) := PerimeterDesc(eid, sx, sy)];
    }

    /** Emits the title only for an entity that has a card. */
    method RuleTitle(w: EcsWorld.Ecs, eid: int, sx: real, sy: real)
      modifies this
      ensures eid in w.cardRef ==>
        render == old(render)[EntityKey(eid, Title) := TitleDesc(eid, sx, sy, w.cardRef[eid])]
      ensures eid !in w.cardRef ==> render == old(render)
    {
      if eid !in w.cardRef {
        return;
      }
      render := render[EntityKey(eid, Title) := TitleDesc(eid, sx, sy, w.cardRef[eid])];
    }

    /** Clears RENDER, then runs the rules for each placed entity in ascending id order. */
    method RebuildRenderIntent(w: EcsWorld.Ecs)
      modifies this
      ensures render == Intent(w.entities, w.cardRef, w.spatial)
    {
      render := map[];
      var remaining := w.entities;
      while remaining != {}
        invariant remaining <= w.entities
        invariant render == Intent(w.entities - remaining, w.cardRef, w.spatial)
        decreases |remaining|
      {
        HasLeast(remaining);
        var eid :| eid in remaining && forall o :: o in remaining ==> eid <= o;
        if eid !in w.spatial {
          IntentStepUnplaced(w.entities - remaining, eid, w.cardRef, w.spatial);
        } else {
          IntentStepPlaced(w.entities - remaining, eid, w.cardRef, w.spatial);
          var p := w.spatial[eid];
          RulePerimeter(eid, p.x, p.y);
          RuleTitle(w, eid, p.x, p.y);
        }
        assert w.entities - remaining + {eid} == w.entities - (remaining - {eid});
        remaining := remaining - {eid};
      }
      assert w.entities - remaining == w.entities;
    }
  }
}
