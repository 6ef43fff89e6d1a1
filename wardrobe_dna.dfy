/** The wardrobe registry of app/matrix/wardrobe_dna.py: outfit items and
    scene props by id, tag search, and the look context for a selection. */
module WardrobeDna {
  import opened Common
  import opened MatrixModels

  /** The items among `items` carrying `tag`, in their order. */
  function WithTag(items: seq<WardrobeItem>, tag: string): (r: seq<WardrobeItem>)
    ensures |r| <= |items|
  {
    if items == [] then []
    else
      var rest := WithTag(items[..|items| - 1], tag);
      var last := items[|items| - 1];
      if tag in last.tags then rest + [last] else rest
  }

  /** The filtered list holds exactly the items carrying the tag. */
  lemma {:induction false} WithTagMembers(items: seq<WardrobeItem>, tag: string)
    ensures forall x :: x in WithTag(items, tag) <==> x in items && tag in x.tags
    decreases |items|
  {
    if items != [] {
      var init, last := items[..|items| - 1], items[|items| - 1];
      assert items == init + [last];
      WithTagMembers(init, tag);
    }
  }

  /** Tagging one more item appends it to the result when it carries the
      tag, and changes nothing otherwise. */
  lemma {:induction false} WithTagSnoc(items: seq<WardrobeItem>, x: WardrobeItem, tag: string)
    ensures WithTag(items + [x], tag) == if tag in x.tags then WithTag(items, tag) + [x] else WithTag(items, tag)
  {
    assert (items + [x])[..|items|] == items;
  }

  /** The tag filter respects concatenation, so `list_by_tag` keeps the
      registration order: items listed earlier come first. */
  lemma {:induction false} WithTagDistributes(a: seq<WardrobeItem>, b: seq<WardrobeItem>, tag: string)
    ensures WithTag(a + b, tag) == WithTag(a, tag) + WithTag(b, tag)
    decreases |b|
  {
    if b == [] {
      assert a + b == a;
    } else {
      var init, last := b[..|b| - 1], b[|b| - 1];
      assert b == init + [last];
      assert a + b == (a + init) + [last];
      WithTagDistributes(a, init, tag);
      WithTagSnoc(a + init, last, tag);
      WithTagSnoc(init, last, tag);
    }
  }

  function ItemLines(items: seq<WardrobeItem>): (lines: seq<string>)
    ensures |lines| == |items|
    ensures forall i :: 0 <= i < |items| ==> lines[i] == EntryLine(items[i].name, items[i].description)
  {
    seq(|items|, i requires 0 <= i < |items| => EntryLine(items[i].name, items[i].description))
  }

  function PropLines(props: seq<SceneProp>): (lines: seq<string>)
    ensures |lines| == |props|
    ensures forall i :: 0 <= i < |props| ==> lines[i] == EntryLine(props[i].name, props[i].description)
  {
    seq(|props|, i requires 0 <= i < |props| => EntryLine(props[i].name, props[i].description))
  }

  /** The outfit part of a look: the resolved items joined with `, `, or
      `Default` when none resolves. */
  function OutfitPart(items: map<string, WardrobeItem>, itemIds: seq<string>): string
  {
    var lines := ItemLines(Resolve(items, itemIds));
    if lines == [] then "Default" else Join(", ", lines)
  }

  /** The props part of a look: the resolved props joined with `, `, or
      `None` when none resolves. */
  function PropsPart(props: map<string, SceneProp>, propIds: seq<string>): string
  {
    var lines := PropLines(Resolve(props, propIds));
    if lines == [] then "None" else Join(", ", lines)
  }

  /** The look context for the given registry contents and selection. */
  function LookContext(items: map<string, WardrobeItem>, props: map<string, SceneProp>,
                       itemIds: seq<string>, propIds: seq<string>): string
  {
    "Outfit: " + OutfitPart(items, itemIds) + "\n" + "Props: " + PropsPart(props, propIds)
  }

  class WardrobeRegistry {
    var items: map<string, WardrobeItem>
    var props: map<string, SceneProp>
    /** The item ids in first-registration order (the mapping's iteration
        order). */
    var itemOrder: seq<string>

    predicate Valid()
      reads this
    {
      && (forall i, j :: 0 <= i < j < |itemOrder| ==> itemOrder[i] != itemOrder[j])
      && (forall id :: id in items ==> id in itemOrder)
      && (forall id :: id in itemOrder ==> id in items)
    }

    constructor ()
      ensures Valid()
      ensures items == map[] && props == map[] && itemOrder == []
    {
      items := map[];
      props := map[];
      itemOrder := [];
    }

    /** `register_item`: adds or replaces by id; props are untouched. */
    method RegisterItem(item: WardrobeItem)
      requires Valid()
      modifies this
      ensures Valid()
      ensures items == old(items)[item.itemId := item]
      ensures props == old(props)
      ensures itemOrder == if item.itemId in old(items) then old(itemOrder) else old(itemOrder) + [item.itemId]
    {
      if item.itemId !in items {
        itemOrder := itemOrder + [item.itemId];
      }
      items := items[item.itemId := item];
    }

    /** `register_prop`: adds or replaces by id; items are untouched. */
    method RegisterProp(prop: SceneProp)
      requires Valid()
      modifies this
      ensures Valid()
      ensures props == old(props)[prop.propId := prop]
      ensures items == old(items) && itemOrder == old(itemOrder)
    {
      props := props[prop.propId := prop];
    }

    /** `get_item` */
    method GetItem(itemId: string) returns (r: Option<WardrobeItem>)
      ensures r.Some? <==> itemId in items
      ensures r.Some? ==> r.value == items[itemId]
    {
      r := if itemId in items then Some(items[itemId]) else None;
    }

    /** `get_prop` */
    method GetProp(propId: string) returns (r: Option<SceneProp>)
      ensures r.Some? <==> propId in props
      ensures r.Some? ==> r.value == props[propId]
    {
      r := if propId in props then Some(props[propId]) else None;
    }

    /** The registered items in registration order. */
    function Items(): (r: seq<WardrobeItem>)
      requires Valid()
      reads this
      ensures |r| == |itemOrder|
      ensures forall i :: 0 <= i < |r| ==> r[i] == items[itemOrder[i]]
      ensures forall x :: x in r <==> exists id :: id in items && items[id] == x
    {
      var r := ValuesInOrder(items, itemOrder);
      assert forall id :: id in items ==> exists i :: 0 <= i < |itemOrder| && itemOrder[i] == id;
      r
    }

    /** `list_by_tag`: exactly the registered items carrying the tag, in
        registration order. */
    function ListByTag(tag: string): (r: seq<WardrobeItem>)
      requires Valid()
      reads this
      ensures forall x :: x in r <==> tag in x.tags && exists id :: id in items && items[id] == x
      ensures r == WithTag(Items(), tag)
    {
      WithTagMembers(Items(), tag);
      WithTag(Items(), tag)
    }

    /** `get_look_context` */
    method GetLookContext(itemIds: seq<string>, propIds: seq<string>) returns (context: string)
      ensures context == LookContext(items, props, itemIds, propIds)
    {
      var itemsDesc: seq<string> := [];
      for i := 0 to |itemIds|
        invariant itemsDesc == ItemLines(Resolve(items, itemIds[..i]))
      {
        assert itemIds[..i + 1][..i] == itemIds[..i];
        var item := GetItem(itemIds[i]);
        if item.Some? {
          itemsDesc := itemsDesc + [EntryLine(item.value.name, item.value.description)];
        }
      }
      assert itemIds[..|itemIds|] == itemIds;

      var propsDesc: seq<string> := [];
      for i := 0 to |propIds|
        invariant propsDesc == PropLines(Resolve(props, propIds[..i]))
      {
        assert propIds[..i + 1][..i] == propIds[..i];
        var prop := GetProp(propIds[i]);
        if prop.Some? {
          propsDesc := propsDesc + [EntryLine(prop.value.name, prop.value.description)];
        }
      }
      assert propIds[..|propIds|] == propIds;

      context := "Outfit: " + (if itemsDesc != [] then Join(", ", itemsDesc) else "Default") + "\n"
                 + "Props: " + (if propsDesc != [] then Join(", ", propsDesc) else "None");
    }
  }

  /** The look reads `Default` for the outfit when no item id resolves and
      `None` for the props when no prop id resolves. */
  lemma LookDefaults(items: map<string, WardrobeItem>, props: map<string, SceneProp>,
                     itemIds: seq<string>, propIds: seq<string>)
    ensures (forall id :: id in itemIds ==> id !in items) ==> OutfitPart(items, itemIds) == "Default"
    ensures (forall id :: id in propIds ==> id !in props) ==> PropsPart(props, propIds) == "None"
  {
  }

  /** An id the registry does not know adds nothing to the look. */
  lemma UnknownIdsAreSkipped(items: map<string, WardrobeItem>, props: map<string, SceneProp>,
                             itemIds: seq<string>, propIds: seq<string>, unknown: string)
    requires unknown !in items && unknown !in props
    ensures LookContext(items, props, itemIds + [unknown], propIds) == LookContext(items, props, itemIds, propIds)
    ensures LookContext(items, props, itemIds, propIds + [unknown]) == LookContext(items, props, itemIds, propIds)
  {
    assert (itemIds + [unknown])[..|itemIds|] == itemIds;
    assert (propIds + [unknown])[..|propIds|] == propIds;
  }

  /** Every resolved item and prop appears in the look as `- name: description`. */
  lemma {:induction false} LookListsResolved(items: map<string, WardrobeItem>, props: map<string, SceneProp>,
                                             itemIds: seq<string>, propIds: seq<string>)
    ensures forall x :: x in Resolve(items, itemIds) ==>
              Contains(LookContext(items, props, itemIds, propIds), EntryLine(x.name, x.description))
    ensures forall p :: p in Resolve(props, propIds) ==>
              Contains(LookContext(items, props, itemIds, propIds), EntryLine(p.name, p.description))
  {
    var outfit := OutfitPart(items, itemIds);
    var propsPart := PropsPart(props, propIds);
    var context := LookContext(items, props, itemIds, propIds);
    var resolvedItems := Resolve(items, itemIds);
    var resolvedProps := Resolve(props, propIds);
    assert context == "Outfit: " + outfit + ("\n" + "Props: " + propsPart);
    forall x | x in resolvedItems
      ensures Contains(context, EntryLine(x.name, x.description))
    {
      var k :| 0 <= k < |resolvedItems| && resolvedItems[k] == x;
      JoinContainsEach(", ", ItemLines(resolvedItems), k);
      ContainsInside("Outfit: ", outfit, "\n" + "Props: " + propsPart, EntryLine(x.name, x.description));
    }
    assert context == "Outfit: " + outfit + "\n" + "Props: " + propsPart + "";
    forall p | p in resolvedProps
      ensures Contains(context, EntryLine(p.name, p.description))
    {
      var k :| 0 <= k < |resolvedProps| && resolvedProps[k] == p;
      JoinContainsEach(", ", PropLines(resolvedProps), k);
      ContainsInside("Outfit: " + outfit + "\n" + "Props: ", propsPart, "", EntryLine(p.name, p.description));
    }
  }
}
