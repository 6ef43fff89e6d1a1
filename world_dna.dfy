/** The world registry of app/matrix/world_dna.py: locations and persistent
    objects by id, and the location context handed to generation prompts. */
module WorldDna {
  import opened Common
  import opened MatrixModels

  /** The location context for the given registry contents: empty for an
      unknown location; otherwise its name, description and lighting, then
      its recurring objects that resolve (or `None` when none does). */
  function LocationContext(locations: map<string, WorldLocation>, objects: map<string, WorldObject>,
                           locationId: string): string
  {
    if locationId !in locations then ""
    else ContextHead(locations[locationId]) + ObjectsPart(objects, locations[locationId])
  }

  /** The fixed head of a known location's context: name, description
      and lighting, in that order. */
  function ContextHead(loc: WorldLocation): string
  {
    "Location: " + loc.name + "\n"
    + "Description: " + loc.description + "\n"
    + "Lighting: " + loc.lightingSetup + "\n"
    + "Persistent Objects:\n"
  }

  /** The objects part of a known location's context. */
  function ObjectsPart(objects: map<string, WorldObject>, loc: WorldLocation): string
  {
    var lines := ObjectLines(Resolve(objects, loc.recurringObjects));
    if lines == [] then "None" else Join("\n", lines)
  }

  function ObjectLines(objs: seq<WorldObject>): (lines: seq<string>)
    ensures |lines| == |objs|
    ensures forall i :: 0 <= i < |objs| ==> lines[i] == EntryLine(objs[i].name, objs[i].description)
  {
    seq(|objs|, i requires 0 <= i < |objs| => EntryLine(objs[i].name, objs[i].description))
  }

  class WorldRegistry {
    var locations: map<string, WorldLocation>
    var objects: map<string, WorldObject>
    /** The location ids in first-registration order (the mapping's
        iteration order). */
    var locationOrder: seq<string>

    predicate Valid()
      reads this
    {
      && (forall i, j :: 0 <= i < j < |locationOrder| ==> locationOrder[i] != locationOrder[j])
      && (forall id :: id in locations ==> id in locationOrder)
      && (forall id :: id in locationOrder ==> id in locations)
    }

    constructor ()
      ensures Valid()
      ensures locations == map[] && objects == map[] && locationOrder == []
    {
      locations := map[];
      objects := map[];
      locationOrder := [];
    }

    /** `register_location`: adds or replaces by id; objects are untouched
        and a replaced location keeps its place in the order. */
    method RegisterLocation(location: WorldLocation)
      requires Valid()
      modifies this
      ensures Valid()
      ensures locations == old(locations)[location.locationId := location]
      ensures objects == old(objects)
      ensures locationOrder == if location.locationId in old(locations) then old(locationOrder)
                               else old(locationOrder) + [location.locationId]
    {
      if location.locationId !in locations {
        locationOrder := locationOrder + [location.locationId];
      }
      locations := locations[location.locationId := location];
    }

    /** `register_object`: adds or replaces by id; locations are untouched. */
    method RegisterObject(obj: WorldObject)
      requires Valid()
      modifies this
      ensures Valid()
      ensures objects == old(objects)[obj.objectId := obj]
      ensures locations == old(locations) && locationOrder == old(locationOrder)
    {
      objects := objects[obj.objectId := obj];
    }

    /** `get_location` */
    method GetLocation(locationId: string) returns (r: Option<WorldLocation>)
      ensures r.Some? <==> locationId in locations
      ensures r.Some? ==> r.value == locations[locationId]
    {
      r := if locationId in locations then Some(locations[locationId]) else None;
    }

    /** `get_object` */
    method GetObject(objectId: string) returns (r: Option<WorldObject>)
      ensures r.Some? <==> objectId in objects
      ensures r.Some? ==> r.value == objects[objectId]
    {
      r := if objectId in objects then Some(objects[objectId]) else None;
    }

    /** `list_locations`: every registered location once, in registration
        order. */
    function ListLocations(): (r: seq<WorldLocation>)
      requires Valid()
      reads this
      ensures |r| == |locationOrder| == |locations|
      ensures forall i :: 0 <= i < |r| ==> r[i] == locations[locationOrder[i]]
      ensures forall id :: id in locations ==> locations[id] in r
    {
      DistinctCardinality(locationOrder, locations.Keys);
      var r := ValuesInOrder(locations, locationOrder);
      assert forall id :: id in locations ==> exists i :: 0 <= i < |locationOrder| && locationOrder[i] == id;
      r
    }

    /** `get_location_context` */
    method GetLocationContext(locationId: string) returns (context: string)
      ensures context == LocationContext(locations, objects, locationId)
    {
      var loc := GetLocation(locationId);
      if loc.None? {
        return "";
      }
      var objectsDesc: seq<string> := [];
      var ids := loc.value.recurringObjects;
      for i := 0 to |ids|
        invariant objectsDesc == ObjectLines(Resolve(objects, ids[..i]))
      {
        assert ids[..i + 1][..i] == ids[..i];
        var obj := GetObject(ids[i]);
        if obj.Some? {
          objectsDesc := objectsDesc + [EntryLine(obj.value.name, obj.value.description)];
        }
      }
      assert ids[..|ids|] == ids;
      var objsStr := if objectsDesc != [] then Join("\n", objectsDesc) else "None";
      context := "Location: " + loc.value.name + "\n"
                 + "Description: " + loc.value.description + "\n"
                 + "Lighting: " + loc.value.lightingSetup + "\n"
                 + "Persistent Objects:\n" + objsStr;
    }
  }

  /** A duplicate-free listing of a set has the set's size. */
  lemma {:induction false} DistinctCardinality(xs: seq<string>, s: set<string>)
    requires forall i, j :: 0 <= i < j < |xs| ==> xs[i] != xs[j]
    requires forall x :: x in s <==> x in xs
    ensures |xs| == |s|
    decreases |xs|
  {
    if xs != [] {
      var last := xs[|xs| - 1];
      var init := xs[..|xs| - 1];
      assert forall x :: x in init ==> x in xs;
      assert last !in init;
      DistinctCardinality(init, s - {last});
    } else {
      assert s == {};
    }
  }

  /** An unknown location has an empty context. */
  lemma UnknownLocationHasEmptyContext(locations: map<string, WorldLocation>,
                                       objects: map<string, WorldObject>, locationId: string)
    requires locationId !in locations
    ensures LocationContext(locations, objects, locationId) == ""
  {
  }

  /** A known location's context is its head followed by its objects, which
      read `None` when no listed object id is registered. */
  lemma KnownLocationContext(locations: map<string, WorldLocation>,
                             objects: map<string, WorldObject>, locationId: string)
    requires locationId in locations
    ensures var loc := locations[locationId];
            var context := LocationContext(locations, objects, locationId);
            && StartsWith(context, ContextHead(loc))
            && ((forall id :: id in loc.recurringObjects ==> id !in objects) ==> context == ContextHead(loc) + "None")
  {
    var loc := locations[locationId];
    var context := LocationContext(locations, objects, locationId);
    assert context[..|ContextHead(loc)|] == ContextHead(loc);
  }

  /** Every registered object a location lists appears in its context as
      `- name: description`. */
  lemma {:induction false} ContextListsResolvedObjects(locations: map<string, WorldLocation>,
                                                       objects: map<string, WorldObject>, locationId: string)
    requires locationId in locations
    ensures var loc := locations[locationId];
            forall o :: o in Resolve(objects, loc.recurringObjects) ==>
              Contains(LocationContext(locations, objects, locationId), EntryLine(o.name, o.description))
  {
    var loc := locations[locationId];
    KnownLocationContext(locations, objects, locationId);
    var resolved := Resolve(objects, loc.recurringObjects);
    var lines := ObjectLines(resolved);
    var head := ContextHead(loc);
    var tail := ObjectsPart(objects, loc);
    assert head + tail + "" == LocationContext(locations, objects, locationId);
    forall o | o in resolved
      ensures Contains(head + tail + "", EntryLine(o.name, o.description))
    {
      var k :| 0 <= k < |resolved| && resolved[k] == o;
      JoinContainsEach("\n", lines, k);
      ContainsInside(head, tail, "", lines[k]);
    }
  }

  /** Registering an object that a location does not list leaves that
      location's context unchanged. */
  lemma UnlistedObjectLeavesContext(locations: map<string, WorldLocation>, objects: map<string, WorldObject>,
                                    obj: WorldObject, locationId: string)
    requires locationId in locations
    requires obj.objectId !in locations[locationId].recurringObjects
    ensures LocationContext(locations, objects[obj.objectId := obj], locationId)
            == LocationContext(locations, objects, locationId)
  {
    ResolveIgnoresOtherKeys(objects, obj.objectId, obj, locations[locationId].recurringObjects);
  }
}
