/** The identity-anchor registry of app/matrix/anchors.py: an append-only
    list of "Day 0" reference assets, queried by Muse and asset type. */
module Anchors {
  import opened Common
  import opened MatrixModels

  /** The anchors of a Muse, in registration order. */
  function ForMuse(anchors: seq<IdentityAnchor>, museId: string): (r: seq<IdentityAnchor>)
    ensures |r| <= |anchors|
  {
    if anchors == [] then []
    else
      var rest := ForMuse(anchors[..|anchors| - 1], museId);
      var last := anchors[|anchors| - 1];
      if last.museId == museId then rest + [last] else rest
  }

  /** The Muse list holds exactly the anchors registered for that Muse. */
  lemma {:induction false} ForMuseMembers(anchors: seq<IdentityAnchor>, museId: string)
    ensures forall a :: a in ForMuse(anchors, museId) <==> a in anchors && a.museId == museId
    decreases |anchors|
  {
    if anchors != [] {
      var init, last := anchors[..|anchors| - 1], anchors[|anchors| - 1];
      assert anchors == init + [last];
      ForMuseMembers(init, museId);
    }
  }

  /** The anchor matches both the Muse and the asset type. */
  predicate Matches(a: IdentityAnchor, museId: string, assetType: string)
  {
    a.museId == museId && a.assetType == assetType
  }

  class AnchorRegistry {
    var anchors: seq<IdentityAnchor>

    constructor ()
      ensures anchors == []
    {
      anchors := [];
    }

    /** `register_anchor`: appends, keeping every earlier anchor, with no
        deduplication. */
    method RegisterAnchor(anchor: IdentityAnchor)
      modifies this
      ensures anchors == old(anchors) + [anchor]
    {
      anchors := anchors + [anchor];
    }

    /** `get_anchors_for_muse` */
    function GetAnchorsForMuse(museId: string): (r: seq<IdentityAnchor>)
      reads this
      ensures forall a :: a in r <==> a in anchors && a.museId == museId
    {
      ForMuseMembers(anchors, museId);
      ForMuse(anchors, museId)
    }

    /** `get_anchor_by_type`: the first registered anchor matching both the
        Muse and the type, or None. */
    method GetAnchorByType(museId: string, assetType: string) returns (r: Option<IdentityAnchor>)
      ensures r.None? <==> forall i :: 0 <= i < |anchors| ==> !Matches(anchors[i], museId, assetType)
      ensures r.Some? ==> exists i :: 0 <= i < |anchors| && anchors[i] == r.value
                                      && Matches(anchors[i], museId, assetType)
                                      && forall j :: 0 <= j < i ==> !Matches(anchors[j], museId, assetType)
    {
      for i := 0 to |anchors|
        invariant forall j :: 0 <= j < i ==> !Matches(anchors[j], museId, assetType)
      {
        var a := anchors[i];
        if a.museId == museId && a.assetType == assetType {
          return Some(a);
        }
      }
      return None;
    }
  }

  /** Registering keeps the answers for other Muses and adds the new anchor
      at the end of its own Muse's list. */
  lemma {:induction false} RegisterExtendsMuseList(anchors: seq<IdentityAnchor>, anchor: IdentityAnchor,
                                                   museId: string)
    ensures ForMuse(anchors + [anchor], museId)
            == if anchor.museId == museId then ForMuse(anchors, museId) + [anchor] else ForMuse(anchors, museId)
  {
    assert (anchors + [anchor])[..|anchors|] == anchors;
  }

  /** Filtering respects concatenation, so the Muse list keeps the
      registration order: anchors registered earlier come first. */
  lemma {:induction false} ForMuseDistributes(a: seq<IdentityAnchor>, b: seq<IdentityAnchor>, museId: string)
    ensures ForMuse(a + b, museId) == ForMuse(a, museId) + ForMuse(b, museId)
    decreases |b|
  {
    if b == [] {
      assert a + b == a;
    } else {
      var init, last := b[..|b| - 1], b[|b| - 1];
      assert b == init + [last];
      assert a + b == (a + init) + [last];
      ForMuseDistributes(a, init, museId);
      RegisterExtendsMuseList(a + init, last, museId);
      RegisterExtendsMuseList(init, last, museId);
    }
  }
}
