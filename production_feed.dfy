/** The live production list of the dashboard creation lobe
    (frontend/src/components/dashboard/CreationLobe.tsx): each
    `PRODUCTION_UPDATE` event replaces the production with the same id in
    place, or puts a new one in front and keeps at most three. */
module ProductionFeed {

  /** A production as the event carries it; fields other than the id are
      kept as they come. */
  datatype Production = Production(id: string, details: map<string, string>)

  const FeedLimit: nat := 3

  /** `prev.findIndex(p => p.id === id)`: the first position with that id, or -1. */
  function FindIndex(prev: seq<Production>, id: string): (i: int)
    ensures -1 <= i < |prev|
    ensures i == -1 <==> forall j :: 0 <= j < |prev| ==> prev[j].id != id
    ensures i >= 0 ==> prev[i].id == id && forall j :: 0 <= j < i ==> prev[j].id != id
  {
    if prev == [] then -1
    else if prev[0].id == id then 0
    else
      var r := FindIndex(prev[1..], id);
      if r == -1 then -1 else r + 1
  }

  /** The updater passed to `setProductions`. */
  function Upsert(prev: seq<Production>, payload: Production): (next: seq<Production>)
    ensures payload in next
    ensures |next| <= if |prev| > FeedLimit then |prev| else FeedLimit
  {
    var index := FindIndex(prev, payload.id);
    if index >= 0 then
      var next := prev[index := payload];
      assert next[index] == payload;
      next
    else
      var next := [payload] + prev;
      assert next[0] == payload;
      if |next| <= FeedLimit then next else next[..FeedLimit]
  }

  /** A known id: the first production with it is replaced in place; the
      length and every other element, in order, are unchanged. */
  lemma ReplaceInPlace(prev: seq<Production>, payload: Production)
    requires FindIndex(prev, payload.id) >= 0
    ensures var r := Upsert(prev, payload);
            var index := FindIndex(prev, payload.id);
            && |r| == |prev|
            && r[index] == payload
            && forall j :: 0 <= j < |prev| && j != index ==> r[j] == prev[j]
  {
  }

  /** A new id: the payload goes first, followed by the earliest previous
      productions, for at most three in all. */
  lemma {:induction false} InsertInFront(prev: seq<Production>, payload: Production)
    requires FindIndex(prev, payload.id) == -1
    ensures var r := Upsert(prev, payload);
            && |r| == (if |prev| + 1 < FeedLimit then |prev| + 1 else FeedLimit)
            && r[0] == payload
            && r[1..] == prev[..|r| - 1]
  {
    var r := Upsert(prev, payload);
    var next := [payload] + prev;
    assert next[1..] == prev;
    if |next| > FeedLimit {
      assert r == next[..FeedLimit];
      assert r[1..] == next[1..FeedLimit];
    }
  }

  /** After an update the payload is the production found under its id. */
  lemma {:induction false} UpsertThenFind(prev: seq<Production>, payload: Production)
    ensures var r := Upsert(prev, payload);
            FindIndex(r, payload.id) >= 0 && r[FindIndex(r, payload.id)] == payload
  {
    var r := Upsert(prev, payload);
    var index := FindIndex(prev, payload.id);
    if index >= 0 {
      ReplaceInPlace(prev, payload);
      assert forall j :: 0 <= j < index ==> r[j].id != payload.id;
    } else {
      InsertInFront(prev, payload);
      assert FindIndex(r, payload.id) == 0;
    }
  }

  /** Delivering the same update twice is the same as delivering it once. */
  lemma {:induction false} UpsertIdempotent(prev: seq<Production>, payload: Production)
    ensures Upsert(Upsert(prev, payload), payload) == Upsert(prev, payload)
  {
    var r := Upsert(prev, payload);
    UpsertThenFind(prev, payload);
    var index := FindIndex(r, payload.id);
    assert r[index := payload] == r;
  }

  /** A feed of at most three stays at most three. */
  lemma UpsertKeepsLimit(prev: seq<Production>, payload: Production)
    requires |prev| <= FeedLimit
    ensures |Upsert(prev, payload)| <= FeedLimit
  {
  }
}
