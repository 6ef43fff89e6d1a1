/** The Muse DNA and world records of app/matrix/models.py, with the DNA's
    context serialisation and the record defaults. */
module MatrixModels {
  import opened Common
  import opened StateModels

  /** The Genesis DNA. `voiceGuidelines` holds the guideline mapping's
      entries in its iteration order. */
  datatype MuseDna = MuseDna(
    name: string,
    version: string,
    backstory: string,
    voiceGuidelines: seq<(string, string)>,
    moralGraph: seq<string>)

  const BackstoryMarker: string := "--- Backstory ---\n"
  const VoiceMarker: string := "--- Voice Guidelines ---\n"
  const MoralMarker: string := "--- Moral Graph ---\n"

  /** One guideline rendered as `- key: value`. */
  function VoiceLine(entry: (string, string)): string
  {
    "- " + entry.0 + ": " + entry.1
  }

  /** One moral rendered as `- moral`. */
  function MoralLine(moral: string): string
  {
    "- " + moral
  }

  function VoiceLines(voice: seq<(string, string)>): (lines: seq<string>)
    ensures |lines| == |voice|
    ensures forall i :: 0 <= i < |voice| ==> lines[i] == VoiceLine(voice[i])
  {
    seq(|voice|, i requires 0 <= i < |voice| => VoiceLine(voice[i]))
  }

  function MoralLines(morals: seq<string>): (lines: seq<string>)
    ensures |lines| == |morals|
    ensures forall i :: 0 <= i < |morals| ==> lines[i] == MoralLine(morals[i])
  {
    seq(|morals|, i requires 0 <= i < |morals| => MoralLine(morals[i]))
  }

  /** The first line of the context string. */
  function Header(dna: MuseDna): string
  {
    "Identity DNA for " + dna.name + " (v" + dna.version + ")\n"
  }

  /** `to_context_string()` */
  function ToContextString(dna: MuseDna): (s: string)
    ensures StartsWith(s, Header(dna) + BackstoryMarker + dna.backstory)
    ensures var last := MoralMarker + Join("\n", MoralLines(dna.moralGraph));
            |last| <= |s| && s[|s| - |last|..] == last
  {
    Header(dna)
    + BackstoryMarker + dna.backstory + "\n\n"
    + VoiceMarker + Join("\n", VoiceLines(dna.voiceGuidelines)) + "\n\n"
    + MoralMarker + Join("\n", MoralLines(dna.moralGraph))
  }

  /** Where the three section markers start in the context string. */
  function BackstoryAt(dna: MuseDna): nat
  {
    |Header(dna)|
  }

  function VoiceAt(dna: MuseDna): nat
  {
    BackstoryAt(dna) + |BackstoryMarker| + |dna.backstory| + 2
  }

  function MoralAt(dna: MuseDna): nat
  {
    VoiceAt(dna) + |VoiceMarker| + |Join("\n", VoiceLines(dna.voiceGuidelines))| + 2
  }

  lemma MarkersAt(dna: MuseDna)
    ensures OccursAt(ToContextString(dna), BackstoryMarker, BackstoryAt(dna))
    ensures OccursAt(ToContextString(dna), VoiceMarker, VoiceAt(dna))
    ensures OccursAt(ToContextString(dna), MoralMarker, MoralAt(dna))
  {
    var s := ToContextString(dna);
    var morals := Join("\n", MoralLines(dna.moralGraph));
    var a := Header(dna) + BackstoryMarker;
    var b := a + dna.backstory + "\n\n" + VoiceMarker;
    var c := b + Join("\n", VoiceLines(dna.voiceGuidelines)) + "\n\n" + MoralMarker;
    assert s == c + morals;
    assert s[MoralAt(dna)..MoralAt(dna) + |MoralMarker|] == c[MoralAt(dna)..] == MoralMarker;
    assert s[VoiceAt(dna)..VoiceAt(dna) + |VoiceMarker|] == b[VoiceAt(dna)..] == VoiceMarker;
    assert s[BackstoryAt(dna)..BackstoryAt(dna) + |BackstoryMarker|] == a[BackstoryAt(dna)..] == BackstoryMarker;
  }

  /** The context opens with the name and version, and the three sections
      follow in the fixed order Backstory, Voice Guidelines, Moral Graph. */
  lemma {:induction false} ContextSectionsInOrder(dna: MuseDna)
    ensures StartsWith(ToContextString(dna), Header(dna))
    ensures exists i, j, k :: i < j < k && OccursAt(ToContextString(dna), BackstoryMarker, i)
                              && OccursAt(ToContextString(dna), VoiceMarker, j)
                              && OccursAt(ToContextString(dna), MoralMarker, k)
  {
    var s := ToContextString(dna);
    assert s[..|Header(dna)|] == Header(dna);
    MarkersAt(dna);
    assert BackstoryAt(dna) < VoiceAt(dna) < MoralAt(dna);
  }

  /** Every guideline and every moral appears rendered in the context. */
  lemma {:induction false} ContextMentionsEveryLine(dna: MuseDna)
    ensures forall i :: 0 <= i < |dna.voiceGuidelines| ==>
              Contains(ToContextString(dna), VoiceLine(dna.voiceGuidelines[i]))
    ensures forall i :: 0 <= i < |dna.moralGraph| ==>
              Contains(ToContextString(dna), MoralLine(dna.moralGraph[i]))
  {
    var voice := Join("\n", VoiceLines(dna.voiceGuidelines));
    var morals := Join("\n", MoralLines(dna.moralGraph));
    var pre := Header(dna) + BackstoryMarker + dna.backstory + "\n\n" + VoiceMarker;
    var post := "\n\n" + MoralMarker + morals;
    assert ToContextString(dna) == pre + voice + post;
    forall i | 0 <= i < |dna.voiceGuidelines|
      ensures Contains(ToContextString(dna), VoiceLine(dna.voiceGuidelines[i]))
    {
      JoinContainsEach("\n", VoiceLines(dna.voiceGuidelines), i);
      ContainsInside(pre, voice, post, VoiceLine(dna.voiceGuidelines[i]));
    }
    var pre2 := pre + voice + "\n\n" + MoralMarker;
    assert ToContextString(dna) == pre2 + morals + "";
    forall i | 0 <= i < |dna.moralGraph|
      ensures Contains(ToContextString(dna), MoralLine(dna.moralGraph[i]))
    {
      JoinContainsEach("\n", MoralLines(dna.moralGraph), i);
      ContainsInside(pre2, morals, "", MoralLine(dna.moralGraph[i]));
    }
  }

  /** An empty moral graph leaves the last section with an empty body. */
  lemma EmptyMoralGraphEndsWithMarker(dna: MuseDna)
    requires dna.moralGraph == []
    ensures var s := ToContextString(dna);
            |s| >= |MoralMarker| && s[|s| - |MoralMarker|..] == MoralMarker
  {
    assert MoralLines([]) == [];
  }

  datatype WorldObject = WorldObject(objectId: string, name: string, description: string,
                                     visualReferencePath: string, properties: map<string, string>)

  datatype WorldLocation = WorldLocation(locationId: string, name: string, description: string,
                                         visualReferencePath: string, recurringObjects: seq<string>,
                                         lightingSetup: string)

  datatype IdentityAnchor = IdentityAnchor(anchorId: string, museId: string, assetPath: string,
                                           assetType: string, embeddingVector: seq<real>, createdAt: Timestamp)

  datatype WardrobeItem = WardrobeItem(itemId: string, name: string, description: string,
                                       visualReferencePath: string, tags: seq<string>)

  datatype SceneProp = SceneProp(propId: string, name: string, description: string,
                                 visualReferencePath: string, isRecurring: bool)

  /** `WorldObject(...)` without properties: an empty mapping. */
  function NewWorldObject(objectId: string, name: string, description: string, path: string): (o: WorldObject)
    ensures o.properties == map[]
    ensures o.objectId == objectId && o.name == name && o.description == description && o.visualReferencePath == path
  {
    WorldObject(objectId, name, description, path, map[])
  }

  /** `WorldLocation(...)` without recurring objects: an empty list. */
  function NewWorldLocation(locationId: string, name: string, description: string, path: string,
                            lightingSetup: string): (l: WorldLocation)
    ensures l.recurringObjects == []
    ensures l.locationId == locationId && l.name == name && l.description == description
    ensures l.visualReferencePath == path && l.lightingSetup == lightingSetup
  {
    WorldLocation(locationId, name, description, path, [], lightingSetup)
  }

  /** `IdentityAnchor(...)` without an embedding: an empty vector, created now. */
  function NewIdentityAnchor(anchorId: string, museId: string, assetPath: string, assetType: string,
                             now: Timestamp): (a: IdentityAnchor)
    ensures a.embeddingVector == [] && a.createdAt == now
    ensures a.anchorId == anchorId && a.museId == museId && a.assetPath == assetPath && a.assetType == assetType
  {
    IdentityAnchor(anchorId, museId, assetPath, assetType, [], now)
  }

  /** `WardrobeItem(...)` without tags: an empty list. */
  function NewWardrobeItem(itemId: string, name: string, description: string, path: string): (w: WardrobeItem)
    ensures w.tags == []
    ensures w.itemId == itemId && w.name == name && w.description == description && w.visualReferencePath == path
  {
    WardrobeItem(itemId, name, description, path, [])
  }

  /** `SceneProp(...)` without the flag: the prop is recurring. */
  function NewSceneProp(propId: string, name: string, description: string, path: string): (p: SceneProp)
    ensures p.isRecurring
    ensures p.propId == propId && p.name == name && p.description == description && p.visualReferencePath == path
  {
    SceneProp(propId, name, description, path, true)
  }

  /** A registry entry rendered as `- name: description`. */
  function EntryLine(name: string, description: string): string
  {
    "- " + name + ": " + description
  }
}
