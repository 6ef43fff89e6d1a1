/** Live-API audio handling of app/agents/handlers/audio_stream.py: pull
    the transcript out of a server message, and wrap outgoing PCM audio. */
module AudioStream {
  import opened Common

  /** The parts of a server message the handler reads; every level of the
      structure may be absent. */
  datatype Part = Part(text: Option<string>)
  datatype Turn = Turn(parts: Option<seq<Part>>)
  datatype ServerContent = ServerContent(modelTurn: Option<Turn>)
  datatype Message = Message(serverContent: Option<ServerContent>)

  /** `p.text` is truthy: present and non-empty. */
  predicate HasText(p: Part)
  {
    p.text.Some? && p.text.value != ""
  }

  /** `[p.text for p in parts if p.text]` */
  function Texts(parts: seq<Part>): (texts: seq<string>)
    ensures |texts| <= |parts|
    ensures forall t :: t in texts ==> t != ""
    ensures texts == [] <==> forall i :: 0 <= i < |parts| ==> !HasText(parts[i])
  {
    if parts == [] then []
    else
      var rest := Texts(parts[..|parts| - 1]);
      var last := parts[|parts| - 1];
      assert forall i :: 0 <= i < |parts| - 1 ==> parts[..|parts| - 1][i] == parts[i];
      if HasText(last) then rest + [last.text.value] else rest
  }

  /** The parts of the model turn, when the message has them. */
  function TurnParts(m: Message): seq<Part>
  {
    if m.serverContent.Some? && m.serverContent.value.modelTurn.Some?
       && m.serverContent.value.modelTurn.value.parts.Some?
    then m.serverContent.value.modelTurn.value.parts.value
    else []
  }

  /** `extract_transcript`: the non-empty part texts joined by single
      spaces, or None when there is no server content, no turn, no parts or
      no non-empty text. */
  function ExtractTranscript(m: Message): (r: Option<string>)
    ensures r.None? <==> Texts(TurnParts(m)) == []
    ensures r.Some? ==> r.value == Join(" ", Texts(TurnParts(m)))
  {
    if m.serverContent.None? then None
    else
      var turn := m.serverContent.value.modelTurn;
      if turn.Some? && turn.value.parts.Some? && turn.value.parts.value != [] then
        var texts := Texts(turn.value.parts.value);
        if texts != [] then Some(Join(" ", texts)) else None
      else None
  }

  /** A message without server content, without a turn, or whose turn has
      no parts yields no transcript. */
  lemma MissingStructureYieldsNone(m: Message)
    requires m.serverContent.None? || m.serverContent.value.modelTurn.None?
             || m.serverContent.value.modelTurn.value.parts.None?
             || m.serverContent.value.modelTurn.value.parts.value == []
    ensures ExtractTranscript(m) == None
  {
  }

  /** Every non-empty part text appears in the transcript. */
  lemma {:induction false} TranscriptHasEveryText(m: Message, i: int)
    requires 0 <= i < |TurnParts(m)| && HasText(TurnParts(m)[i])
    ensures ExtractTranscript(m).Some?
    ensures Contains(ExtractTranscript(m).value, TurnParts(m)[i].text.value)
  {
    var parts := TurnParts(m);
    TextsHasEach(parts, i);
    var texts := Texts(parts);
    var k :| 0 <= k < |texts| && texts[k] == parts[i].text.value;
    JoinContainsEach(" ", texts, k);
  }

  lemma {:induction false} TextsHasEach(parts: seq<Part>, i: int)
    requires 0 <= i < |parts| && HasText(parts[i])
    ensures parts[i].text.value in Texts(parts)
    decreases |parts|
  {
    if i < |parts| - 1 {
      TextsHasEach(parts[..|parts| - 1], i);
    }
  }

  /** A single text part is the transcript itself. */
  lemma SinglePartTranscript(text: string)
    requires text != ""
    ensures ExtractTranscript(Message(Some(ServerContent(Some(Turn(Some([Part(Some(text))]))))))) == Some(text)
  {
    assert [Part(Some(text))][..0] == [];
  }

  datatype Blob = Blob(data: Bytes, mimeType: string)
  datatype RealtimeInput = RealtimeInput(mediaChunks: seq<Blob>)

  const PcmMime: string := "audio/pcm"

  /** `prepare_audio_input`: exactly one chunk, of PCM audio, carrying the
      data unchanged. */
  function PrepareAudioInput(audioData: Bytes): (input: RealtimeInput)
    ensures |input.mediaChunks| == 1
    ensures input.mediaChunks[0].mimeType == PcmMime
    ensures input.mediaChunks[0].data == audioData
  {
    RealtimeInput([Blob(audioData, PcmMime)])
  }
}
