/** The production pipeline of app/core/workflow_engine.py:
    narrative -> prompt optimisation -> reference download -> up to
    `max_retries` rounds of generate-then-verify -> video -> staging.

    Every collaborator is a parameter (a field of `Services`). The image
    generator returns a different candidate on each call, so the k-th call
    (counting from 0) returns `generate(prompt, subject, k)`. The method
    returns, besides its result, the sequence of collaborator calls it made,
    so that ordering and call counts can be stated. */
module WorkflowEngine {
  import opened Common
  import opened StateModels
  import Critic
  import NarrativeArchitect

  datatype Services = Services(
    narrative: (string, Mood) -> NarrativeArchitect.ScriptOutput,  // NarrativeAgent.generate_content
    optimize: string -> string,                                    // PromptOptimizer.optimize
    download: string -> Bytes,                                     // assets manager download_asset
    generate: (string, string, nat) -> Bytes,                      // VisualAgent.generate_image, k-th call
    similarity: Critic.Comparator,                                 // the Critic's face comparator
    video: (string, Bytes) -> Bytes,                               // DirectorAgent.generate_video
    stage: (Staged, string) -> string)                             // EICAgent.stage_for_review

  /** The production data handed to staging. */
  datatype Staged = Staged(title: string, caption: string, videoBytes: Bytes, posterImageBytes: Bytes)

  /** The production data returned: the staged data plus `review_path`. */
  datatype Production = Production(
    title: string,
    caption: string,
    videoBytes: Bytes,
    posterImageBytes: Bytes,
    reviewPath: string)

  /** `RuntimeError("Failed to produce consistent visual after N attempts.")` */
  datatype ProductionError = ConsistencyFailure(attempts: int)

  /** One call to a collaborator. */
  datatype Call =
    | NarrativeCall(intent: string, mood: Mood)
    | OptimizeCall(script: string)
    | DownloadCall(path: string)
    | GenerateCall(prompt: string, subjectId: string)
    | VerifyCall(generatedSlot: Bytes, referenceSlot: Bytes)
    | VideoCall(prompt: string, image: Bytes)
    | StageCall(data: Staged, subjectId: string)

  /** Where a Muse's reference face is stored. */
  function ReferencePath(subjectId: string): string
  {
    "muses/" + subjectId + "/face.png"
  }

  /** The candidate of attempt k. */
  function Candidate(s: Services, prompt: string, subjectId: string, k: nat): Bytes
  {
    s.generate(prompt, subjectId, k)
  }

  /** The Critic's verdict on attempt k. The reference image is passed in
      the critic's "generated" slot and the candidate in its "reference"
      slot, as the engine does. */
  predicate Passes(s: Services, prompt: string, subjectId: string, reference: Bytes, k: nat)
  {
    Critic.VerifyConsistency(s.similarity, reference, Candidate(s, prompt, subjectId, k)).isConsistent
  }

  /** The calls made by attempts 0 .. n-1: one generation and one
      verification each. */
  function AttemptCalls(s: Services, prompt: string, subjectId: string, reference: Bytes, n: nat): seq<Call>
  {
    if n == 0 then []
    else AttemptCalls(s, prompt, subjectId, reference, n - 1)
         + [GenerateCall(prompt, subjectId), VerifyCall(reference, Candidate(s, prompt, subjectId, n - 1))]
  }

  /** The first attempt in [from, maxRetries) whose verdict is consistent. */
  function FirstApproved(s: Services, prompt: string, subjectId: string, reference: Bytes,
                         from: nat, maxRetries: int): (r: Option<nat>)
    decreases maxRetries - from
    ensures r.Some? ==> from <= r.value < maxRetries && Passes(s, prompt, subjectId, reference, r.value)
    ensures r.Some? ==> forall j :: from <= j < r.value ==> !Passes(s, prompt, subjectId, reference, j)
    ensures r.None? ==> forall j :: from <= j < maxRetries ==> !Passes(s, prompt, subjectId, reference, j)
  {
    if from >= maxRetries then None
    else if Passes(s, prompt, subjectId, reference, from) then Some(from)
    else FirstApproved(s, prompt, subjectId, reference, from + 1, maxRetries)
  }

  /** The outcome of one run and the calls it made, in order. */
  datatype Run = Run(result: Result<Production, ProductionError>, calls: seq<Call>)

  /** The calls made before the first attempt. */
  function Preamble(s: Services, intent: string, mood: Mood, subjectId: string): seq<Call>
  {
    [NarrativeCall(intent, mood), OptimizeCall(s.narrative(intent, mood).script), DownloadCall(ReferencePath(subjectId))]
  }

  /** What `produce_video_content(intent, mood, subject_id, max_retries)` does. */
  function Pipeline(s: Services, intent: string, mood: Mood, subjectId: string, maxRetries: int): Run
  {
    var script := s.narrative(intent, mood);
    var prompt := s.optimize(script.script);
    var reference := s.download(ReferencePath(subjectId));
    var pre := Preamble(s, intent, mood, subjectId);
    match FirstApproved(s, prompt, subjectId, reference, 0, maxRetries)
    case None =>
      Run(Err(ConsistencyFailure(maxRetries)),
          pre + AttemptCalls(s, prompt, subjectId, reference, if maxRetries > 0 then maxRetries else 0))
    case Some(k) =>
      var image := Candidate(s, prompt, subjectId, k);
      var tried := pre + AttemptCalls(s, prompt, subjectId, reference, k + 1);
      if |image| == 0 then Run(Err(ConsistencyFailure(maxRetries)), tried)
      else
        var vid := s.video(prompt, image);
        var staged := Staged(script.title, script.caption, vid, image);
        Run(Ok(Production(script.title, script.caption, vid, image, s.stage(staged, subjectId))),
            tried + [VideoCall(prompt, image), StageCall(staged, subjectId)])
  }

  /** The `max_retries` a caller gets by leaving it out. */
  const DefaultMaxRetries: int := 3

  /** `WorkflowEngine.produce_video_content` */
  method ProduceVideoContent(s: Services, intent: string, mood: Mood, subjectId: string, maxRetries: int)
    returns (result: Result<Production, ProductionError>, calls: seq<Call>)
    ensures Run(result, calls) == Pipeline(s, intent, mood, subjectId, maxRetries)
  {
    // 1. Narrative
    var scriptData := s.narrative(intent, mood);
    calls := [NarrativeCall(intent, mood)];
    // 2. Prompt optimisation
    var optimizedPrompt := s.optimize(scriptData.script);
    calls := calls + [OptimizeCall(scriptData.script)];
    // 3. Visual and QA loop
    var referenceImage := s.download(ReferencePath(subjectId));
    calls := calls + [DownloadCall(ReferencePath(subjectId))];
    ghost var pre := calls;

    var finalImage: Option<Bytes> := None;
    var attempt: nat := 0;
    while attempt < maxRetries
      invariant attempt <= maxRetries || maxRetries <= 0
      invariant maxRetries <= 0 ==> attempt == 0
      invariant finalImage == None
      invariant calls == pre + AttemptCalls(s, optimizedPrompt, subjectId, referenceImage, attempt)
      invariant FirstApproved(s, optimizedPrompt, subjectId, referenceImage, 0, maxRetries)
                == FirstApproved(s, optimizedPrompt, subjectId, referenceImage, attempt, maxRetries)
      decreases maxRetries - attempt
    {
      var candidateImage := s.generate(optimizedPrompt, subjectId, attempt);
      calls := calls + [GenerateCall(optimizedPrompt, subjectId)];
      var report := Critic.VerifyConsistency(s.similarity, referenceImage, candidateImage);
      calls := calls + [VerifyCall(referenceImage, candidateImage)];
      assert calls == pre + AttemptCalls(s, optimizedPrompt, subjectId, referenceImage, attempt + 1);
      if report.isConsistent {
        finalImage := Some(candidateImage);
        assert FirstApproved(s, optimizedPrompt, subjectId, referenceImage, 0, maxRetries) == Some(attempt);
        break;
      }
      attempt := attempt + 1;
    }

    if finalImage.None? || |finalImage.value| == 0 {
      result := Err(ConsistencyFailure(maxRetries));
      return;
    }

    // 4. Video
    var videoData := s.video(optimizedPrompt, finalImage.value);
    calls := calls + [VideoCall(optimizedPrompt, finalImage.value)];
    var productionData := Staged(scriptData.title, scriptData.caption, videoData, finalImage.value);
    // 5. Staging
    var reviewPath := s.stage(productionData, subjectId);
    calls := calls + [StageCall(productionData, subjectId)];
    result := Ok(Production(productionData.title, productionData.caption,
                            productionData.videoBytes, productionData.posterImageBytes, reviewPath));
  }

  // ---------------------------------------------------------------------
  // Properties of the pipeline

  /** Number of image generations among some calls. */
  function Generations(calls: seq<Call>): nat
  {
    if calls == [] then 0
    else Generations(calls[..|calls| - 1]) + (if calls[|calls| - 1].GenerateCall? then 1 else 0)
  }

  /** Number of consistency verifications among some calls. */
  function Verifications(calls: seq<Call>): nat
  {
    if calls == [] then 0
    else Verifications(calls[..|calls| - 1]) + (if calls[|calls| - 1].VerifyCall? then 1 else 0)
  }

  lemma {:induction false} CountsAppend(a: seq<Call>, b: seq<Call>)
    ensures Generations(a + b) == Generations(a) + Generations(b)
    ensures Verifications(a + b) == Verifications(a) + Verifications(b)
    decreases |b|
  {
    if b != [] {
      assert (a + b)[..|a + b| - 1] == a + b[..|b| - 1];
      CountsAppend(a, b[..|b| - 1]);
    } else {
      assert a + b == a;
    }
  }

  lemma CountsSingle(c: Call)
    ensures Generations([c]) == (if c.GenerateCall? then 1 else 0)
    ensures Verifications([c]) == (if c.VerifyCall? then 1 else 0)
  {
    assert [c][..0] == [];
  }

  /** n attempts make exactly n generations and n verifications, and every
      generation asks for the same prompt and subject. */
  lemma {:induction false} AttemptCallsShape(s: Services, prompt: string, subjectId: string, reference: Bytes, n: nat)
    ensures var c := AttemptCalls(s, prompt, subjectId, reference, n);
            && Generations(c) == n && Verifications(c) == n && |c| == 2 * n
            && (forall i :: 0 <= i < n ==>
                  (c[2 * i] == GenerateCall(prompt, subjectId)
                   && c[2 * i + 1] == VerifyCall(reference, Candidate(s, prompt, subjectId, i))))
            && (forall j :: 0 <= j < |c| ==> c[j] == GenerateCall(prompt, subjectId) || c[j].VerifyCall?)
  {
    if n > 0 {
      var prev := AttemptCalls(s, prompt, subjectId, reference, n - 1);
      var last := [GenerateCall(prompt, subjectId), VerifyCall(reference, Candidate(s, prompt, subjectId, n - 1))];
      AttemptCallsShape(s, prompt, subjectId, reference, n - 1);
      CountsAppend(prev, last);
      CountsSingle(last[0]);
      CountsSingle(last[1]);
      assert last == [last[0]] + [last[1]];
      CountsAppend([last[0]], [last[1]]);
    }
  }

  /** Counts of the three calls before the loop. */
  lemma PreambleCounts(s: Services, intent: string, mood: Mood, subjectId: string)
    ensures Generations(Preamble(s, intent, mood, subjectId)) == 0
    ensures Verifications(Preamble(s, intent, mood, subjectId)) == 0
  {
    var p := Preamble(s, intent, mood, subjectId);
    assert p == [p[0]] + [p[1]] + [p[2]];
    CountsSingle(p[0]);
    CountsSingle(p[1]);
    CountsSingle(p[2]);
    CountsAppend([p[0]], [p[1]]);
    CountsAppend([p[0]] + [p[1]], [p[2]]);
  }

  /** Counts of the two calls after an approval. */
  lemma EpilogueCounts(prompt: string, image: Bytes, staged: Staged, subjectId: string)
    ensures Generations([VideoCall(prompt, image), StageCall(staged, subjectId)]) == 0
    ensures Verifications([VideoCall(prompt, image), StageCall(staged, subjectId)]) == 0
  {
    var e := [VideoCall(prompt, image), StageCall(staged, subjectId)];
    assert e == [e[0]] + [e[1]];
    CountsSingle(e[0]);
    CountsSingle(e[1]);
    CountsAppend([e[0]], [e[1]]);
  }

  /** The image generator is called at most `max_retries` times (never when
      `max_retries <= 0`), and the Critic exactly once per candidate. */
  lemma {:induction false} GenerationBound(s: Services, intent: string, mood: Mood, subjectId: string, maxRetries: int)
    ensures var run := Pipeline(s, intent, mood, subjectId, maxRetries);
            && Generations(run.calls) <= (if maxRetries > 0 then maxRetries else 0)
            && Verifications(run.calls) == Generations(run.calls)
  {
    var prompt := s.optimize(s.narrative(intent, mood).script);
    var reference := s.download(ReferencePath(subjectId));
    var first := FirstApproved(s, prompt, subjectId, reference, 0, maxRetries);
    if first.Some? && |Candidate(s, prompt, subjectId, first.value)| != 0 {
      SuccessGenerations(s, intent, mood, subjectId, maxRetries, first.value);
    } else {
      var pre := Preamble(s, intent, mood, subjectId);
      var n := AttemptsMade(s, intent, mood, subjectId, maxRetries);
      FailedRunCalls(s, intent, mood, subjectId, maxRetries);
      PreambleCounts(s, intent, mood, subjectId);
      AttemptCallsShape(s, prompt, subjectId, reference, n);
      CountsAppend(pre, AttemptCalls(s, prompt, subjectId, reference, n));
    }
  }

  /** With `max_retries <= 0` no image is generated and the run fails. */
  lemma NoRetriesNoImage(s: Services, intent: string, mood: Mood, subjectId: string, maxRetries: int)
    requires maxRetries <= 0
    ensures var run := Pipeline(s, intent, mood, subjectId, maxRetries);
            run.result == Err(ConsistencyFailure(maxRetries)) && Generations(run.calls) == 0
  {
    GenerationBound(s, intent, mood, subjectId, maxRetries);
  }

  /** The run succeeds exactly when some attempt within the budget is
      consistent and the first such candidate is non-empty; it then returns
      that candidate as poster, the director's video of it, and the staging
      path. */
  lemma SuccessIsFirstApproved(s: Services, intent: string, mood: Mood, subjectId: string, maxRetries: int)
    ensures var script := s.narrative(intent, mood);
            var prompt := s.optimize(script.script);
            var reference := s.download(ReferencePath(subjectId));
            var run := Pipeline(s, intent, mood, subjectId, maxRetries);
            (run.result.Ok? <==>
               exists k :: 0 <= k < maxRetries && Passes(s, prompt, subjectId, reference, k)
                           && (forall j :: 0 <= j < k ==> !Passes(s, prompt, subjectId, reference, j))
                           && |Candidate(s, prompt, subjectId, k)| > 0)
            && (run.result.Ok? ==>
                  var p := run.result.value;
                  && Critic.VerifyConsistency(s.similarity, reference, p.posterImageBytes).isConsistent
                  && p.videoBytes == s.video(prompt, p.posterImageBytes)
                  && p.title == script.title && p.caption == script.caption
                  && p.reviewPath == s.stage(Staged(script.title, script.caption, p.videoBytes, p.posterImageBytes), subjectId)
                  && exists k :: 0 <= k < maxRetries && Passes(s, prompt, subjectId, reference, k)
                                 && (forall j :: 0 <= j < k ==> !Passes(s, prompt, subjectId, reference, j))
                                 && p.posterImageBytes == Candidate(s, prompt, subjectId, k)
                                 && Generations(run.calls) == k + 1)
            && (run.result.Err? ==> run.result.error == ConsistencyFailure(maxRetries))
  {
    var script := s.narrative(intent, mood);
    var prompt := s.optimize(script.script);
    var reference := s.download(ReferencePath(subjectId));
    var first := FirstApproved(s, prompt, subjectId, reference, 0, maxRetries);
    if first.Some? {
      var k := first.value;
      forall k' | 0 <= k' < maxRetries && Passes(s, prompt, subjectId, reference, k')
                  && (forall j :: 0 <= j < k' ==> !Passes(s, prompt, subjectId, reference, j))
        ensures k' == k
      {
      }
      var image := Candidate(s, prompt, subjectId, k);
      if |image| != 0 {
        SuccessGenerations(s, intent, mood, subjectId, maxRetries, k);
      }
    }
  }

  /** A run whose first approved attempt is k, with a non-empty candidate,
      generates exactly k + 1 images and verifies each of them once. */
  lemma SuccessGenerations(s: Services, intent: string, mood: Mood, subjectId: string, maxRetries: int, k: nat)
    requires var prompt := s.optimize(s.narrative(intent, mood).script);
             var reference := s.download(ReferencePath(subjectId));
             FirstApproved(s, prompt, subjectId, reference, 0, maxRetries) == Some(k)
             && |Candidate(s, prompt, subjectId, k)| != 0
    ensures Generations(Pipeline(s, intent, mood, subjectId, maxRetries).calls) == k + 1
    ensures Verifications(Pipeline(s, intent, mood, subjectId, maxRetries).calls) == k + 1
  {
    var script := s.narrative(intent, mood);
    var prompt := s.optimize(script.script);
    var reference := s.download(ReferencePath(subjectId));
    var image := Candidate(s, prompt, subjectId, k);
    var pre := Preamble(s, intent, mood, subjectId);
    var attempts := AttemptCalls(s, prompt, subjectId, reference, k + 1);
    var vid := s.video(prompt, image);
    var staged := Staged(script.title, script.caption, vid, image);
    var epilogue := [VideoCall(prompt, image), StageCall(staged, subjectId)];
    assert Pipeline(s, intent, mood, subjectId, maxRetries).calls == pre + attempts + epilogue;
    PreambleCounts(s, intent, mood, subjectId);
    AttemptCallsShape(s, prompt, subjectId, reference, k + 1);
    CountsAppend(pre, attempts);
    EpilogueCounts(prompt, image, staged, subjectId);
    CountsAppend(pre + attempts, epilogue);
  }

  /** How many attempts a run makes. */
  function AttemptsMade(s: Services, intent: string, mood: Mood, subjectId: string, maxRetries: int): nat
  {
    var prompt := s.optimize(s.narrative(intent, mood).script);
    var reference := s.download(ReferencePath(subjectId));
    match FirstApproved(s, prompt, subjectId, reference, 0, maxRetries)
    case None => if maxRetries > 0 then maxRetries else 0
    case Some(k) => k + 1
  }

  /** A failed run's calls are the preamble and its attempts, nothing more. */
  lemma FailedRunCalls(s: Services, intent: string, mood: Mood, subjectId: string, maxRetries: int)
    ensures var run := Pipeline(s, intent, mood, subjectId, maxRetries);
            var prompt := s.optimize(s.narrative(intent, mood).script);
            var reference := s.download(ReferencePath(subjectId));
            run.result.Err? ==>
              run.calls == Preamble(s, intent, mood, subjectId)
                           + AttemptCalls(s, prompt, subjectId, reference, AttemptsMade(s, intent, mood, subjectId, maxRetries))
  {
  }

  /** Calls made only of the preamble and generate/verify pairs include no
      call to the director or to staging. */
  lemma {:induction false} NoVideoOrStage(pre: seq<Call>, attempts: seq<Call>, prompt: string, subjectId: string)
    requires forall j :: 0 <= j < |pre| ==> pre[j].NarrativeCall? || pre[j].OptimizeCall? || pre[j].DownloadCall?
    requires forall j :: 0 <= j < |attempts| ==> attempts[j] == GenerateCall(prompt, subjectId) || attempts[j].VerifyCall?
    ensures forall c :: c in pre + attempts ==> !c.VideoCall? && !c.StageCall?
  {
    forall c | c in pre + attempts ensures !c.VideoCall? && !c.StageCall? {
      var i :| 0 <= i < |pre + attempts| && (pre + attempts)[i] == c;
      if i >= |pre| {
        assert c == attempts[i - |pre|];
      } else {
        assert c == pre[i];
      }
    }
  }

  /** A failed run never reaches the director or staging: its calls are the
      preamble followed by generate/verify pairs only. */
  lemma {:induction false} FailureSkipsVideoAndStaging(s: Services, intent: string, mood: Mood, subjectId: string, maxRetries: int)
    ensures var run := Pipeline(s, intent, mood, subjectId, maxRetries);
            run.result.Err? ==> forall c :: c in run.calls ==> !c.VideoCall? && !c.StageCall?
  {
    var prompt := s.optimize(s.narrative(intent, mood).script);
    var reference := s.download(ReferencePath(subjectId));
    var n := AttemptsMade(s, intent, mood, subjectId, maxRetries);
    FailedRunCalls(s, intent, mood, subjectId, maxRetries);
    AttemptCallsShape(s, prompt, subjectId, reference, n);
    NoVideoOrStage(Preamble(s, intent, mood, subjectId), AttemptCalls(s, prompt, subjectId, reference, n), prompt, subjectId);
  }

  /** A run's calls are the preamble, the attempts, and then only calls to
      the director or to staging. */
  lemma RunCallsSplit(s: Services, intent: string, mood: Mood, subjectId: string, maxRetries: int)
    ensures var run := Pipeline(s, intent, mood, subjectId, maxRetries);
            var prompt := s.optimize(s.narrative(intent, mood).script);
            var reference := s.download(ReferencePath(subjectId));
            var m := 3 + |AttemptCalls(s, prompt, subjectId, reference, AttemptsMade(s, intent, mood, subjectId, maxRetries))|;
            && m <= |run.calls|
            && run.calls[..m] == Preamble(s, intent, mood, subjectId)
                                 + AttemptCalls(s, prompt, subjectId, reference, AttemptsMade(s, intent, mood, subjectId, maxRetries))
            && forall i :: m <= i < |run.calls| ==> run.calls[i].VideoCall? || run.calls[i].StageCall?
  {
  }

  /** Stages run in order: the narrative, the optimisation of its script and
      the download of `muses/{subject}/face.png` come first, the reference is
      fetched exactly once, and every generation uses the same optimised
      prompt and subject. */
  lemma {:induction false} StagesInOrder(s: Services, intent: string, mood: Mood, subjectId: string, maxRetries: int)
    ensures var run := Pipeline(s, intent, mood, subjectId, maxRetries);
            var prompt := s.optimize(s.narrative(intent, mood).script);
            && |run.calls| >= 3
            && run.calls[..3] == Preamble(s, intent, mood, subjectId)
            && run.calls[2] == DownloadCall(ReferencePath(subjectId))
            && (forall i :: 3 <= i < |run.calls| ==>
                  !run.calls[i].NarrativeCall? && !run.calls[i].OptimizeCall? && !run.calls[i].DownloadCall?)
            && (forall i :: 0 <= i < |run.calls| && run.calls[i].GenerateCall? ==>
                  run.calls[i] == GenerateCall(prompt, subjectId))
  {
    var prompt := s.optimize(s.narrative(intent, mood).script);
    var reference := s.download(ReferencePath(subjectId));
    var run := Pipeline(s, intent, mood, subjectId, maxRetries);
    var n := AttemptsMade(s, intent, mood, subjectId, maxRetries);
    RunCallsSplit(s, intent, mood, subjectId, maxRetries);
    AttemptCallsShape(s, prompt, subjectId, reference, n);
    CallsAfterPreamble(run.calls, Preamble(s, intent, mood, subjectId),
                       AttemptCalls(s, prompt, subjectId, reference, n), prompt, subjectId);
  }

  /** A trace made of a three-call preamble, generate/verify calls and then
      director or staging calls only: the preamble is its prefix, and past it
      there is no download, no narrative, and no other generation. */
  lemma CallsAfterPreamble(calls: seq<Call>, pre: seq<Call>, attempts: seq<Call>, prompt: string, subjectId: string)
    requires |pre| == 3 && 3 + |attempts| <= |calls|
    requires calls[..3 + |attempts|] == pre + attempts
    requires forall j :: 0 <= j < |attempts| ==> attempts[j] == GenerateCall(prompt, subjectId) || attempts[j].VerifyCall?
    requires forall i :: 3 + |attempts| <= i < |calls| ==> calls[i].VideoCall? || calls[i].StageCall?
    ensures calls[..3] == pre
    ensures forall i :: 3 <= i < |calls| ==> !calls[i].NarrativeCall? && !calls[i].OptimizeCall? && !calls[i].DownloadCall?
    ensures forall i :: 3 <= i < |calls| && calls[i].GenerateCall? ==> calls[i] == GenerateCall(prompt, subjectId)
  {
    var m := 3 + |attempts|;
    assert calls[..3] == calls[..m][..3];
    forall i | 3 <= i < m
      ensures calls[i] == attempts[i - 3]
    {
      assert calls[i] == calls[..m][i];
    }
  }
}
