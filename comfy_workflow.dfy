/** The identity-locked ComfyUI graph of app/core/services/comfy_workflow.py:
    a checkpoint, prompt encoders, PuLID and FaceID identity anchoring, a
    sampler, decoding, depth estimation and bokeh, with an optional
    ControlNet pose stage spliced in before the sampler. */
module ComfyWorkflow {
  import opened Common

  /** A link to output `slot` of node `node`. Node ids are the decimal
      strings "1" to "11"; here they are the numbers they spell. */
  datatype Link = Link(node: nat, slot: nat)

  /** The nodes the graph uses, one constructor per class type, with their
      inputs as fields. */
  datatype Node =
    | CheckpointLoaderSimple(ckptName: string)
    | CLIPTextEncode(text: string, clip: Link)
    | PuLIDApply(model: Link, image: string, faceAnalysis: string, weight: real, gnWeight: real)
    | IPAdapterFaceID(model: Link, image: string, weight: real, noise: real)
    | KSampler(seed: int, steps: int, cfg: real, samplerName: string, scheduler: string, denoise: real,
               model: Link, positive: Link, negative: Link, latentImage: Link)
    | EmptyLatentImage(width: int, height: int, batchSize: int)
    | VAEDecode(samples: Link, vae: Link)
    | DepthAnythingV2Estimator(pixels: Link, depthModel: string)
    | LensBokeh(pixels: Link, depthMap: Link, focusDistance: real, aperture: real, blurRadius: real)
    | ControlNetApply(model: Link, controlNet: string, image: string, strength: real)

  /** The links among a node's inputs. */
  function LinksOf(n: Node): seq<Link>
  {
    match n
    case CheckpointLoaderSimple(_) => []
    case CLIPTextEncode(_, clip) => [clip]
    case PuLIDApply(model, _, _, _, _) => [model]
    case IPAdapterFaceID(model, _, _, _) => [model]
    case KSampler(_, _, _, _, _, _, model, positive, negative, latent) => [model, positive, negative, latent]
    case EmptyLatentImage(_, _, _) => []
    case VAEDecode(samples, vae) => [samples, vae]
    case DepthAnythingV2Estimator(image, _) => [image]
    case LensBokeh(image, depthMap, _, _, _) => [image, depthMap]
    case ControlNetApply(model, _, _, _) => [model]
  }

  /** The API graph: nodes by id. */
  type Workflow = map<nat, Node>

  const DefaultCheckpoint: string := "sdxl_base_v1.0.safetensors"
  const NegativePrompt: string := "low quality, blurry, distorted"
  const PoseStrength: real := 0.7

  /** The node ids every graph has. */
  const BaseIds: set<nat> := {1, 2, 3, 4, 5, 6, 7, 8, 10, 11}

  /** `parameters.get(key, "")` on a parameters mapping. */
  function ParamOrEmpty(parameters: map<string, string>, key: string): string
  {
    if key in parameters then parameters[key] else ""
  }

  /** The prompt with the look and the lighting of a non-empty parameters
      mapping appended, each only when non-empty, look first. */
  function EnhancedPrompt(prompt: string, parameters: Option<map<string, string>>): string
  {
    if parameters.None? || parameters.value == map[] then prompt
    else
      var look := ParamOrEmpty(parameters.value, "look");
      var lighting := ParamOrEmpty(parameters.value, "lighting");
      prompt + (if look != "" then ", " + look + " style" else "")
             + (if lighting != "" then ", " + lighting + " lighting" else "")
  }

  /** The prompt is always kept whole at the front; without parameters it is
      unchanged; a given look and lighting both occur in it. */
  lemma {:induction false} EnhancedPromptShape(prompt: string, parameters: Option<map<string, string>>)
    ensures StartsWith(EnhancedPrompt(prompt, parameters), prompt)
    ensures parameters.None? ==> EnhancedPrompt(prompt, parameters) == prompt
    ensures parameters.Some? && parameters.value != map[] && ParamOrEmpty(parameters.value, "look") != "" ==>
              Contains(EnhancedPrompt(prompt, parameters), ", " + ParamOrEmpty(parameters.value, "look") + " style")
    ensures parameters.Some? && parameters.value != map[] && ParamOrEmpty(parameters.value, "lighting") != "" ==>
              Contains(EnhancedPrompt(prompt, parameters), ", " + ParamOrEmpty(parameters.value, "lighting") + " lighting")
  {
    var e := EnhancedPrompt(prompt, parameters);
    assert e[..|prompt|] == prompt;
    if parameters.Some? && parameters.value != map[] {
      var look := ParamOrEmpty(parameters.value, "look");
      var lighting := ParamOrEmpty(parameters.value, "lighting");
      var lookPart := if look != "" then ", " + look + " style" else "";
      var lightPart := if lighting != "" then ", " + lighting + " lighting" else "";
      assert e == prompt + lookPart + lightPart;
      ContainsMiddle(prompt, lookPart, lightPart);
      ContainsMiddle(prompt + lookPart, lightPart, "");
      assert prompt + lookPart + lightPart + "" == e;
    }
  }

  /** With a parameters mapping, the result is the prompt followed by the
      look suffix when a look is given and then the lighting suffix when a
      lighting is given, and nothing else; an empty mapping, or one without
      a non-empty look and lighting, leaves the prompt unchanged. */
  lemma {:induction false} EnhancedPromptCases(prompt: string, p: map<string, string>)
    ensures var look := ParamOrEmpty(p, "look");
            var lighting := ParamOrEmpty(p, "lighting");
            var e := EnhancedPrompt(prompt, Some(p));
            && (look == "" && lighting == "" ==> e == prompt)
            && (look != "" && lighting == "" ==> e == prompt + ", " + look + " style")
            && (look == "" && lighting != "" ==> e == prompt + ", " + lighting + " lighting")
            && (look != "" && lighting != "" ==> e == prompt + ", " + look + " style" + ", " + lighting + " lighting")
  {
    var look := ParamOrEmpty(p, "look");
    var lighting := ParamOrEmpty(p, "lighting");
    if p != map[] {
      var lookPart := if look != "" then ", " + look + " style" else "";
      var lightPart := if lighting != "" then ", " + lighting + " lighting" else "";
      assert EnhancedPrompt(prompt, Some(p)) == prompt + lookPart + lightPart;
      assert prompt + "" + "" == prompt;
      assert prompt + lookPart + "" == prompt + lookPart;
      assert prompt + "" + lightPart == prompt + lightPart;
    }
  }

  /** Every link in the graph names a node of the graph. */
  predicate LinksResolve(w: Workflow)
  {
    forall id :: id in w ==> LinksWithin(w[id], w.Keys)
  }

  /** Every link of the node names one of the ids. */
  predicate LinksWithin(n: Node, ids: set<nat>)
  {
    forall k :: 0 <= k < |LinksOf(n)| ==> LinksOf(n)[k].node in ids
  }

  /** The node with its model input drawn from `model`; a node without a
      model input is returned as it is. */
  function WithModel(n: Node, model: Link): Node
  {
    match n
    case KSampler(seed, steps, cfg, samplerName, scheduler, denoise, _, positive, negative, latent) =>
      KSampler(seed, steps, cfg, samplerName, scheduler, denoise, model, positive, negative, latent)
    case _ => n
  }

  /** `pose_ref_path` is truthy: given and non-empty. */
  predicate HasPose(poseRefPath: Option<string>)
  {
    poseRefPath.Some? && poseRefPath.value != ""
  }

  /** The ControlNet node for a pose image, on the FaceID model. */
  function PoseNode(poseImage: string): Node
  {
    ControlNetApply(Link(5, 0), "control_openpose.safetensors", poseImage, PoseStrength)
  }

  /** The sampler node, drawing its model from node `modelSource`. */
  function SamplerNode(modelSource: nat): Node
  {
    KSampler(42, 30, 7.0, "euler", "normal", 1.0, Link(modelSource, 0), Link(2, 0), Link(3, 0), Link(7, 0))
  }

  /** Adding the pose node and re-wiring the sampler to it keeps every link
      of a closed base graph inside the graph. */
  lemma {:induction false} PoseWiredLinksResolve(base: Workflow, w: Workflow, poseImage: string)
    requires base.Keys == BaseIds && forall id :: id in base ==> LinksWithin(base[id], BaseIds)
    requires w.Keys == BaseIds + {9}
    requires w[9] == PoseNode(poseImage) && w[6] == SamplerNode(9)
    requires forall id :: id in base && id != 6 ==> w[id] == base[id]
    ensures LinksResolve(w)
  {
    forall id | id in w
      ensures LinksWithin(w[id], w.Keys)
    {
      if id == 9 {
        assert LinksOf(w[id]) == [Link(5, 0)];
      } else if id == 6 {
        assert LinksOf(w[id]) == [Link(9, 0), Link(2, 0), Link(3, 0), Link(7, 0)];
      } else {
        assert w[id] == base[id] && LinksWithin(base[id], BaseIds);
      }
    }
  }

  class IdentityLockedWorkflow {
    const checkpoint: string

    constructor (checkpoint: string)
      ensures this.checkpoint == checkpoint
    {
      this.checkpoint := checkpoint;
    }

    /** `IdentityLockedWorkflow()`: the SDXL base checkpoint. */
    constructor Default()
      ensures checkpoint == DefaultCheckpoint
    {
      checkpoint := DefaultCheckpoint;
    }

    /** The graph without the pose stage, encoding `positive` as the
        positive prompt. */
    function BaseGraph(positive: string, faceMasterPath: string, pulidWeight: real, faceidWeight: real): (w: Workflow)
    {
      map[
        1 := CheckpointLoaderSimple(checkpoint),
        2 := CLIPTextEncode(positive, Link(1, 1)),
        3 := CLIPTextEncode(NegativePrompt, Link(1, 1)),
        4 := PuLIDApply(Link(1, 0), faceMasterPath, "insightface", pulidWeight, 1.0),
        5 := IPAdapterFaceID(Link(4, 0), faceMasterPath, faceidWeight, 0.0),
        6 := SamplerNode(5),
        7 := EmptyLatentImage(1024, 1024, 1),
        8 := VAEDecode(Link(6, 0), Link(1, 2)),
        10 := DepthAnythingV2Estimator(Link(8, 0), "depth_anything_v2_vitl.safetensors"),
        11 := LensBokeh(Link(8, 0), Link(10, 0), 0.5, 2.8, 15.0)
      ]
    }

    /** The graph `build_workflow` returns: the base graph, with the pose
        stage added and the sampler re-wired to it when a pose is given. */
    function Graph(prompt: string, faceMasterPath: string, poseRefPath: Option<string>,
                   pulidWeight: real, faceidWeight: real, parameters: Option<map<string, string>>): Workflow
      reads this
    {
      var base := BaseGraph(EnhancedPrompt(prompt, parameters), faceMasterPath, pulidWeight, faceidWeight);
      if HasPose(poseRefPath) then base[9 := PoseNode(poseRefPath.value)][6 := WithModel(base[6], Link(9, 0))]
      else base
    }

    /** The node set and the nodes of the base graph that the full graph keeps. */
    lemma BaseGraphNodes(positive: string, faceMasterPath: string, pulidWeight: real, faceidWeight: real)
      ensures var base := BaseGraph(positive, faceMasterPath, pulidWeight, faceidWeight);
              && base.Keys == BaseIds
              && base[1] == CheckpointLoaderSimple(checkpoint)
              && base[2] == CLIPTextEncode(positive, Link(1, 1))
              && base[4] == PuLIDApply(Link(1, 0), faceMasterPath, "insightface", pulidWeight, 1.0)
              && base[5] == IPAdapterFaceID(Link(4, 0), faceMasterPath, faceidWeight, 0.0)
              && base[6] == SamplerNode(5)
    {
    }

    /** The identity nodes and the node set: the prompt encoder carries the
        enhanced prompt, PuLID and FaceID both read the face master image
        with their own weights, and node 9 exists exactly when a pose is
        given. */
    lemma GraphNodes(prompt: string, faceMasterPath: string, poseRefPath: Option<string>,
                     pulidWeight: real, faceidWeight: real, parameters: Option<map<string, string>>)
      ensures var w := Graph(prompt, faceMasterPath, poseRefPath, pulidWeight, faceidWeight, parameters);
              && w.Keys == (if HasPose(poseRefPath) then BaseIds + {9} else BaseIds)
              && w[1] == CheckpointLoaderSimple(checkpoint)
              && w[2] == CLIPTextEncode(EnhancedPrompt(prompt, parameters), Link(1, 1))
              && w[4] == PuLIDApply(Link(1, 0), faceMasterPath, "insightface", pulidWeight, 1.0)
              && w[5] == IPAdapterFaceID(Link(4, 0), faceMasterPath, faceidWeight, 0.0)
    {
      BaseGraphNodes(EnhancedPrompt(prompt, parameters), faceMasterPath, pulidWeight, faceidWeight);
    }

    /** Without a pose the sampler draws on the FaceID model; with one, node 9
        applies ControlNet on the FaceID model and the sampler draws on it.
        Only the sampler's model input changes. */
    lemma GraphPoseWiring(prompt: string, faceMasterPath: string, poseRefPath: Option<string>,
                          pulidWeight: real, faceidWeight: real, parameters: Option<map<string, string>>)
      ensures var w := Graph(prompt, faceMasterPath, poseRefPath, pulidWeight, faceidWeight, parameters);
              var base := BaseGraph(EnhancedPrompt(prompt, parameters), faceMasterPath, pulidWeight, faceidWeight);
              && (!HasPose(poseRefPath) ==> w[6] == SamplerNode(5))
              && (HasPose(poseRefPath) ==> w[9] == PoseNode(poseRefPath.value) && w[6] == SamplerNode(9))
              && (forall id :: id in base && id != 6 ==> w[id] == base[id])
    {
    }

    /** Every link of the base graph names one of its nodes. */
    lemma {:induction false} BaseGraphLinksResolve(positive: string, faceMasterPath: string, pulidWeight: real,
                                                   faceidWeight: real)
      ensures var base := BaseGraph(positive, faceMasterPath, pulidWeight, faceidWeight);
              base.Keys == BaseIds && forall id :: id in base ==> LinksWithin(base[id], BaseIds)
    {
      var base := BaseGraph(positive, faceMasterPath, pulidWeight, faceidWeight);
      forall id | id in base
        ensures LinksWithin(base[id], BaseIds)
      {
        var links := LinksOf(base[id]);
        if id == 6 {
          assert links == [Link(5, 0), Link(2, 0), Link(3, 0), Link(7, 0)];
        } else if id == 8 {
          assert links == [Link(6, 0), Link(1, 2)];
        } else if id == 11 {
          assert links == [Link(8, 0), Link(10, 0)];
        } else {
          assert |links| <= 1;
        }
      }
    }

    /** Every link of the graph names one of its nodes. */
    lemma {:induction false} GraphLinksResolve(prompt: string, faceMasterPath: string, poseRefPath: Option<string>,
                                               pulidWeight: real, faceidWeight: real,
                                               parameters: Option<map<string, string>>)
      ensures LinksResolve(Graph(prompt, faceMasterPath, poseRefPath, pulidWeight, faceidWeight, parameters))
    {
      var base := BaseGraph(EnhancedPrompt(prompt, parameters), faceMasterPath, pulidWeight, faceidWeight);
      var w := Graph(prompt, faceMasterPath, poseRefPath, pulidWeight, faceidWeight, parameters);
      BaseGraphLinksResolve(EnhancedPrompt(prompt, parameters), faceMasterPath, pulidWeight, faceidWeight);
      if HasPose(poseRefPath) {
        GraphNodes(prompt, faceMasterPath, poseRefPath, pulidWeight, faceidWeight, parameters);
        GraphPoseWiring(prompt, faceMasterPath, poseRefPath, pulidWeight, faceidWeight, parameters);
        PoseWiredLinksResolve(base, w, poseRefPath.value);
      }
    }

    /** `build_workflow`. */
    method BuildWorkflow(prompt: string, faceMasterPath: string, poseRefPath: Option<string>,
                         pulidWeight: real, faceidWeight: real, parameters: Option<map<string, string>>)
      returns (workflow: Workflow)
      ensures workflow == Graph(prompt, faceMasterPath, poseRefPath, pulidWeight, faceidWeight, parameters)
      ensures LinksResolve(workflow)
    {
      var enhancedPrompt := prompt;
      if parameters.Some? && parameters.value != map[] {
        var look := ParamOrEmpty(parameters.value, "look");
        var lighting := ParamOrEmpty(parameters.value, "lighting");
        if look != "" { enhancedPrompt := enhancedPrompt + (", " + look + " style"); }
        if lighting != "" { enhancedPrompt := enhancedPrompt + (", " + lighting + " lighting"); }
      }
      assert enhancedPrompt == EnhancedPrompt(prompt, parameters);

      workflow := BaseGraph(enhancedPrompt, faceMasterPath, pulidWeight, faceidWeight);

      if poseRefPath.Some? && poseRefPath.value != "" {
        workflow := workflow[9 := PoseNode(poseRefPath.value)];
        // Re-wire the sampler to the ControlNet model
        workflow := workflow[6 := WithModel(workflow[6], Link(9, 0))];
      }
      GraphLinksResolve(prompt, faceMasterPath, poseRefPath, pulidWeight, faceidWeight, parameters);
    }
  }
}
