/** The proactive scheduler of app/core/scheduler.py: analyse each interest
    topic in turn and trigger a production for every highly relevant one.
    The trend scanner and the workflow engine are parameters. */
module Scheduler {
  import opened Common

  datatype Sentiment = Positive | Negative | Neutral | Controversial
  datatype Relevance = High | Medium | Low | Blocked

  /** The fields of a trend report the scheduler reads. */
  datatype TrendReport = TrendReport(topic: string, summary: string, sentiment: Sentiment, relevance: Relevance)

  /** The string value of each sentiment member. */
  function SentimentText(s: Sentiment): string
  {
    match s
    case Positive => "positive"
    case Negative => "negative"
    case Neutral => "neutral"
    case Controversial => "controversial"
  }

  /** The default interest topics. */
  const DefaultTopics: seq<string> :=
    ["Digital Fashion", "Generative AI Art", "Virtual Influencers", "Metaverse Events"]

  /** One entry of the results list: `produced` with the engine output, or
      `failed` with the text of the exception the engine raised. */
  datatype Outcome<P> = Produced(topic: string, output: P) | Failed(topic: string, error: string)

  /** The collaborators' calls, in the order they are made. */
  datatype Call = AnalyzeCall(topic: string) | ProduceCall(intent: string)

  /** The topic occurs in an intent built around it. */
  lemma {:induction false} IntentHasTopic(topic: string, summary: string, tail: string)
    ensures Contains("Create content about " + topic + ". Context: " + summary + tail, topic)
  {
    var rest := ". Context: " + summary + tail;
    ContainsMiddle("Create content about ", topic, rest);
    assert "Create content about " + topic + rest == "Create content about " + topic + ". Context: " + summary + tail;
  }

  /** The summary occurs in an intent built around it. */
  lemma {:induction false} IntentHasSummary(topic: string, summary: string, tail: string)
    ensures Contains("Create content about " + topic + ". Context: " + summary + tail, summary)
  {
    ContainsMiddle("Create content about " + topic + ". Context: ", summary, tail);
  }

  /** The production intent built from a report. */
  function Intent(r: TrendReport): (intent: string)
    ensures Contains(intent, r.topic) && Contains(intent, r.summary)
    ensures StartsWith(intent, "Create content about ")
  {
    var sentiment := ". Sentiment: " + SentimentText(r.sentiment) + ".";
    IntentHasTopic(r.topic, r.summary, sentiment);
    IntentHasSummary(r.topic, r.summary, sentiment);
    "Create content about " + r.topic + ". Context: " + r.summary + sentiment
  }

  /** The entry a highly relevant topic adds to the results. */
  function OutcomeFor<P>(topic: string, analyze: string -> TrendReport,
                         produce: string -> Result<P, string>): (o: Outcome<P>)
    ensures o.topic == topic
  {
    match produce(Intent(analyze(topic)))
    case Ok(p) => Produced(topic, p)
    case Err(e) => Failed(topic, e)
  }

  /** The outcomes and the calls for the topics, in order. */
  function Scan<P>(topics: seq<string>, analyze: string -> TrendReport,
                   produce: string -> Result<P, string>): (seq<Outcome<P>>, seq<Call>)
  {
    if topics == [] then ([], [])
    else
      var (outcomes, calls) := Scan(topics[..|topics| - 1], analyze, produce);
      var topic := topics[|topics| - 1];
      var report := analyze(topic);
      if report.relevance != High then (outcomes, calls + [AnalyzeCall(topic)])
      else
        (outcomes + [OutcomeFor(topic, analyze, produce)],
         calls + [AnalyzeCall(topic), ProduceCall(Intent(report))])
  }

  /** `scan_and_activate`. `produce` is the engine bound to the Muse's
      subject id and current mood: Ok with the production, or Err with the
      text of what it raised. */
  method ScanAndActivate<P>(topics: seq<string>, analyze: string -> TrendReport,
                            produce: string -> Result<P, string>)
    returns (results: seq<Outcome<P>>, calls: seq<Call>)
    ensures (results, calls) == Scan(topics, analyze, produce)
  {
    results := [];
    calls := [];
    for i := 0 to |topics|
      invariant (results, calls) == Scan(topics[..i], analyze, produce)
    {
      assert topics[..i + 1][..i] == topics[..i];
      var topic := topics[i];
      var report := analyze(topic);
      var before := calls;
      calls := calls + [AnalyzeCall(topic)];
      if report.relevance == High {
        var intent := Intent(report);
        calls := calls + [ProduceCall(intent)];
        assert calls == before + [AnalyzeCall(topic), ProduceCall(intent)];
        var production := produce(intent);
        if production.Ok? {
          results := results + [Produced(topic, production.value)];
        } else {
          results := results + [Failed(topic, production.error)];
        }
      }
    }
    assert topics[..|topics|] == topics;
  }

  /** The topics the scanner rates highly relevant, in order. */
  function HighTopics(topics: seq<string>, analyze: string -> TrendReport): (high: seq<string>)
    ensures |high| <= |topics|
  {
    if topics == [] then []
    else
      var rest := HighTopics(topics[..|topics| - 1], analyze);
      if analyze(topics[|topics| - 1]).relevance == High then rest + [topics[|topics| - 1]] else rest
  }

  /** The topics handed to the scanner, in call order. */
  function Analyzed(calls: seq<Call>): seq<string>
  {
    if calls == [] then []
    else if calls[|calls| - 1].AnalyzeCall? then Analyzed(calls[..|calls| - 1]) + [calls[|calls| - 1].topic]
    else Analyzed(calls[..|calls| - 1])
  }

  /** The intents handed to the engine, in call order. */
  function Intents(calls: seq<Call>): seq<string>
  {
    if calls == [] then []
    else if calls[|calls| - 1].ProduceCall? then Intents(calls[..|calls| - 1]) + [calls[|calls| - 1].intent]
    else Intents(calls[..|calls| - 1])
  }

  /** The scanner sees every topic exactly once, in list order; the engine
      is called exactly once per highly relevant topic, with that topic's
      intent, and never for another; the results hold one entry per highly
      relevant topic, in topic order, `produced` with the engine output or
      `failed` with its error text. */
  lemma {:induction false} ScanShape<P>(topics: seq<string>, analyze: string -> TrendReport,
                                        produce: string -> Result<P, string>)
    ensures var (results, calls) := Scan(topics, analyze, produce);
            var high := HighTopics(topics, analyze);
            && Analyzed(calls) == topics
            && |Intents(calls)| == |high| == |results|
            && (forall j :: 0 <= j < |high| ==> Intents(calls)[j] == Intent(analyze(high[j])))
            && (forall j :: 0 <= j < |high| ==> results[j] == OutcomeFor(high[j], analyze, produce))
    decreases |topics|
  {
    if topics != [] {
      var init := topics[..|topics| - 1];
      var topic := topics[|topics| - 1];
      ScanShape(init, analyze, produce);
      var (_, calls) := Scan(init, analyze, produce);
      var a := calls + [AnalyzeCall(topic)];
      assert a[..|a| - 1] == calls;
      assert init + [topic] == topics;
      if analyze(topic).relevance == High {
        var b := calls + [AnalyzeCall(topic), ProduceCall(Intent(analyze(topic)))];
        assert b[..|b| - 1] == a;
      }
    }
  }

  /** A topic the scanner does not rate highly relevant adds nothing to the
      results and triggers no production. */
  lemma SkippedTopicChangesNothing<P>(topics: seq<string>, topic: string, analyze: string -> TrendReport,
                                      produce: string -> Result<P, string>)
    requires analyze(topic).relevance != High
    ensures Scan(topics + [topic], analyze, produce).0 == Scan(topics, analyze, produce).0
    ensures HighTopics(topics + [topic], analyze) == HighTopics(topics, analyze)
  {
    assert (topics + [topic])[..|topics|] == topics;
  }
}
