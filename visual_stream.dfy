/** The stream-window summary of app/agents/handlers/visual_stream.py. */
module VisualStream {
  import opened Common

  const NoInput: string := "No visual input."
  const ActivityPrefix: string := "Recent activity: "

  /** `summarize_stream_window` */
  function SummarizeStreamWindow(frameDescriptions: seq<string>): (summary: string)
    ensures summary == NoInput <==> frameDescriptions == []
    ensures |frameDescriptions| == 1 ==> summary == ActivityPrefix + frameDescriptions[0]
  {
    if frameDescriptions == [] then NoInput
    else
      var summary := ActivityPrefix + Join(" | ", frameDescriptions);
      assert summary[0] != NoInput[0];
      summary
  }

  /** An empty window reads `No visual input.`; any other window reads
      `Recent activity: ` followed by the descriptions joined with ` | `. */
  lemma {:induction false} SummaryShape(frameDescriptions: seq<string>)
    ensures frameDescriptions == [] <==> SummarizeStreamWindow(frameDescriptions) == NoInput
    ensures frameDescriptions != [] ==>
              var s := SummarizeStreamWindow(frameDescriptions);
              StartsWith(s, ActivityPrefix) && s[|ActivityPrefix|..] == Join(" | ", frameDescriptions)
  {
    if frameDescriptions != [] {
      var s := SummarizeStreamWindow(frameDescriptions);
      assert s[..|ActivityPrefix|] == ActivityPrefix;
      assert s[..|NoInput|] != NoInput by {
        assert s[0] == 'R' && NoInput[0] == 'N';
      }
    }
  }

  /** Every description appears in the summary. */
  lemma {:induction false} SummaryMentionsEach(frameDescriptions: seq<string>, k: int)
    requires 0 <= k < |frameDescriptions|
    ensures Contains(SummarizeStreamWindow(frameDescriptions), frameDescriptions[k])
  {
    JoinContainsEach(" | ", frameDescriptions, k);
    ContainsInside(ActivityPrefix, Join(" | ", frameDescriptions), "", frameDescriptions[k]);
    assert ActivityPrefix + Join(" | ", frameDescriptions) + "" == SummarizeStreamWindow(frameDescriptions);
  }

  /** Adding a frame extends the summary by the separator and that frame. */
  lemma {:induction false} SummaryExtends(frameDescriptions: seq<string>, frame: string)
    requires frameDescriptions != []
    ensures SummarizeStreamWindow(frameDescriptions + [frame])
            == SummarizeStreamWindow(frameDescriptions) + " | " + frame
  {
    JoinSnoc(" | ", frameDescriptions, frame);
  }
}
