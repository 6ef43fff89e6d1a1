/** The Single-Master Protocol of app/agents/protocols/master_sync.py:
    decide who issued a command and extract a coarse action from its text. */
module MasterSync {
  import opened Common

  datatype MasterSource = Human | Community | System

  /** The string value of each source. */
  function SourceValue(s: MasterSource): string
  {
    match s
    case Human => "human"
    case Community => "community"
    case System => "system"
  }

  /** `MasterSource(value)`: None where the enum raises ValueError. */
  function ParseSource(value: string): (r: Option<MasterSource>)
    ensures r.Some? <==> value in {"human", "community", "system"}
    ensures r.Some? ==> SourceValue(r.value) == value
  {
    if value == "human" then Some(Human)
    else if value == "community" then Some(Community)
    else if value == "system" then Some(System)
    else None
  }

  datatype CommandIntent = CommandIntent(source: MasterSource, action: string,
                                         parameters: map<string, string>, priority: int)

  datatype ParseError = InvalidSource(value: string)

  /** `str(source_override)`: the text itself, or `None` when absent. */
  function StrOf(o: Option<string>): string
  {
    if o.Some? then o.value else "None"
  }

  /** The lower-cased command asks to create a post. */
  predicate AsksCreatePost(text: string)
  {
    Contains(Lower(text), "create") && Contains(Lower(text), "post")
  }

  /** `parse_command`. */
  method ParseCommand(commandText: string, sourceOverride: Option<string>)
    returns (r: Result<CommandIntent, ParseError>)
    ensures (sourceOverride.None? || sourceOverride.value == "") ==> r.Ok? && r.value.source == Human
    ensures r.Err? <==> sourceOverride.Some? && sourceOverride.value != ""
                        && ParseSource(sourceOverride.value).None?
    ensures r.Err? ==> r.error == InvalidSource(sourceOverride.value)
    ensures r.Ok? && sourceOverride.Some? && sourceOverride.value != "" ==>
              r.value.source == ParseSource(sourceOverride.value).value
    ensures r.Ok? ==> r.value.priority == 1
    ensures r.Ok? ==> (r.value.action == "create_post" <==> AsksCreatePost(commandText))
    ensures r.Ok? && AsksCreatePost(commandText) ==>
              r.value.parameters == if Contains(Lower(commandText), "fashion") then map["topic" := "fashion"] else map[]
    ensures r.Ok? ==> (r.value.action == "execute_vote" <==>
                         !AsksCreatePost(commandText)
                         && (Contains(Lower(commandText), "vote") || Contains(StrOf(sourceOverride), "community")))
    ensures r.Ok? && r.value.action == "execute_vote" ==>
              r.value.parameters == if Contains(Lower(commandText), "tokyo") then map["destination" := "Tokyo"] else map[]
    ensures r.Ok? ==> r.value.action in {"create_post", "execute_vote", "unknown"}
    ensures r.Ok? && r.value.action == "unknown" ==> r.value.parameters == map[]
  {
    var source := Human;
    if sourceOverride.Some? && sourceOverride.value != "" {
      var parsed := ParseSource(sourceOverride.value);
      if parsed.None? {
        return Err(InvalidSource(sourceOverride.value));
      }
      source := parsed.value;
    }

    var action := "unknown";
    var params: map<string, string> := map[];

    var lowerCmd := Lower(commandText);
    if Contains(lowerCmd, "create") && Contains(lowerCmd, "post") {
      action := "create_post";
      if Contains(lowerCmd, "fashion") {
        params := params["topic" := "fashion"];
      }
    } else if Contains(lowerCmd, "vote") || Contains(StrOf(sourceOverride), "community") {
      action := "execute_vote";
      if Contains(lowerCmd, "tokyo") {
        params := params["destination" := "Tokyo"];
      }
    }
    assert "create_post"[0] != "execute_vote"[0] && "create_post"[0] != "unknown"[0]
        && "execute_vote"[0] != "unknown"[0];
    r := Ok(CommandIntent(source, action, params, 1));
  }

  /** A needle longer than the text never occurs in it. */
  lemma NotContainedInShorter(haystack: string, needle: string)
    requires |haystack| < |needle|
    ensures !Contains(haystack, needle)
  {
  }

  /** The override can only select the vote action when it names the
      community source itself: `None`, `human` and `system` are all too
      short to contain `community`, and an invalid override fails first. */
  lemma {:induction false} CommunityOverrideMeansCommunitySource(sourceOverride: Option<string>)
    requires sourceOverride.None? || sourceOverride.value == "" || ParseSource(sourceOverride.value).Some?
    requires Contains(StrOf(sourceOverride), "community")
    ensures sourceOverride == Some("community")
  {
    if sourceOverride.None? {
      NotContainedInShorter("None", "community");
    } else if sourceOverride.value == "" {
      NotContainedInShorter("", "community");
    } else if sourceOverride.value == "human" {
      NotContainedInShorter("human", "community");
    } else if sourceOverride.value == "system" {
      NotContainedInShorter("system", "community");
    }
  }
}
