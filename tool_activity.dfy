/**
  The first pass of `send_prompt` in deployment/st_app.py:235-279: it counts
  the tool invocations in the buffered events and picks the label of the
  status box from that count.
 */
module ToolActivity {
  import opened Basics
  import opened Events

  /** Label when no tool was called. */
  const DirectLabel := "✅ Answered directly without tools"
  const UsedPrefix := "✅ Used "
  const DetailsSuffix := " — expand to see details"

  /** The tool invocation a part requests, if it has a `function_call` key. */
  function PartCall(p: Part): seq<FunctionCall> {
    if p.functionCall.Some? then [p.functionCall.value] else []
  }

  /** The invocations of one event: any mapping event with content and parts, whatever its role. */
  function EventCalls(e: Event): seq<FunctionCall> {
    FlatMap(AllParts(e), PartCall)
  }

  /** Every tool invocation of the stream, in order. */
  function ToolCalls(events: seq<Event>): seq<FunctionCall> {
    FlatMap(events, EventCalls)
  }

  /** The counting loop. */
  method CountToolCalls(events: seq<Event>) returns (toolCount: nat)
    ensures toolCount == |ToolCalls(events)|
  {
    toolCount := 0;
    var i := 0;
    while i < |events|
      invariant 0 <= i <= |events|
      invariant toolCount == |ToolCalls(events[..i])|
    {
      var e := events[i];
      var n := 0;
      if e.MapEvent? && e.content.Some? && e.content.value.parts.Some? {
        var parts := e.content.value.parts.value;
        var j := 0;
        while j < |parts|
          invariant 0 <= j <= |parts|
          invariant n == |FlatMap(parts[..j], PartCall)|
        {
          if parts[j].functionCall.Some? {
            n := n + 1;
          }
          FlatMapSnoc(parts, j, PartCall);
          j := j + 1;
        }
        assert parts[..|parts|] == parts;
      }
      toolCount := toolCount + n;
      FlatMapSnoc(events, i, EventCalls);
      i := i + 1;
    }
    assert events[..|events|] == events;
  }

  /** Tool calls are counted whatever the role of the event that carries them. */
  lemma CountIgnoresRole(events: seq<Event>, i: nat, role: Option<string>)
    requires i < |events| && events[i].MapEvent? && events[i].content.Some?
    ensures var e := events[i];
            var relabelled := e.(content := Some(e.content.value.(role := role)));
            ToolCalls(events[i := relabelled]) == ToolCalls(events)
  {
    var e := events[i];
    var relabelled := e.(content := Some(e.content.value.(role := role)));
    assert EventCalls(relabelled) == EventCalls(e);
    assert events == events[..i] + [e] + events[i + 1..];
    assert events[i := relabelled] == events[..i] + [relabelled] + events[i + 1..];
    FlatMapAppend(events[..i], [e], EventCalls);
    FlatMapAppend(events[..i] + [e], events[i + 1..], EventCalls);
    FlatMapAppend(events[..i], [relabelled], EventCalls);
    FlatMapAppend(events[..i] + [relabelled], events[i + 1..], EventCalls);
    FlatMapSingleton(e, EventCalls);
    FlatMapSingleton(relabelled, EventCalls);
  }

  /** "tool" for one, "tools" otherwise. */
  function ToolNoun(toolCount: nat): (noun: string)
    ensures noun == "tools" <==> toolCount != 1
    ensures noun == "tool" <==> toolCount == 1
  {
    if toolCount != 1 then "tools" else "tool"
  }

  /** The character after "tool" in the label is the plural "s" exactly when the count is not one. */
  lemma PluralMark(toolCount: nat)
    ensures (" " + ToolNoun(toolCount) + DetailsSuffix)[5] == 's' <==> toolCount != 1
  {
  }

  /** The label of the status box once the events are scanned. */
  function StatusLabel(toolCount: nat): (status: string)
    ensures toolCount == 0 <==> status == DirectLabel
    ensures toolCount > 0 ==>
              var k := |UsedPrefix| + |Decimal(toolCount)|;
              |status| == k + 5 + (if toolCount != 1 then 1 else 0) + |DetailsSuffix|
              && status[..|UsedPrefix|] == UsedPrefix
              && status[|UsedPrefix|..k] == Decimal(toolCount)
              && status[k..k + 5] == " tool"
              && (status[k + 5] == 's' <==> toolCount != 1)
              && status[|status| - |DetailsSuffix|..] == DetailsSuffix
  {
    if toolCount > 0 then
      UsedLabelParts(toolCount);
      assert UsedLabel(toolCount)[2] == 'U' && DirectLabel[2] == 'A';
      UsedLabel(toolCount)
    else DirectLabel
  }

  /** The label after at least one tool call. */
  function UsedLabel(toolCount: nat): string {
    UsedPrefix + Decimal(toolCount) + " " + ToolNoun(toolCount) + DetailsSuffix
  }

  /** Where the pieces of the label sit. */
  lemma UsedLabelParts(toolCount: nat)
    ensures var status := UsedLabel(toolCount);
            var k := |UsedPrefix| + |Decimal(toolCount)|;
            |status| == k + 5 + (if toolCount != 1 then 1 else 0) + |DetailsSuffix|
            && status[..|UsedPrefix|] == UsedPrefix
            && status[|UsedPrefix|..k] == Decimal(toolCount)
            && status[k..k + 5] == " tool"
            && (status[k + 5] == 's' <==> toolCount != 1)
            && status[|status| - |DetailsSuffix|..] == DetailsSuffix
  {
    var d := Decimal(toolCount);
    var tail := " " + ToolNoun(toolCount) + DetailsSuffix;
    var status := UsedPrefix + d + tail;
    var k := |UsedPrefix| + |d|;
    assert UsedLabel(toolCount) == status;
    assert status[..|UsedPrefix|] == UsedPrefix;
    assert status[|UsedPrefix|..k] == d;
    assert status[k..] == tail;
    assert tail[..5] == " tool";
    assert status[k..k + 5] == tail[..5];
    assert status[k + 5] == tail[5];
    PluralMark(toolCount);
    assert status[|status| - |DetailsSuffix|..] == tail[|tail| - |DetailsSuffix|..];
  }

  /** The count shown in the label reads back as the number of tool calls. */
  lemma LabelShowsCount(events: seq<Event>)
    requires ToolCalls(events) != []
    ensures var n := |ToolCalls(events)|;
            StatusLabel(n)[..|UsedPrefix|] == UsedPrefix
            && DigitsValue(StatusLabel(n)[|UsedPrefix|..|UsedPrefix| + |Decimal(n)|]) == n
  {
    var n := |ToolCalls(events)|;
    var status := StatusLabel(n);
    assert status[|UsedPrefix|..|UsedPrefix| + |Decimal(n)|] == Decimal(n);
    DecimalRoundTrip(n);
  }
}
