/**
  The chat UI's reduction of the buffered agent events into the answer it
  shows and the citations it stores. Both Streamlit front ends carry the
  same loop (deployment/st_app.py:282-311, deployment/streamlit_app.py:202-234):
  the last text part of a model-role event wins, and citations are gathered,
  in order and without de-duplication, from the contexts of the
  `function_response` parts of user-role events.
 */
module EventReducer {
  import opened Basics
  import opened Events

  /** The `source_uri` a citation gets when its context has none. */
  const DefaultSource := "RAG Corpus"

  /** Citation texts are cut to this many characters. */
  const CitationTextLimit := 200

  // ---------------------------------------------------------------------
  // Specification: what the reduction computes
  // ---------------------------------------------------------------------

  function PartText(p: Part): seq<string> {
    if p.text.Some? then [p.text.value] else []
  }

  /** The texts an event contributes to the answer, in part order. */
  function EventTexts(e: Event): seq<string> {
    FlatMap(PartsWithRole(e, "model"), PartText)
  }

  /** Every model text of the stream, in order: each one overwrites the previous one. */
  function ModelTexts(events: seq<Event>): seq<string> {
    FlatMap(events, EventTexts)
  }

  /** The last element, or `d` for an empty sequence. */
  function LastOr(xs: seq<string>, d: string): string {
    if xs == [] then d else xs[|xs| - 1]
  }

  /**
    The answer shown: the last model text, unless that is empty or there is
    none, in which case the query result's `response` (`fallback`), or
    "No response received" when that key is missing.
   */
  function Answer(events: seq<Event>, fallback: Option<string>): (answer: string)
    ensures answer == "" ==> fallback == Some("")
    ensures events == [] ==> answer == fallback.GetOr(NoResponse)
  {
    var last := LastOr(ModelTexts(events), "");
    if last != "" then last else fallback.GetOr(NoResponse)
  }

  /** A context yields a citation only if it is a mapping with a `text` key. */
  function ContextCitation(c: ContextValue): seq<Citation> {
    if c.ContextMap? && c.text.Some?
    then [Citation(Take(c.text.value, CitationTextLimit), c.sourceUri.GetOr(DefaultSource), c.distance.GetOr(Text("")))]
    else []
  }

  /** The contexts of a part's function response, when that response is a mapping. */
  function ResponseContexts(p: Part): seq<ContextValue> {
    if p.functionResponse.Some? && p.functionResponse.value.response.Some?
       && p.functionResponse.value.response.value.PayloadMap?
    then p.functionResponse.value.response.value.contexts.GetOr([])
    else []
  }

  function PartCitations(p: Part): seq<Citation> {
    FlatMap(ResponseContexts(p), ContextCitation)
  }

  function EventCitations(e: Event): seq<Citation> {
    FlatMap(PartsWithRole(e, "user"), PartCitations)
  }

  /** All citations of the stream, in event, part and context order. */
  function CitationsOf(events: seq<Event>): seq<Citation> {
    FlatMap(events, EventCitations)
  }

  // ---------------------------------------------------------------------
  // The loop itself
  // ---------------------------------------------------------------------

  /**
    One pass over the events that overwrites the answer and appends
    citations, then falls back when no text was found.
   */
  method ExtractAnswer(events: seq<Event>, fallback: Option<string>) returns (answer: string, citations: seq<Citation>)
    ensures answer == Answer(events, fallback)
    ensures citations == CitationsOf(events)
  {
    answer := "";
    citations := [];
    var i := 0;
    while i < |events|
      invariant 0 <= i <= |events|
      invariant answer == LastOr(ModelTexts(events[..i]), "")
      invariant citations == CitationsOf(events[..i])
    {
      var e := events[i];
      if e.MapEvent? && e.content.Some? {
        var content := e.content.value;
        if content.role == Some("model") && content.parts.Some? {
          answer := ScanModelParts(content.parts.value, answer, ModelTexts(events[..i]));
        }
        if content.role == Some("user") && content.parts.Some? {
          citations := ScanUserParts(content.parts.value, citations);
        }
      }
      FlatMapSnoc(events, i, EventTexts);
      FlatMapSnoc(events, i, EventCitations);
      i := i + 1;
    }
    assert events[..|events|] == events;
    if answer == "" {
      answer := fallback.GetOr(NoResponse);
    }
  }

  /** The inner loop over a model event's parts: each text overwrites the answer. */
  method ScanModelParts(parts: seq<Part>, answer0: string, ghost seen: seq<string>) returns (answer: string)
    requires answer0 == LastOr(seen, "")
    ensures answer == LastOr(seen + FlatMap(parts, PartText), "")
  {
    answer := answer0;
    var j := 0;
    while j < |parts|
      invariant 0 <= j <= |parts|
      invariant answer == LastOr(seen + FlatMap(parts[..j], PartText), "")
    {
      if parts[j].text.Some? {
        answer := parts[j].text.value;
      }
      FlatMapSnoc(parts, j, PartText);
      assert seen + FlatMap(parts[..j + 1], PartText) == seen + FlatMap(parts[..j], PartText) + PartText(parts[j]);
      j := j + 1;
    }
    assert parts[..|parts|] == parts;
  }

  /** The inner loop over a user event's parts: function responses contribute their contexts. */
  method ScanUserParts(parts: seq<Part>, citations0: seq<Citation>) returns (citations: seq<Citation>)
    ensures citations == citations0 + FlatMap(parts, PartCitations)
  {
    citations := citations0;
    var j := 0;
    while j < |parts|
      invariant 0 <= j <= |parts|
      invariant citations == citations0 + FlatMap(parts[..j], PartCitations)
    {
      var part := parts[j];
      if part.functionResponse.Some? {
        var fr := part.functionResponse.value;
        if fr.response.Some? && fr.response.value.PayloadMap? {
          citations := ScanContexts(fr.response.value.contexts.GetOr([]), citations);
        }
      }
      FlatMapSnoc(parts, j, PartCitations);
      j := j + 1;
    }
    assert parts[..|parts|] == parts;
  }

  /** The innermost loop: each mapping context with a text becomes one citation. */
  method ScanContexts(contexts: seq<ContextValue>, citations0: seq<Citation>) returns (citations: seq<Citation>)
    ensures citations == citations0 + FlatMap(contexts, ContextCitation)
  {
    citations := citations0;
    var k := 0;
    while k < |contexts|
      invariant 0 <= k <= |contexts|
      invariant citations == citations0 + FlatMap(contexts[..k], ContextCitation)
    {
      var ctx := contexts[k];
      if ctx.ContextMap? && ctx.text.Some? {
        citations := citations + [Citation(Take(ctx.text.value, CitationTextLimit),
                                           ctx.sourceUri.GetOr(DefaultSource),
                                           ctx.distance.GetOr(Text("")))];
      }
      FlatMapSnoc(contexts, k, ContextCitation);
      k := k + 1;
    }
    assert contexts[..|contexts|] == contexts;
  }

  // ---------------------------------------------------------------------
  // Properties
  // ---------------------------------------------------------------------

  /** Last write wins: once a later stretch of the stream has a non-empty final text, nothing earlier matters. */
  lemma LaterTextWins(earlier: seq<Event>, later: seq<Event>, fallback: Option<string>)
    requires LastOr(ModelTexts(later), "") != ""
    ensures Answer(earlier + later, fallback) == LastOr(ModelTexts(later), "")
  {
    FlatMapAppend(earlier, later, EventTexts);
  }

  /** An empty final text discards every earlier text: the answer falls back although text was seen. */
  lemma EmptyLastTextFallsBack(earlier: seq<Event>, last: Event, fallback: Option<string>)
    requires EventTexts(last) != [] && EventTexts(last)[|EventTexts(last)| - 1] == ""
    ensures Answer(earlier + [last], fallback) == fallback.GetOr(NoResponse)
  {
    FlatMapAppend(earlier, [last], EventTexts);
    assert FlatMap([last], EventTexts) == EventTexts(last) by {
      assert [last][..0] == [];
    }
  }

  /** A model event carrying one text part. */
  function ModelTextEvent(t: string): Event {
    MapEvent(Some(Content(Some("model"), Some([Part(Some(t), None, None)]))), None)
  }

  /** Two model texts "A" then "B" give "B", not "AB". */
  lemma TwoModelTextsKeepLast(fallback: Option<string>)
    ensures Answer([ModelTextEvent("A"), ModelTextEvent("B")], fallback) == "B"
  {
    var parts := [Part(Some("B"), None, None)];
    assert parts[..0] == [];
    assert EventTexts(ModelTextEvent("B")) == ["B"];
    LaterTextWins([ModelTextEvent("A")], [ModelTextEvent("B")], fallback);
  }

  /** Citations of a longer stream extend those of its prefix: order kept, nothing merged. */
  lemma {:induction false} CitationsAppend(earlier: seq<Event>, later: seq<Event>)
    ensures CitationsOf(earlier + later) == CitationsOf(earlier) + CitationsOf(later)
  {
    FlatMapAppend(earlier, later, EventCitations);
  }

  /** Every citation's text is within the limit. */
  lemma CitationTextBounded(events: seq<Event>)
    ensures forall c :: c in CitationsOf(events) ==> |c.text| <= CitationTextLimit
  {
    forall c | c in CitationsOf(events) ensures |c.text| <= CitationTextLimit {
      FlatMapMember(events, EventCitations, c);
      var e :| e in events && c in EventCitations(e);
      FlatMapMember(PartsWithRole(e, "user"), PartCitations, c);
      var p :| p in PartsWithRole(e, "user") && c in PartCitations(p);
      FlatMapMember(ResponseContexts(p), ContextCitation, c);
    }
  }

  /** Without a user-role event that has parts, there are no citations. */
  lemma NoUserPartsNoCitations(events: seq<Event>)
    requires forall e :: e in events ==> PartsWithRole(e, "user") == []
    ensures CitationsOf(events) == []
  {
    FlatMapNone(events, EventCitations);
  }

  /** Events that are not mappings, or mappings without `content`, change neither result. */
  lemma IgnoredEventChangesNothing(before: seq<Event>, e: Event, after: seq<Event>, fallback: Option<string>)
    requires !(e.MapEvent? && e.content.Some?)
    ensures Answer(before + [e] + after, fallback) == Answer(before + after, fallback)
    ensures CitationsOf(before + [e] + after) == CitationsOf(before + after)
  {
    FlatMapSkip(before, e, after, EventTexts);
    FlatMapSkip(before, e, after, EventCitations);
  }

  /** A tool-result event with one context mapping. */
  function OneContextEvent(text: string): Event {
    var ctx := ContextMap(Some(text), None, None);
    var fr := FunctionResponse(Some("rag_retrieval"), Some(PayloadMap(Some([ctx]))));
    MapEvent(Some(Content(Some("user"), Some([Part(None, None, Some(fr))]))), None)
  }

  /** Two tool results with the same passage give two citations, both defaulting the source. */
  lemma DuplicateContextsKept(text: string)
    ensures CitationsOf([OneContextEvent(text), OneContextEvent(text)])
         == [Citation(Take(text, CitationTextLimit), DefaultSource, Text("")),
             Citation(Take(text, CitationTextLimit), DefaultSource, Text(""))]
  {
    var e := OneContextEvent(text);
    var c := Citation(Take(text, CitationTextLimit), DefaultSource, Text(""));
    var ctx := ContextMap(Some(text), None, None);
    var p := PartsWithRole(e, "user")[0];
    assert PartsWithRole(e, "user") == [p];
    assert ResponseContexts(p) == [ctx];
    FlatMapSingleton(ctx, ContextCitation);
    FlatMapSingleton(p, PartCitations);
    FlatMapSingleton(e, EventCitations);
    CitationsAppend([e], [e]);
    assert [e] + [e] == [e, e];
  }
}
