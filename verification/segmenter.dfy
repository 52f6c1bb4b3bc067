/**
 * The content segmenter of the completion stream: prose deltas are buffered and
 * rendered from Markdown to HTML in one piece at the next tool-like delta or at
 * the end of the stream; a tool-like delta is shown as a fixed HTML wrapper
 * around the text of its first content item, when it parses.
 *
 * The Markdown renderer and the JSON decoder are library code; they appear as
 * function-typed parameters about which nothing is assumed.
 */
module Segmenter {
  import opened Wrappers

  /** The accumulator's "just finished" signals for a streamed chunk. */
  datatype Marker = NoMarker | ToolCallFinished | ContentFinished | RefusalFinished

  /** One streamed chunk: its marker and the text of the first choice's delta ("" when there is none). */
  datatype Delta = Delta(marker: Marker, content: string)

  /** One item of the `Content` list of a tool result. */
  datatype ToolContent = ToolContent(kind: string, text: string)

  type Renderer = string -> string
  type ContentParser = string -> Option<seq<ToolContent>>

  predicate HasPrefix(s: string, prefix: string) {
    |prefix| <= |s| && s[..|prefix|] == prefix
  }

  predicate Contains(s: string, sub: string)
    decreases |s|
  {
    HasPrefix(s, sub) || (|s| > 0 && Contains(s[1..], sub))
  }

  /** A delta that takes part in the output: no finish marker and non-empty text. */
  predicate Relevant(d: Delta) {
    d.marker == NoMarker && d.content != ""
  }

  /** The heuristic that tells tool output apart from prose. */
  predicate ToolLike(text: string) {
    HasPrefix(text, "{") || HasPrefix(text, "undefined: {") || Contains(text, "map[command:")
  }

  predicate IsToolDelta(d: Delta) {
    Relevant(d) && ToolLike(d.content)
  }

  /** `strings.Join(parts, "")`. */
  function Join(parts: seq<string>): string {
    if parts == [] then "" else Join(parts[..|parts| - 1]) + parts[|parts| - 1]
  }

  const ToolWrapperOpen: string :=
    "<details class=\"chat\"><summary class=\"chat\">tool call</summary><div class=\"chat\">"
    + "<textarea class=\"chat\" id=\"toolCall\" rows=\"12\" cols=\"128\">"
  const ToolWrapperClose: string := "</textarea></div></details>"

  function ToolWrapper(text: string): string {
    ToolWrapperOpen + text + ToolWrapperClose
  }

  /** The chunk for pending prose: one rendering of the joined buffer, or nothing when it is empty. */
  function Flush(buffer: seq<string>, render: Renderer): seq<string> {
    if |buffer| > 0 then [render(Join(buffer))] else []
  }

  /** The chunk for a tool-like delta: the wrapper when it parses with a non-empty `Content`, else nothing. */
  function ToolChunk(text: string, parse: ContentParser): seq<string> {
    match parse(text)
    case Some(items) => if |items| > 0 then [ToolWrapper(items[0].text)] else []
    case None => []
  }

  /** The segmenter's variables: chunks sent so far, the prose buffer and the complete response. */
  datatype SegState = SegState(chunks: seq<string>, buffer: seq<string>, complete: seq<string>)

  const Start: SegState := SegState([], [], [])

  /** One pass of the loop over the stream. */
  function Feed(st: SegState, d: Delta, render: Renderer, parse: ContentParser): SegState {
    if !Relevant(d) then st
    else if ToolLike(d.content) then
      SegState(st.chunks + Flush(st.buffer, render) + ToolChunk(d.content, parse), [], st.complete + [d.content])
    else
      SegState(st.chunks, st.buffer + [d.content], st.complete + [d.content])
  }

  /** The loop over a whole stream, from a given state. */
  function Run(st: SegState, ds: seq<Delta>, render: Renderer, parse: ContentParser): SegState
    decreases |ds|
  {
    if ds == [] then st else Run(Feed(st, ds[0], render, parse), ds[1..], render, parse)
  }

  /** What the segmenter has sent once the remaining prose is flushed at the end of the stream. */
  function Output(st: SegState, render: Renderer): seq<string> {
    st.chunks + Flush(st.buffer, render)
  }

  // ---------------------------------------------------------------------------
  // An independent description of the output: maximal runs of deltas between
  // tool-like deltas are rendered once each; every tool-like delta gives its
  // own chunk; the complete response is the text of every relevant delta.

  /** The texts of the relevant deltas, in arrival order. */
  function Kept(ds: seq<Delta>): seq<string> {
    if ds == [] then [] else (if Relevant(ds[0]) then [ds[0].content] else []) + Kept(ds[1..])
  }

  /** The number of deltas before the first tool-like one. */
  function ProseRun(ds: seq<Delta>): (n: nat)
    ensures n <= |ds|
    ensures forall i :: 0 <= i < n ==> !IsToolDelta(ds[i])
    ensures n < |ds| ==> IsToolDelta(ds[n])
  {
    if ds == [] || IsToolDelta(ds[0]) then 0 else 1 + ProseRun(ds[1..])
  }

  /** The chunks of a stream, run by run. */
  function Grouped(ds: seq<Delta>, render: Renderer, parse: ContentParser): seq<string>
    decreases |ds|
  {
    if ds == [] then []
    else
      var n := ProseRun(ds);
      if n == 0 then ToolChunk(ds[0].content, parse) + Grouped(ds[1..], render, parse)
      else Flush(Kept(ds[..n]), render) + Grouped(ds[n..], render, parse)
  }

  // ---------------------------------------------------------------------------
  // The loop matches the description.

  /** Running over a longer stream extends the run by one pass (the loop's step). */
  lemma {:induction false} RunSnoc(st: SegState, ds: seq<Delta>, d: Delta, render: Renderer, parse: ContentParser)
    ensures Run(st, ds + [d], render, parse) == Feed(Run(st, ds, render, parse), d, render, parse)
    decreases |ds|
  {
    if ds == [] {
      assert [d][1..] == [];
    } else {
      assert (ds + [d])[1..] == ds[1..] + [d];
      RunSnoc(Feed(st, ds[0], render, parse), ds[1..], d, render, parse);
    }
  }

  /** The complete response collects the text of exactly the relevant deltas. */
  lemma {:induction false} RunComplete(st: SegState, ds: seq<Delta>, render: Renderer, parse: ContentParser)
    ensures Run(st, ds, render, parse).complete == st.complete + Kept(ds)
    decreases |ds|
  {
    if ds != [] {
      RunComplete(Feed(st, ds[0], render, parse), ds[1..], render, parse);
    }
  }

  /** Before the first tool-like delta nothing is sent; the prose is only buffered. */
  lemma {:induction false} RunProse(st: SegState, ds: seq<Delta>, render: Renderer, parse: ContentParser)
    ensures var n := ProseRun(ds);
      Run(st, ds[..n], render, parse).chunks == st.chunks
      && Run(st, ds[..n], render, parse).buffer == st.buffer + Kept(ds[..n])
    decreases |ds|
  {
    var n := ProseRun(ds);
    if n > 0 {
      assert ds[..n][0] == ds[0];
      assert ds[..n][1..] == ds[1..][..n - 1];
      RunProse(Feed(st, ds[0], render, parse), ds[1..], render, parse);
    }
  }

  /** Running over a concatenation is running over each part in turn. */
  lemma {:induction false} RunAppend(st: SegState, xs: seq<Delta>, ys: seq<Delta>, render: Renderer, parse: ContentParser)
    ensures Run(st, xs + ys, render, parse) == Run(Run(st, xs, render, parse), ys, render, parse)
    decreases |xs|
  {
    if xs == [] {
      assert xs + ys == ys;
    } else {
      assert (xs + ys)[0] == xs[0];
      assert (xs + ys)[1..] == xs[1..] + ys;
      RunAppend(Feed(st, xs[0], render, parse), xs[1..], ys, render, parse);
    }
  }

  /**
   * From an empty buffer, the chunks sent are exactly the run-by-run description:
   * each maximal prose run is rendered once, in order, and each tool-like delta
   * gives its own chunk.
   */
  lemma {:induction false} RunGrouped(st: SegState, ds: seq<Delta>, render: Renderer, parse: ContentParser)
    requires st.buffer == []
    ensures Output(Run(st, ds, render, parse), render) == st.chunks + Grouped(ds, render, parse)
    decreases |ds|, 1
  {
    if ds == [] {
    } else if ProseRun(ds) == 0 {
      RunGroupedTool(st, ds, render, parse);
    } else {
      RunGroupedProse(st, ds, render, parse);
    }
  }

  /** The case of a stream that starts with a tool-like delta. */
  lemma {:induction false} RunGroupedTool(st: SegState, ds: seq<Delta>, render: Renderer, parse: ContentParser)
    requires st.buffer == [] && ds != [] && ProseRun(ds) == 0
    ensures Output(Run(st, ds, render, parse), render) == st.chunks + Grouped(ds, render, parse)
    decreases |ds|, 0
  {
    var tool := ToolChunk(ds[0].content, parse);
    var next := Feed(st, ds[0], render, parse);
    assert next.chunks == st.chunks + tool && next.buffer == [] by {
      assert IsToolDelta(ds[0]);
      assert Flush(st.buffer, render) == [];
    }
    var rest := Grouped(ds[1..], render, parse);
    assert Output(Run(st, ds, render, parse), render) == next.chunks + rest by {
      assert Run(st, ds, render, parse) == Run(next, ds[1..], render, parse);
      RunGrouped(next, ds[1..], render, parse);
    }
    assert Grouped(ds, render, parse) == tool + rest;
    assert (st.chunks + tool) + rest == st.chunks + (tool + rest);
  }

  /** The case of a stream that starts with a run of prose. */
  lemma {:induction false} RunGroupedProse(st: SegState, ds: seq<Delta>, render: Renderer, parse: ContentParser)
    requires st.buffer == [] && ds != [] && ProseRun(ds) > 0
    ensures Output(Run(st, ds, render, parse), render) == st.chunks + Grouped(ds, render, parse)
    decreases |ds|, 0
  {
    var n := ProseRun(ds);
    var prose := Kept(ds[..n]);
    var mid := SegState(st.chunks, prose, Run(st, ds[..n], render, parse).complete);
    assert Run(st, ds, render, parse) == Run(mid, ds[n..], render, parse) by {
      assert ds == ds[..n] + ds[n..];
      RunAppend(st, ds[..n], ds[n..], render, parse);
      RunProse(st, ds, render, parse);
      assert st.buffer + prose == prose;
      assert Run(st, ds[..n], render, parse) == mid;
    }
    var flushed := Flush(prose, render);
    assert Grouped(ds, render, parse) == flushed + Grouped(ds[n..], render, parse);
    if n == |ds| {
      assert ds[n..] == [];
      assert Output(Run(mid, ds[n..], render, parse), render) == st.chunks + flushed;
    } else {
      var rest := ds[n..];
      var tool := ToolChunk(rest[0].content, parse);
      var next := Feed(mid, rest[0], render, parse);
      assert next.chunks == st.chunks + flushed + tool && next.buffer == [] by {
        assert rest[0] == ds[n] && IsToolDelta(rest[0]);
      }
      var after := Grouped(rest[1..], render, parse);
      assert Output(Run(mid, rest, render, parse), render) == next.chunks + after by {
        assert Run(mid, rest, render, parse) == Run(next, rest[1..], render, parse);
        RunGrouped(next, rest[1..], render, parse);
      }
      assert Grouped(rest, render, parse) == tool + after by {
        assert rest[0] == ds[n] && IsToolDelta(rest[0]);
        assert ProseRun(rest) == 0;
      }
      assert st.chunks + flushed + tool + after == st.chunks + (flushed + (tool + after));
    }
  }

  /** The buffer only ever holds non-empty prose: tool-like deltas never enter it. */
  ghost predicate ProseBuffer(st: SegState) {
    forall i :: 0 <= i < |st.buffer| ==> st.buffer[i] != "" && !ToolLike(st.buffer[i])
  }

  lemma {:induction false} RunKeepsProseBuffer(st: SegState, ds: seq<Delta>, render: Renderer, parse: ContentParser)
    requires ProseBuffer(st)
    ensures ProseBuffer(Run(st, ds, render, parse))
    decreases |ds|
  {
    if ds != [] {
      RunKeepsProseBuffer(Feed(st, ds[0], render, parse), ds[1..], render, parse);
    }
  }

  /**
   * A tool-like delta ends the prose before it: the pending prose is rendered
   * once, then the tool chunk (if any) follows, and the stream goes on from an
   * empty buffer.
   */
  lemma {:induction false} ToolDeltaAfterProse(ps: seq<Delta>, t: Delta, ys: seq<Delta>, render: Renderer, parse: ContentParser)
    requires forall i :: 0 <= i < |ps| ==> !IsToolDelta(ps[i])
    requires IsToolDelta(t)
    ensures Grouped(ps + [t] + ys, render, parse)
         == Flush(Kept(ps), render) + ToolChunk(t.content, parse) + Grouped(ys, render, parse)
  {
    var ds := ps + [t] + ys;
    var n := ProseRun(ds);
    assert ds[|ps|] == t;
    assert n == |ps| by {
      if n > |ps| {
        assert false;
      } else if n < |ps| {
        assert false;
      }
    }
    var tail := [t] + ys;
    assert ds[n..] == tail;
    assert Grouped(tail, render, parse) == ToolChunk(t.content, parse) + Grouped(ys, render, parse) by {
      assert ProseRun(tail) == 0;
      assert tail[0] == t && tail[1..] == ys;
    }
    if n == 0 {
      assert ps == [] && ds == tail;
    } else {
      assert ds[..n] == ps;
    }
  }

  /** Deltas with no text or with a finish marker are invisible: they change neither the chunks nor the complete response. */
  lemma {:induction false} IgnoredDeltaInvisible(xs: seq<Delta>, d: Delta, ys: seq<Delta>, render: Renderer, parse: ContentParser)
    requires !Relevant(d)
    ensures Grouped(xs + [d] + ys, render, parse) == Grouped(xs + ys, render, parse)
    ensures Kept(xs + [d] + ys) == Kept(xs + ys)
  {
    var withD := xs + [d] + ys;
    var before := Run(Start, xs, render, parse);
    var after := Run(before, ys, render, parse);
    assert Run(Start, withD, render, parse) == after by {
      RunAppend(Start, xs + [d], ys, render, parse);
      RunSnoc(Start, xs, d, render, parse);
      assert Feed(before, d, render, parse) == before;
    }
    assert Run(Start, xs + ys, render, parse) == after by {
      RunAppend(Start, xs, ys, render, parse);
    }
    assert Start.chunks == [] && Start.complete == [];
    assert Grouped(withD, render, parse) == Output(after, render) by {
      RunGrouped(Start, withD, render, parse);
    }
    assert Grouped(xs + ys, render, parse) == Output(after, render) by {
      RunGrouped(Start, xs + ys, render, parse);
    }
    assert Kept(withD) == after.complete by {
      RunComplete(Start, withD, render, parse);
    }
    assert Kept(xs + ys) == after.complete by {
      RunComplete(Start, xs + ys, render, parse);
    }
  }

  /** A stream without tool-like deltas yields at most one chunk: the rendering of all its text at once. */
  lemma {:induction false} ProseStreamOneChunk(ds: seq<Delta>, render: Renderer, parse: ContentParser)
    requires forall i :: 0 <= i < |ds| ==> !IsToolDelta(ds[i])
    ensures Grouped(ds, render, parse) == Flush(Kept(ds), render)
  {
    if ds != [] {
      var n := ProseRun(ds);
      assert n == |ds|;
      assert ds[..n] == ds;
      assert ds[n..] == [];
      assert Grouped(ds, render, parse) == Flush(Kept(ds[..n]), render) + Grouped(ds[n..], render, parse);
    }
  }

  /** A pattern longer than the text does not occur in it. */
  lemma {:induction false} NotContainsLonger(s: string, sub: string)
    requires |sub| > |s|
    ensures !Contains(s, sub)
    decreases |s|
  {
    if |s| > 0 {
      NotContainsLonger(s[1..], sub);
    }
  }

  /** The two prose deltas "Hello " and "world" are rendered together, as "Hello world". */
  lemma HelloWorld(hello: string, world: string, render: Renderer, parse: ContentParser)
    requires hello == "Hello " && world == "world"
    ensures Grouped([Delta(NoMarker, hello), Delta(NoMarker, world)], render, parse) == [render(hello + world)]
  {
    var a, b := Delta(NoMarker, hello), Delta(NoMarker, world);
    var ds := [a, b];
    assert !IsToolDelta(a) by {
      NotContainsLonger(hello, "map[command:");
      assert hello[..1][0] == 'H';
    }
    assert !IsToolDelta(b) by {
      NotContainsLonger(world, "map[command:");
      assert world[..1][0] == 'w';
    }
    ProseStreamOneChunk(ds, render, parse);
    assert Kept(ds) == [hello, world] by {
      assert ds[1..] == [b];
      assert Kept([b]) == [world];
    }
    assert Join([hello, world]) == hello + world by {
      assert [hello, world][..1] == [hello];
      assert Join([hello]) == hello;
    }
  }

  /** A text occurs inside anything built around it. */
  lemma {:induction false} ContainsInside(before: string, sub: string, after: string)
    ensures Contains(before + sub + after, sub)
    decreases |before|
  {
    if before == [] {
      assert before + sub + after == sub + after;
      assert (sub + after)[..|sub|] == sub;
    } else {
      assert (before + sub + after)[1..] == before[1..] + sub + after;
      ContainsInside(before[1..], sub, after);
    }
  }

  /**
   * A delta starting with `{` whose `Content` parses to a non-empty list gives
   * exactly one chunk, the wrapper, which shows the first item's text; no prose
   * chunk comes from it.
   */
  lemma ToolPayloadShown(text: string, items: seq<ToolContent>, render: Renderer, parse: ContentParser)
    requires HasPrefix(text, "{") && parse(text) == Some(items) && |items| > 0
    ensures Grouped([Delta(NoMarker, text)], render, parse) == [ToolWrapper(items[0].text)]
    ensures Contains(ToolWrapper(items[0].text), items[0].text)
  {
    var ds := [Delta(NoMarker, text)];
    assert ProseRun(ds) == 0;
    assert ds[1..] == [];
    ContainsInside(ToolWrapperOpen, items[0].text, ToolWrapperClose);
  }

  /**
   * The segmenter loop. It keeps every relevant delta's text in `complete`;
   * prose is buffered and flushed as one rendered chunk before each tool-like
   * delta and at the end.
   */
  method Segment(deltas: seq<Delta>, render: Renderer, parse: ContentParser)
    returns (chunks: seq<string>, complete: seq<string>)
    ensures chunks == Grouped(deltas, render, parse)
    ensures complete == Kept(deltas)
  {
    var buffer: seq<string> := [];
    chunks, complete := [], [];
    var i := 0;
    while i < |deltas|
      invariant 0 <= i <= |deltas|
      invariant SegState(chunks, buffer, complete) == Run(Start, deltas[..i], render, parse)
    {
      var d := deltas[i];
      RunSnoc(Start, deltas[..i], d, render, parse);
      assert deltas[..i + 1] == deltas[..i] + [d];
      i := i + 1;
      if d.marker == NoMarker && d.content != "" {
        complete := complete + [d.content];
        if ToolLike(d.content) {
          if |buffer| > 0 {
            chunks := chunks + [render(Join(buffer))];
            buffer := [];
          }
          var parsed := parse(d.content);
          if parsed.Some? && |parsed.value| > 0 {
            chunks := chunks + [ToolWrapper(parsed.value[0].text)];
          }
        } else {
          buffer := buffer + [d.content];
        }
      }
    }
    assert deltas[..i] == deltas;
    ghost var last := Run(Start, deltas, render, parse);
    if |buffer| > 0 {
      chunks := chunks + [render(Join(buffer))];
    }
    assert chunks == Output(last, render);
    RunGrouped(Start, deltas, render, parse);
    assert Start.chunks + Grouped(deltas, render, parse) == Grouped(deltas, render, parse);
    RunComplete(Start, deltas, render, parse);
  }
}
