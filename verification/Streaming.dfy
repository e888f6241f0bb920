/** One generation seen two ways: buffered by generate(), and as the chunks of generate_stream() that the
    SSE generator forwards and attests. */
module Streaming {
  import opened Wrappers

  // One cumulative output of the engine core.
  datatype Output = Output(text: string, promptTokens: nat, completionTokens: nat, cached: Option<int>, byLength: bool)

  // The outputs that arrived while the engine was RUNNING, and whether the generator then ended normally;
  // it does not when the engine is paused, stalls or dies.
  datatype Trace = Trace(outputs: seq<Output>, ended: bool)

  datatype Usage = Usage(promptTokens: nat, completionTokens: nat, cachedTokens: nat)

  datatype Result = Failed | Generated(text: string, finish: string, usage: Usage)

  // Set on the last chunk only.
  datatype Final = Final(finish: string, usage: Usage)

  datatype Chunk = Chunk(delta: string, final: Option<Final>)

  /** _extract_cached_tokens: cache hits are capped by the prompt if and only if the prompt has tokens or
      nothing was reported, because the cap is guarded by `if prompt_tokens`; otherwise what was reported is
      kept, but for a negative number. */
  function CachedTokens(o: Output): (n: nat)
    ensures n <= o.promptTokens <==> o.promptTokens > 0 || o.cached.None? || o.cached.value <= 0
    ensures o.cached.Some? && 0 <= o.cached.value && (o.cached.value <= o.promptTokens || o.promptTokens == 0)
            ==> n == o.cached.value
    ensures o.cached.Some? && o.cached.value > o.promptTokens > 0 ==> n == o.promptTokens
    ensures o.cached.None? || o.cached.value < 0 ==> n == 0
  {
    if o.cached.None? || o.cached.value < 0 then 0
    else if o.promptTokens > 0 && o.cached.value > o.promptTokens then o.promptTokens
    else o.cached.value
  }

  function UsageOf(o: Output): Usage {
    Usage(o.promptTokens, o.completionTokens, CachedTokens(o))
  }

  function FinishOf(o: Output): string {
    if o.byLength then "length" else "stop"
  }

  // generate().
  function Buffered(t: Trace): Result {
    if !t.ended || t.outputs == [] then Failed
    else
      var last := t.outputs[|t.outputs| - 1];
      Generated(last.text, FinishOf(last), UsageOf(last))
  }

  /** So a request with no prompt tokens can report, and attest, more hits than its prompt has tokens. */
  lemma MoreHitsThanPrompt(text: string, n: nat, byLength: bool)
    ensures var last := Output(text, 0, n, Some(5), byLength);
            Buffered(Trace([last], true)) == Generated(text, FinishOf(last), Usage(0, n, 5))
  {
  }

  // current_text[len(prev_text):]
  function Delta(prev: string, text: string): string {
    if |prev| <= |text| then text[|prev|..] else ""
  }

  function LastText(os: seq<Output>): string {
    if os == [] then "" else os[|os| - 1].text
  }

  // `if delta: yield StreamChunk(text_delta=delta)`
  function AddDelta(a: seq<Chunk>, delta: string): seq<Chunk> {
    if delta == "" then a else a + [Chunk(delta, None)]
  }

  // The chunks yielded while outputs arrive.
  function DeltaChunks(os: seq<Output>): seq<Chunk> {
    if os == [] then []
    else
      var init := os[..|os| - 1];
      AddDelta(DeltaChunks(init), Delta(LastText(init), LastText(os)))
  }

  // generate_stream(): all chunks, if the consumer takes them all.
  function Streamed(t: Trace): seq<Chunk> {
    if !t.ended || t.outputs == [] then DeltaChunks(t.outputs)
    else
      var last := t.outputs[|t.outputs| - 1];
      DeltaChunks(t.outputs) + [Chunk("", Some(Final(FinishOf(last), UsageOf(last))))]
  }

  method GenerateStream(t: Trace) returns (chunks: seq<Chunk>)
    ensures chunks == Streamed(t)
  {
    chunks := [];
    var prev := "";
    var final: Option<Output> := None;
    for i := 0 to |t.outputs|
      invariant chunks == DeltaChunks(t.outputs[..i])
      invariant prev == LastText(t.outputs[..i])
      invariant final == if i == 0 then None else Some(t.outputs[i - 1])
    {
      assert t.outputs[..i + 1][..i] == t.outputs[..i];
      final := Some(t.outputs[i]);
      var text := t.outputs[i].text;
      var delta := Delta(prev, text);
      if delta != "" {
        chunks := chunks + [Chunk(delta, None)];
      }
      prev := text;
    }
    assert t.outputs[..|t.outputs|] == t.outputs;
    if t.ended && final.Some? {
      chunks := chunks + [Chunk("", Some(Final(FinishOf(final.value), UsageOf(final.value))))];
    }
  }

  // What the SSE generator sends.
  datatype Frame =
    | Content(delta: string)
    | Finish(final: Final)
    | OmReceipt(text: string, usage: Usage)   // a receipt over the text's hash and the usage
    | ErrorFrame
    | DoneFrame

  function FrameOf(c: Chunk): Frame {
    if c.final.Some? then Finish(c.final.value) else Content(c.delta)
  }

  function Frames(chunks: seq<Chunk>): seq<Frame> {
    if chunks == [] then [] else Frames(chunks[..|chunks| - 1]) + [FrameOf(chunks[|chunks| - 1])]
  }

  // The text of the chunks that carry content.
  function Delivered(chunks: seq<Chunk>): string {
    if chunks == [] then ""
    else
      var last := chunks[|chunks| - 1];
      Delivered(chunks[..|chunks| - 1]) + if last.final.None? then last.delta else ""
  }

  function FinalUsage(chunks: seq<Chunk>): Option<Usage> {
    if chunks == [] then None
    else
      var last := chunks[|chunks| - 1];
      if last.final.Some? then Some(last.final.value.usage) else FinalUsage(chunks[..|chunks| - 1])
  }

  // After the chunks: an error, or the receipt if it was asked for and there is a usage.
  function SseTail(chunks: seq<Chunk>, ended: bool, wantReceipt: bool): seq<Frame> {
    if !ended then [ErrorFrame]
    else if wantReceipt && FinalUsage(chunks).Some? then [OmReceipt(Delivered(chunks), FinalUsage(chunks).value)]
    else []
  }

  function SseFrames(chunks: seq<Chunk>, ended: bool, wantReceipt: bool): seq<Frame> {
    Frames(chunks) + SseTail(chunks, ended, wantReceipt) + [DoneFrame]
  }

  /** sse_generator: forwards every chunk, collects the delivered text, and attests it once the stream has
      completed with a usage. */
  method SseGenerator(chunks: seq<Chunk>, ended: bool, wantReceipt: bool) returns (frames: seq<Frame>)
    ensures frames == SseFrames(chunks, ended, wantReceipt)
  {
    frames := [];
    var genParts: seq<string> := [];
    var finalUsage: Option<Usage> := None;
    for i := 0 to |chunks|
      invariant frames == Frames(chunks[..i])
      invariant Join(genParts) == Delivered(chunks[..i])
      invariant finalUsage == FinalUsage(chunks[..i])
    {
      assert chunks[..i + 1][..i] == chunks[..i];
      var c := chunks[i];
      if c.final.Some? {
        finalUsage := Some(c.final.value.usage);
      } else if c.delta != "" {
        assert (genParts + [c.delta])[..|genParts|] == genParts;
        genParts := genParts + [c.delta];
      }
      frames := frames + [FrameOf(c)];
    }
    assert chunks[..|chunks|] == chunks;
    if !ended {
      frames := frames + [ErrorFrame];
    } else if wantReceipt && finalUsage.Some? {
      frames := frames + [OmReceipt(Join(genParts), finalUsage.value)];
    }
    frames := frames + [DoneFrame];
  }

  function Join(parts: seq<string>): string {
    if parts == [] then "" else Join(parts[..|parts| - 1]) + parts[|parts| - 1]
  }

  // Cumulative outputs: each one extends the one before.
  predicate PrefixExtending(os: seq<Output>) {
    forall i :: 0 < i < |os| ==> os[i - 1].text <= os[i].text
  }

  lemma OneMore(a: seq<Chunk>, c: Chunk)
    ensures Delivered(a + [c]) == Delivered(a) + if c.final.None? then c.delta else ""
    ensures FinalUsage(a + [c]) == if c.final.Some? then Some(c.final.value.usage) else FinalUsage(a)
    ensures Frames(a + [c]) == Frames(a) + [FrameOf(c)]
  {
    assert (a + [c])[..|a|] == a;
  }

  lemma DeltaExtends(prev: string, text: string)
    requires prev <= text
    ensures prev + Delta(prev, text) == text
  {
  }

  // Chunks with content, and no final one.
  predicate ContentOnly(chunks: seq<Chunk>) {
    forall i :: 0 <= i < |chunks| ==> chunks[i].delta != "" && chunks[i].final.None?
  }

  lemma AddDeltaDelivers(a: seq<Chunk>, delta: string)
    ensures Delivered(AddDelta(a, delta)) == Delivered(a) + delta
    ensures FinalUsage(AddDelta(a, delta)) == FinalUsage(a)
    ensures ContentOnly(a) ==> ContentOnly(AddDelta(a, delta))
  {
    if delta != "" {
      OneMore(a, Chunk(delta, None));
    }
  }

  lemma {:induction false} DeltasAddUp(os: seq<Output>)
    requires PrefixExtending(os)
    ensures Delivered(DeltaChunks(os)) == LastText(os)
    ensures FinalUsage(DeltaChunks(os)) == None && ContentOnly(DeltaChunks(os))
  {
    if os != [] {
      var init := os[..|os| - 1];
      DeltasAddUp(init);
      AddDeltaDelivers(DeltaChunks(init), Delta(LastText(init), LastText(os)));
      if init != [] {
        DeltaExtends(init[|init| - 1].text, os[|os| - 1].text);
      }
    }
  }

  /** Streaming equals buffering.  For cumulative outputs: the deltas add up to the text generated so far
      (also when the stream breaks off), no empty delta precedes the final chunk, and the stream yields a
      usage to attest exactly when generate() succeeds, with the same text, finish reason and usage. */
  lemma StreamingEqualsBuffering(t: Trace)
    requires PrefixExtending(t.outputs)
    ensures var chunks := Streamed(t);
            && Delivered(chunks) == LastText(t.outputs)
            && (forall i :: 0 <= i < |chunks| && chunks[i].final.None? ==> chunks[i].delta != "")
            && (forall i :: 0 <= i < |chunks| && chunks[i].final.Some? ==> i == |chunks| - 1)
            && match Buffered(t)
               case Failed => FinalUsage(chunks).None?
               case Generated(text, finish, usage) =>
                 && chunks != [] && chunks[|chunks| - 1] == Chunk("", Some(Final(finish, usage)))
                 && FinalUsage(chunks) == Some(usage) && Delivered(chunks) == text
  {
    DeltasAddUp(t.outputs);
    if t.ended && t.outputs != [] {
      var last := t.outputs[|t.outputs| - 1];
      OneMore(DeltaChunks(t.outputs), Chunk("", Some(Final(FinishOf(last), UsageOf(last)))));
    }
  }

  // The text and usage of the receipt event in a stream, if there is one.
  function Attested(frames: seq<Frame>): Option<(string, Usage)> {
    if frames == [] then None
    else
      var last := frames[|frames| - 1];
      if last.OmReceipt? then Some((last.text, last.usage)) else Attested(frames[..|frames| - 1])
  }

  lemma {:induction false} ChunksAttestNothing(chunks: seq<Chunk>)
    ensures Attested(Frames(chunks)) == None
  {
    if chunks != [] {
      ChunksAttestNothing(chunks[..|chunks| - 1]);
      var a := Frames(chunks[..|chunks| - 1]);
      assert Frames(chunks)[..|a|] == a;
    }
  }

  /** Both paths sign the same text and usage: the receipt event of the stream is over exactly what the
      non-streaming response is signed over, and there is one exactly when it was asked for and that response
      succeeds. */
  lemma ReceiptsAgree(t: Trace, wantReceipt: bool)
    requires PrefixExtending(t.outputs)
    ensures Attested(SseFrames(Streamed(t), t.ended, wantReceipt))
            == match Buffered(t)
               case Failed => None
               case Generated(text, _, usage) => if wantReceipt then Some((text, usage)) else None
  {
    StreamingEqualsBuffering(t);
    var chunks := Streamed(t);
    ChunksAttestNothing(chunks);
    var frames := SseFrames(chunks, t.ended, wantReceipt);
    var tail := SseTail(chunks, t.ended, wantReceipt);
    assert frames[..|frames| - 1] == Frames(chunks) + tail;
    if tail == [] {
      assert Frames(chunks) + tail == Frames(chunks);
    } else {
      assert (Frames(chunks) + tail)[..|Frames(chunks)|] == Frames(chunks);
    }
  }

  // The text of the content events in a stream, in order, and its finish events.
  function Contents(frames: seq<Frame>): string {
    if frames == [] then ""
    else Contents(frames[..|frames| - 1]) + if frames[|frames| - 1].Content? then frames[|frames| - 1].delta else ""
  }

  function Finishes(frames: seq<Frame>): seq<Final> {
    if frames == [] then []
    else Finishes(frames[..|frames| - 1]) + if frames[|frames| - 1].Finish? then [frames[|frames| - 1].final] else []
  }

  lemma OneMoreFrame(a: seq<Frame>, f: Frame)
    ensures Contents(a + [f]) == Contents(a) + if f.Content? then f.delta else ""
    ensures Finishes(a + [f]) == Finishes(a) + if f.Finish? then [f.final] else []
  {
    assert (a + [f])[..|a|] == a;
  }

  lemma {:induction false} FramesCarryTheText(chunks: seq<Chunk>)
    ensures Contents(Frames(chunks)) == Delivered(chunks)
    ensures ContentOnly(chunks) ==> Finishes(Frames(chunks)) == []
    ensures forall f :: f in Frames(chunks) ==> f.Content? || f.Finish?
  {
    if chunks != [] {
      var init := chunks[..|chunks| - 1];
      FramesCarryTheText(init);
      OneMoreFrame(Frames(init), FrameOf(chunks[|chunks| - 1]));
    }
  }

  lemma TailCarriesNothing(chunks: seq<Chunk>, ended: bool, wantReceipt: bool)
    ensures var frames := SseFrames(chunks, ended, wantReceipt);
            && Contents(frames) == Contents(Frames(chunks)) && Finishes(frames) == Finishes(Frames(chunks))
            && frames[|frames| - 1] == DoneFrame
            && (ErrorFrame in frames <==> ErrorFrame in Frames(chunks) || !ended)
  {
    var tail := SseTail(chunks, ended, wantReceipt);
    if tail != [] {
      OneMoreFrame(Frames(chunks), tail[0]);
      assert tail == [tail[0]];
    } else {
      assert Frames(chunks) + tail == Frames(chunks);
    }
    OneMoreFrame(Frames(chunks) + tail, DoneFrame);
  }

  // The finish event of a completed generation: "length" only if the core stopped at the limit, and the
  // counts of its last output.
  predicate FinishSays(f: Final, last: Output) {
    && f.finish == (if last.byLength then "length" else "stop")
    && f.usage.promptTokens == last.promptTokens && f.usage.completionTokens == last.completionTokens
    && f.usage.cachedTokens == CachedTokens(last)
  }

  lemma FinalFrame(t: Trace)
    requires PrefixExtending(t.outputs)
    ensures var finishes := Finishes(Frames(Streamed(t)));
            if t.ended && t.outputs != []
            then |finishes| == 1 && FinishSays(finishes[0], t.outputs[|t.outputs| - 1])
            else finishes == []
  {
    DeltasAddUp(t.outputs);
    FramesCarryTheText(DeltaChunks(t.outputs));
    if t.ended && t.outputs != [] {
      var last := t.outputs[|t.outputs| - 1];
      var final := Chunk("", Some(Final(FinishOf(last), UsageOf(last))));
      OneMore(DeltaChunks(t.outputs), final);
      OneMoreFrame(Frames(DeltaChunks(t.outputs)), FrameOf(final));
    }
  }

  /** What the client reads off the events of a stream of cumulative outputs: the contents concatenate to the
      text generated so far, also when the stream breaks off; there is one finish event exactly when the
      generation completed, with the reason and the counts of the last output; and there is an error exactly
      when it broke off. */
  lemma ClientReadsTheText(t: Trace, wantReceipt: bool)
    requires PrefixExtending(t.outputs)
    ensures var frames := SseFrames(Streamed(t), t.ended, wantReceipt);
            && Contents(frames) == LastText(t.outputs)
            && (if t.ended && t.outputs != []
                then |Finishes(frames)| == 1 && FinishSays(Finishes(frames)[0], t.outputs[|t.outputs| - 1])
                else Finishes(frames) == [])
            && (ErrorFrame in frames <==> !t.ended)
            && frames[|frames| - 1] == DoneFrame
  {
    StreamingEqualsBuffering(t);
    FramesCarryTheText(Streamed(t));
    FinalFrame(t);
    TailCarriesNothing(Streamed(t), t.ended, wantReceipt);
  }
}
