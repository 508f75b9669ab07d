/** The glue between the daemon's backend API and the CMU Sphinx engine
    (src/plugins/speech-to-text/sphinx/sphinx-plugin.c): the notification
    relay and the capability functions, over the abstract collaborator
    state of SphinxCollaborators. */
module SphinxBackend {
  import opened Wrappers
  import opened Recognizer
  import opened SphinxCollaborators

  /** The plugin record: the notification callback registered for it, if
      any (its opaque data is folded into the closure). */
  datatype Plugin = Plugin(callback: Option<Notify>)

  /** The part of the backend's options the glue reads. */
  datatype Options = Options(rate: u32)

  /** The backend context: plugin and options links (either may be NULL),
      the decoder set, the cork state of the input stream, and the filter
      and input buffers. */
  datatype Context = Context(plugin: Option<Plugin>, opts: Option<Options>,
                             decoders: DecoderSet, corked: bool,
                             filterBuf: seq<i16>, inputBuf: seq<i16>)

  /** What relaying one utterance did: the length handed back to the
      engine, and the utterances passed to the callback, in call order. */
  datatype Relay = Relay(length: i32, delivered: seq<Utterance>)

  /** True when there is a registered callback to relay to. */
  predicate HasCallback(ctx: Context)
  {
    ctx.plugin.Some? && ctx.plugin.value.callback.Some?
  }

  /** Relays a recognized utterance to the registered callback. Without a
      plugin or a callback the engine is told -1; otherwise the callback is
      called exactly once and its reply is returned unchanged. */
  function UtteranceHandler(ctx: Context, utt: Utterance): (r: Relay)
    ensures !HasCallback(ctx) <==> r.delivered == []
    ensures !HasCallback(ctx) ==> r.length == -1
    ensures HasCallback(ctx) ==>
              r.delivered == [utt] && r.length == ctx.plugin.value.callback.value(utt)
  {
    if ctx.plugin.None? || ctx.plugin.value.callback.None? then Relay(-1, [])
    else
      var notify := ctx.plugin.value.callback.value;
      Relay(notify(utt), [utt])
  }

  /** With nobody to notify, the relay returns -1, the FLUSH_ALL value, which
      decodes as a request to flush everything; with a callback, the relayed
      value decodes exactly as the callback's own reply. */
  lemma HandlerReply(ctx: Context, utt: Utterance)
    ensures !HasCallback(ctx) ==> DecodeReply(UtteranceHandler(ctx, utt).length) == FlushAll
    ensures HasCallback(ctx) ==>
              DecodeReply(UtteranceHandler(ctx, utt).length)
              == DecodeReply(ctx.plugin.value.callback.value(utt))
  {
  }

  /** Activation uncorks the input stream and always succeeds; nothing
      but the cork state changes. */
  function Activate(ctx: Context): (r: (Context, bool))
    ensures r.1 && !r.0.corked
    ensures r.0.(corked := ctx.corked) == ctx
  {
    (ctx.(corked := false), true)
  }

  /** Deactivation corks the input stream, purges the whole filter buffer
      (the -1 argument) and empties the input buffer. It reports nothing. */
  function Deactivate(ctx: Context): (c: Context)
    ensures c.corked && c.filterBuf == [] && c.inputBuf == []
    ensures c.decoders == ctx.decoders && c.plugin == ctx.plugin && c.opts == ctx.opts
  {
    ctx.(corked := true, filterBuf := [], inputBuf := [])
  }

  /** Only the cork state and the buffers are touched by (de)activation;
      reactivating after a deactivation runs on empty buffers, and
      activation is idempotent. */
  lemma ActivationCycle(ctx: Context)
    ensures Activate(Deactivate(ctx)).0 == ctx.(corked := false, filterBuf := [], inputBuf := [])
    ensures Activate(Activate(ctx).0) == Activate(ctx)
    ensures Deactivate(Deactivate(ctx)) == Deactivate(ctx)
    ensures Activate(ctx).0.decoders == Deactivate(ctx).decoders == ctx.decoders
  {
  }

  /** Flush and rescan requests are logged only: they succeed and change
      nothing. */
  function Flush(ctx: Context, start: u32, end: u32): (r: (Context, bool))
    ensures r == (ctx, true)
  {
    (ctx, true)
  }

  function Rescan(ctx: Context, start: u32, end: u32): (r: (Context, bool))
    ensures r == (ctx, true)
  {
    (ctx, true)
  }

  /** Sample duplication: nothing without a context or options; otherwise
      an S16LE mono copy at the configured rate of the filter buffer's
      samples for the range. */
  function Sampledup(ctx: Option<Context>, start: u32, end: u32, dup: FilterDup)
    : (r: Option<AudioBuf>)
    ensures r.None? <==> ctx.None? || ctx.value.opts.None?
    ensures r.Some? ==>
              && r.value.format == S16LE
              && r.value.channels == 1
              && r.value.rate == ctx.value.opts.value.rate
              && r.value.data == dup(ctx.value.filterBuf, start, end)
              && r.value.samples == |r.value.data|
  {
    if ctx.None? || ctx.value.opts.None? then None
    else
      var buf := dup(ctx.value.filterBuf, start, end);
      Some(AudioBuf(S16LE, ctx.value.opts.value.rate, 1, |buf|, buf))
  }

  /** After a deactivation the filter buffer is empty, so a sample copy
      holds no samples, while format, rate and channel count are kept. */
  lemma SampledupAfterDeactivate(ctx: Context, start: u32, end: u32, dup: FilterDup)
    requires DupWithinBuffer(dup)
    ensures var r := Sampledup(Some(Deactivate(ctx)), start, end, dup);
            && (r.Some? <==> ctx.opts.Some?)
            && (r.Some? ==> r.value.data == [] && r.value.samples == 0
                            && r.value.rate == ctx.opts.value.rate)
  {
    var empty: seq<i16> := [];
    assert |dup(empty, start, end)| <= |empty|;
  }

  /** Whether the decoder set knows the name. A query: it returns only a
      flag, so no state can change. */
  function CheckDecoder(ctx: Context, decoder: string): (available: bool)
    ensures available <==> decoder in ctx.decoders.names
  {
    decoder in ctx.decoders.names
  }

  /** Selection fails exactly when the decoder set's `use` reports a
      negative status; the context is whatever `use` leaves behind. */
  function SelectDecoder(ctx: Context, decoder: string): (r: (Context, bool))
    ensures !r.1 <==> DecoderSetUse(ctx.decoders, decoder).0 < 0
    ensures r.0 == ctx.(decoders := DecoderSetUse(ctx.decoders, decoder).1)
  {
    var (status, d) := DecoderSetUse(ctx.decoders, decoder);
    (ctx.(decoders := d), status >= 0)
  }

  /** The name of the decoder in use. */
  function ActiveDecoder(ctx: Context): (name: string)
    ensures name == ctx.decoders.current
  {
    ctx.decoders.current
  }

  /** Selecting succeeds exactly for a decoder the check accepts; on
      success it becomes the active decoder, on failure nothing changes. */
  lemma SelectAgreesWithCheck(ctx: Context, decoder: string)
    ensures SelectDecoder(ctx, decoder).1 <==> CheckDecoder(ctx, decoder)
    ensures CheckDecoder(ctx, decoder) ==>
              ActiveDecoder(SelectDecoder(ctx, decoder).0) == decoder
    ensures !CheckDecoder(ctx, decoder) ==>
              SelectDecoder(ctx, decoder).0 == ctx
              && ActiveDecoder(SelectDecoder(ctx, decoder).0) == ActiveDecoder(ctx)
  {
  }

  /** Selection changes only the decoder in use: the set of known decoders,
      the cork state and the buffers are as before, and selecting the same
      decoder twice is the same as once. */
  lemma SelectOnlyMovesCurrent(ctx: Context, decoder: string)
    ensures SelectDecoder(ctx, decoder).0.decoders.names == ctx.decoders.names
    ensures SelectDecoder(ctx, decoder).0.(decoders := ctx.decoders) == ctx
    ensures SelectDecoder(SelectDecoder(ctx, decoder).0, decoder) == SelectDecoder(ctx, decoder)
  {
  }
}
