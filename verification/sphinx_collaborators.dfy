/** The collaborators the Sphinx backend glue calls but whose code is not
    part of this model: the decoder set, the filter and input buffers, the
    PulseAudio input stream and the audio-buffer constructor. Each is
    reduced to abstract state and given the effect the glue relies on;
    these effects are assumptions of the model, not derived from code. */
module SphinxCollaborators {
  import opened Recognizer

  /** C `int16_t`: one S16LE audio sample. */
  type i16 = x: int | -0x8000 <= x < 0x8000

  /** The decoder set: the names it knows and the one in use. */
  datatype DecoderSet = DecoderSet(names: set<string>, current: string)

  /** Assumed effect of `decoder_set_use`: a negative status and no change
      for an unknown name; otherwise status 0 and the name becomes current. */
  function DecoderSetUse(d: DecoderSet, name: string): (r: (int, DecoderSet))
    ensures r.0 < 0 <==> name !in d.names
    ensures r.0 < 0 ==> r.1 == d
    ensures r.0 >= 0 ==> r.1 == d.(current := name)
  {
    if name in d.names then (0, d.(current := name)) else (-1, d)
  }

  /** Audio sample formats the glue names. */
  datatype AudioFormat = S16LE

  /** An owned audio copy as `srs_create_audiobuf` builds it. */
  datatype AudioBuf = AudioBuf(format: AudioFormat, rate: u32, channels: nat,
                               samples: nat, data: seq<i16>)

  /** The filter buffer's copy of a range of its samples. How it picks the
      samples is the collaborator's business, so the model takes it as a
      parameter applied to the buffer's current contents. */
  type FilterDup = (seq<i16>, u32, u32) -> seq<i16>

  /** Assumed of the copy: it never holds more samples than the buffer. */
  ghost predicate DupWithinBuffer(dup: FilterDup)
  {
    forall buf, start, end :: |dup(buf, start, end)| <= |buf|
  }
}
