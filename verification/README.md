# Speech recognition backends: result model, fake backend, Sphinx glue

A Dafny model of the backend side of the Winthorpe speech recognition
daemon. It has three parts:

- **Data model and API shape** (`recognizer.dfy`, module `Recognizer`).
  This covers tokens, candidates and utterances, with their count fields.
  Offsets and lengths are `u32`, a subset type of `int` in [0, 2^32), so
  every token `start`/`end` and utterance `length` lies in that range by
  typing. A notification callback is an `Utterance -> i32`. Its reply is
  read by `DecodeReply`: the `FLUSH_ALL` sentinel (-1), a non-negative
  processed length, or some other negative code. The module also lists the
  operation tables of the header and of both backends.
- **Fake/test backend** (`fake.dfy` and `fake_trace.dfy`, modules
  `FakeEngine` and `FakeTrace`). This is a pure state machine over the
  `active` flag, the script cursor `tokidx` and an optional pending timer.
  It replays the NULL-terminated script `hal, open, the, pod, bay, doors`.
  `Activate`, `Deactivate` and the timer expiry `Fire` are step functions.
  Whether the mainloop accepts a timer is an explicit `armOk` parameter.
  `FakeTrace.Run` runs a sequence of events and collects what the fake
  pushes to its callback. A timer can only fire while one is pending.
- **Sphinx backend glue** (`sphinx.dfy` and `sphinx_collaborators.dfy`,
  modules `SphinxBackend` and `SphinxCollaborators`). This covers the
  utterance relay and the capability functions. The decoder set, the
  filter and input buffers, the cork state and the audio-buffer
  constructor are abstract state with assumed effects.

The model follows the code where the code and the header disagree:

- The fake calls its callback with a bare token array and a count
  (src/plugins/fake-speech-engine/fake.c:110). The header's callback type
  takes an utterance (src/daemon/recognizer.h:37). The model therefore
  gives the fake its own notification record, `FakeNotify`.
- The fake's token carries a `flush` flag (fake.c:108) that the header's
  token lacks. `FakeToken` wraps a header `Token` with that flag.
- The fake's table has model and dictionary entries instead of the decoder
  entries (fake.c:239-249). The Sphinx table adds `active_decoder`
  (src/plugins/speech-to-text/sphinx/sphinx-plugin.c:211). Neither matches
  the header's table (recognizer.h:45-60). `Recognizer.ApiSkew` states the
  differences.

Behaviour of the code that a caller might not expect:

- After the script ends, the fake stays active with no timer. A further
  activate is then a no-op that reports success. Emission only restarts
  after a deactivate.
- While pushing a word, the fake ignores the result of re-arming its timer
  (fake.c:102). If re-arming fails, the word is still delivered, but the
  backend is left active with no timer (`FakeTrace.FailedRearmStalls`).
- A failed fake activation still resets the cursor to 0 (fake.c:124).
- Neither backend's flush or rescan touches any buffer. Both only log and
  return TRUE.
- The fake's sample duplication returns the two-word buffer
  `[start, end]`. It never reports an invalid range.
- The code gives no meaning to negative notification replies other than
  -1. The model keeps such replies as `OtherNegative` and gives them none.

## Model

| member | source | states |
|---|---|---|
| Recognizer.MakeCandidate | src/daemon/recognizer.h:75-79 | a candidate's `ntoken` equals the length of its token sequence |
| Recognizer.MakeUtterance | src/daemon/recognizer.h:84-90 | an utterance's `ncand` equals the length of its candidate sequence, and every candidate in it is well formed |
| Recognizer.DecodeReply | src/daemon/recognizer.h:36-40 | a callback's int reply means "flush all" exactly when it is -1, and a processed length exactly when it is non-negative |
| Recognizer.EncodeReply | src/daemon/recognizer.h:36-40 | the sentinel is written as -1, a processed length as that same non-negative int, and any other negative code as itself |
| Recognizer.ReplyRoundTrip | src/daemon/recognizer.h:36-40 | reading an int reply and writing it back gives the same int |
| Recognizer.ReplyRoundTripBack | src/daemon/recognizer.h:36-40 | writing a reply and reading it back gives the same reply |
| Recognizer.FlushAllIsNotALength | src/daemon/recognizer.h:39-40 | the FLUSH_ALL sentinel is distinct from every non-negative processed length |
| Recognizer.HeaderReturnKinds | src/daemon/recognizer.h:45-60 | in the header's table only `deactivate` returns nothing, so it cannot report failure; activate, flush, rescan, check and select return an int status |
| Recognizer.ApiSkew | src/daemon/recognizer.h:45-60 | the fake's table lacks the decoder entries and adds model/dictionary ones; the Sphinx table is the header's plus `active_decoder` |
| FakeEngine.Arm | src/plugins/fake-speech-engine/fake.c:73-85 | arming yields a pending timer exactly when the mainloop accepts it, with the requested delay |
| FakeEngine.Activate | src/plugins/fake-speech-engine/fake.c:114-132 | on an active backend: success and no change at all; otherwise the cursor resets to 0 and a timer is armed with the first entry's delay; the backend becomes active, and the call succeeds, exactly when arming succeeds |
| FakeEngine.Deactivate | src/plugins/fake-speech-engine/fake.c:135-146 | on an active backend: clears the pending timer and the flag and keeps the cursor; on an inactive one: no change |
| FakeEngine.Fire | src/plugins/fake-speech-engine/fake.c:88-111 | on a word entry i: exactly one token (text script[i], score 1, start i, end i+1, flush off) with count 1, the cursor moves to i+1 and the timer is re-armed with that entry's delay; on the terminator: cursor 0, no timer, no notification |
| FakeEngine.ScriptShape | src/plugins/fake-speech-engine/fake.c:59-67 | the script is the six words hal, open, the, pod, bay, doors followed by the NULL terminator |
| FakeEngine.Flush | src/plugins/fake-speech-engine/fake.c:149-158 | flush returns TRUE and changes no state |
| FakeEngine.Rescan | src/plugins/fake-speech-engine/fake.c:161-170 | rescan returns TRUE and changes no state |
| FakeEngine.Sampledup | src/plugins/fake-speech-engine/fake.c:173-186 | the duplicate is the two-entry buffer [start, end] |
| FakeEngine.CheckModel | src/plugins/fake-speech-engine/fake.c:189-198 | the model check returns TRUE and changes no state |
| FakeEngine.CheckDictionary | src/plugins/fake-speech-engine/fake.c:201-210 | the dictionary check returns TRUE and changes no state |
| FakeEngine.SetModel | src/plugins/fake-speech-engine/fake.c:213-222 | setting a model returns TRUE and changes no state |
| FakeEngine.SetDictionary | src/plugins/fake-speech-engine/fake.c:225-234 | setting a dictionary returns TRUE and changes no state |
| FakeTrace.Step | src/plugins/fake-speech-engine/fake.c:88-146 | a timer expiry is possible exactly when a timer is pending; every step keeps the cursor in the script and leaves an inactive backend without a timer; only a timer expiry notifies |
| FakeTrace.DrainFrom | src/plugins/fake-speech-engine/fake.c:88-111 | from entry i of an active backend, letting the timer run delivers the words i..5 in order, then leaves the backend active with cursor 0 and no timer |
| FakeTrace.ActivationDeliversScript | src/plugins/fake-speech-engine/fake.c:59-132 | one activation plus repeated firing delivers exactly six notifications hal, open, the, pod, bay, doors, with start 0..5 strictly increasing and start < end; afterwards nothing can fire and activate is a no-op |
| FakeTrace.RestartAtHal | src/plugins/fake-speech-engine/fake.c:114-146 | from any state, deactivate then activate makes the next timer expiry deliver "hal" at [0, 1) |
| FakeTrace.EveryNotifyScripted | src/plugins/fake-speech-engine/fake.c:102-110 | in every possible trace, every notification is a single script word at its own index, spanning one unit, flush off |
| FakeTrace.StubsInvisible | src/plugins/fake-speech-engine/fake.c:149-234 | removing flush, rescan, sampledup and the model/dictionary calls from any trace changes neither the final state nor the notifications |
| FakeTrace.InactiveStaysSilent | src/plugins/fake-speech-engine/fake.c:114-146 | an inactive backend given no activation delivers nothing and stays inactive with no timer, whatever else happens |
| FakeTrace.NoNotifyAfterDeactivate | src/plugins/fake-speech-engine/fake.c:135-146 | after deactivation, no trace without a new activation delivers any notification |
| FakeTrace.FailedRearmStalls | src/plugins/fake-speech-engine/fake.c:97-119 | if re-arming fails while a word is pushed, the word is still delivered, but the backend stays active with no timer and activate is a no-op |
| SphinxCollaborators.DecoderSetUse | src/plugins/speech-to-text/sphinx/sphinx-plugin.c:179-180 | assumed effect of the decoder set's `use`: negative status and no change for an unknown name, otherwise the name becomes current |
| SphinxBackend.UtteranceHandler | src/plugins/speech-to-text/sphinx/sphinx-plugin.c:64-78 | -1 and no callback call when there is no plugin or no registered callback; otherwise exactly one call with the utterance, and its reply returned unchanged |
| SphinxBackend.HandlerReply | src/plugins/speech-to-text/sphinx/sphinx-plugin.c:64-78 | without a callback the relay returns -1, the `SRS_SREC_FLUSH_ALL` value, which `DecodeReply` reads as `FlushAll`; with one, the relayed value decodes exactly as the callback's reply |
| SphinxBackend.Activate | src/plugins/speech-to-text/sphinx/sphinx-plugin.c:80-91 | activation uncorks the input stream, always returns TRUE, and changes nothing else |
| SphinxBackend.Deactivate | src/plugins/speech-to-text/sphinx/sphinx-plugin.c:94-105 | deactivation corks the input stream, purges the whole filter buffer and empties the input buffer; decoders and links are kept |
| SphinxBackend.ActivationCycle | src/plugins/speech-to-text/sphinx/sphinx-plugin.c:80-105 | reactivation after deactivation runs uncorked on empty buffers; activation and deactivation are idempotent and keep the decoder set |
| SphinxBackend.Flush | src/plugins/speech-to-text/sphinx/sphinx-plugin.c:108-117 | flush returns TRUE and leaves the context unchanged |
| SphinxBackend.Rescan | src/plugins/speech-to-text/sphinx/sphinx-plugin.c:120-130 | rescan returns TRUE and leaves the context unchanged |
| SphinxBackend.Sampledup | src/plugins/speech-to-text/sphinx/sphinx-plugin.c:133-154 | NULL exactly when the context or its options are missing; otherwise an S16LE mono buffer at the configured rate holding the filter buffer's copy of the range, taken from the context's current filter buffer |
| SphinxBackend.SampledupAfterDeactivate | src/plugins/speech-to-text/sphinx/sphinx-plugin.c:94-154 | after deactivation has purged the filter buffer, a sample copy holds no samples, keeping the configured rate, provided the copy is never longer than the buffer |
| SphinxBackend.CheckDecoder | src/plugins/speech-to-text/sphinx/sphinx-plugin.c:157-170 | available exactly when the decoder set contains the name; the check returns only a flag |
| SphinxBackend.SelectDecoder | src/plugins/speech-to-text/sphinx/sphinx-plugin.c:173-183 | FALSE exactly when the decoder set's `use` fails; the context is the one `use` leaves |
| SphinxBackend.ActiveDecoder | src/plugins/speech-to-text/sphinx/sphinx-plugin.c:186-198 | reports the decoder set's current name |
| SphinxBackend.SelectAgreesWithCheck | src/plugins/speech-to-text/sphinx/sphinx-plugin.c:157-183 | under the assumed decoder-set contract, selection succeeds exactly for a decoder the check accepts; on success it becomes the active decoder, on failure the context and the active decoder are unchanged |
| SphinxBackend.SelectOnlyMovesCurrent | src/plugins/speech-to-text/sphinx/sphinx-plugin.c:173-183 | selection changes only the current decoder name, and selecting the same decoder twice equals selecting it once |

## Left out

- The daemon-side registry (`srs_register_srec`, `srs_unregister_srec`, `srs_activate_srec`, `srs_deactivate_srec`, `srs_check_decoder`, `srs_set_decoder`, recognizer.h:92-111). These are only declared, and their implementation is not part of this model. No single-active-backend or duplicate-name rule is modelled.
- Plugin lifecycle and memory: `create_*`, `config_*`, `start_*`, `stop_*`, `destroy_*`, `SRS_DECLARE_PLUGIN`, allocation and freeing, and `plugin_get_mainloop`. These are boilerplate.
- Configuration: `config_fake` only logs keys. `options.h` is used only for the `rate` field that sample duplication reads.
- Floating point. Script delays are fixed integer milliseconds (1000, 500, 300, 200, 500, 1000, and 0 for the terminator) instead of `(unsigned)(1000 * delay)` on doubles. Scores are integers.
- Logging and debug output.
- The mainloop clock. Timer expiry is an explicit event, and timer creation success is a parameter.
- The fake's `tokens` pointer is NULL until the first activation. No timer can fire before that, so the model uses the script constant directly.
- `notify_data` is folded into the callback closure, in both backends.
- SphinxCollaborators.DecoderSetUse: the decoder set's code is not part of this model. Its success condition (the name is in the set) and its effect (the name becomes current) are assumptions.
- SphinxBackend.Deactivate: `filter_buffer_purge(ctx, -1)` is modelled as purging the whole buffer. Purges of partial lengths are not modelled, because the filter buffer's code is not part of this model.
- SphinxBackend.Sampledup: `srs_create_audiobuf` is assumed to succeed. Its failure path is not modelled, because its code is not part of this model. The copied samples come from an abstract `FilterDup` parameter applied to the context's filter buffer; which samples it picks for a range is not modelled, because `filter_buffer_dup` is not part of this model.
- SphinxBackend.SampledupAfterDeactivate: relies on the assumption `DupWithinBuffer`, that `filter_buffer_dup` never returns more samples than the buffer holds.
- SphinxBackend.Activate and SphinxBackend.Deactivate: PulseAudio corking is reduced to a boolean `corked` flag.
