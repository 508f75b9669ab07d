/** The fake/test speech backend (src/plugins/fake-speech-engine/fake.c):
    a timer-driven state machine that replays a fixed six-word script.
    The mainloop timer is not modelled as a clock; whether (re-)arming it
    succeeds is a parameter of each step, and the timer firing is an
    explicit `Fire` step. */
module FakeEngine {
  import opened Wrappers
  import opened Recognizer

  /** One script entry: a word (None for the NULL terminator) and the
      delay, in milliseconds, of the timer armed when it is pushed. */
  datatype Entry = Entry(text: Option<string>, delayMs: nat)

  /** The fixed script, NULL-terminated as in the C table. */
  const Script: seq<Entry> := [
    Entry(Some("hal"), 1000),
    Entry(Some("open"), 500),
    Entry(Some("the"), 300),
    Entry(Some("pod"), 200),
    Entry(Some("bay"), 500),
    Entry(Some("doors"), 1000),
    Entry(None, 0)
  ]

  /** The words the script is expected to deliver, in order. */
  const Words: seq<string> := ["hal", "open", "the", "pod", "bay", "doors"]

  /** A pending one-shot timer and the delay it was armed with. */
  datatype Timer = Timer(delayMs: nat)

  /** The backend's state: the activation flag, the index of the next
      script entry, and the pending timer if any. */
  datatype FakeState = FakeState(active: bool, tokidx: nat, timer: Option<Timer>)

  /** A freshly allocated (zeroed) backend. */
  const Init: FakeState := FakeState(false, 0, None)

  /** The token the fake hands to its callback: a header token plus the
      `flush` flag that the fake sets but the header's token lacks. */
  datatype FakeToken = FakeToken(tok: Token, flush: bool)

  /** One call of the callback as the fake makes it: a bare token array and
      its count, not an utterance. */
  datatype FakeNotify = FakeNotify(tokens: seq<FakeToken>, count: nat)

  /** The cursor points into the script, and an inactive backend has no
      pending timer. */
  predicate Valid(s: FakeState)
  {
    && s.tokidx < |Script|
    && (!s.active ==> s.timer.None?)
  }

  /** The notification pushed for the script entry at index `i`. */
  predicate IsScriptNotify(n: FakeNotify, i: nat)
  {
    && i < |Words|
    && n.count == 1
    && n.tokens == [FakeToken(Token(Words[i], 1, i, i + 1), false)]
  }

  /** The (re-)armed timer, or none when arming fails. */
  function Arm(ok: bool, delayMs: nat): (t: Option<Timer>)
    ensures t.Some? <==> ok
    ensures t.Some? ==> t.value.delayMs == delayMs
  {
    if ok then Some(Timer(delayMs)) else None
  }

  /** Activation. An active backend is left untouched and reports success.
      Otherwise the cursor restarts at the first entry and a timer is armed
      with that entry's delay; the backend becomes active exactly when the
      timer could be armed, and reports that outcome. */
  function Activate(s: FakeState, armOk: bool): (r: (FakeState, bool))
    ensures s.active ==> r == (s, true)
    ensures !s.active ==> r.1 == armOk
    ensures !s.active ==> r.0.tokidx == 0 && r.0.active == armOk
    ensures !s.active && armOk ==> r.0.timer == Some(Timer(Script[0].delayMs))
    ensures !s.active && !armOk ==> r.0.timer.None?
    ensures Valid(s) ==> Valid(r.0)
  {
    if s.active then (s, true)
    else
      var t := Arm(armOk, Script[0].delayMs);
      (FakeState(t.Some?, 0, t), t.Some?)
  }

  /** Deactivation: drops any pending timer and clears the flag; a no-op
      on an inactive backend. It reports nothing. */
  function Deactivate(s: FakeState): (s': FakeState)
    ensures !s'.active && s'.tokidx == s.tokidx
    ensures s.active ==> s'.timer.None?
    ensures !s.active ==> s' == s
    ensures Valid(s) ==> Valid(s')
  {
    if s.active then FakeState(false, s.tokidx, None) else s
  }

  /** The timer fires. The fired timer is consumed and the cursor advances.
      On the NULL terminator the cursor returns to 0 and nothing further
      happens. On a word, a new timer is armed with that entry's delay
      (its outcome is ignored) and one token is pushed: the word, score 1,
      span [i, i+1), flush flag off. */
  function Fire(s: FakeState, armOk: bool): (r: (FakeState, Option<FakeNotify>))
    requires Valid(s) && s.timer.Some?
    ensures Valid(r.0)
    ensures r.0.active == s.active
    ensures Script[s.tokidx].text.None? ==> r == (FakeState(s.active, 0, None), None)
    ensures Script[s.tokidx].text.Some? ==>
              && r.0.tokidx == s.tokidx + 1
              && r.0.timer == Arm(armOk, Script[s.tokidx].delayMs)
              && r.1.Some? && IsScriptNotify(r.1.value, s.tokidx)
  {
    var i := s.tokidx;
    var e := Script[i];
    match e.text
    case None => (FakeState(s.active, 0, None), None)
    case Some(w) =>
      var tok := Token(w, 1, i, i + 1);
      (FakeState(s.active, i + 1, Arm(armOk, e.delayMs)),
       Some(FakeNotify([FakeToken(tok, false)], 1)))
  }

  /** The script's words are the expected six, the terminator is last, and
      every word entry carries its word. */
  lemma ScriptShape()
    ensures |Script| == |Words| + 1
    ensures Script[|Words|].text.None?
    ensures forall i :: 0 <= i < |Words| ==> Script[i].text == Some(Words[i])
  {
  }

  /** Buffer flush: accepted and ignored. */
  function Flush(s: FakeState, start: u32, end: u32): (r: (FakeState, bool))
    ensures r == (s, true)
  {
    (s, true)
  }

  /** Buffer rescan: accepted and ignored. */
  function Rescan(s: FakeState, start: u32, end: u32): (r: (FakeState, bool))
    ensures r == (s, true)
  {
    (s, true)
  }

  /** Sample duplication: a two-word buffer holding the requested range. */
  function Sampledup(start: u32, end: u32): (buf: seq<u32>)
    ensures |buf| == 2 && buf[0] == start && buf[1] == end
  {
    [start, end]
  }

  /** Model and dictionary checks and selections all succeed and change
      nothing. */
  function CheckModel(s: FakeState, model: string): (r: (FakeState, bool))
    ensures r == (s, true)
  {
    (s, true)
  }

  function CheckDictionary(s: FakeState, dictionary: string): (r: (FakeState, bool))
    ensures r == (s, true)
  {
    (s, true)
  }

  function SetModel(s: FakeState, model: string): (r: (FakeState, bool))
    ensures r == (s, true)
  {
    (s, true)
  }

  function SetDictionary(s: FakeState, dictionary: string): (r: (FakeState, bool))
    ensures r == (s, true)
  {
    (s, true)
  }
}
