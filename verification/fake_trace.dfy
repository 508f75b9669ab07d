/** Event traces over the fake backend: each call the daemon can make and
    each timer expiry is an event, and a trace is run from a state,
    collecting the notifications the fake pushes to its callback. */
module FakeTrace {
  import opened Wrappers
  import Recognizer
  import opened FakeEngine

  /** Everything that can happen to the fake backend. `armOk` says whether
      the mainloop accepted the timer the step tries to arm. */
  datatype Event =
    | EvActivate(armOk: bool)
    | EvDeactivate
    | EvFire(armOk: bool)
    | EvFlush(start: Recognizer.u32, end: Recognizer.u32)
    | EvRescan(start: Recognizer.u32, end: Recognizer.u32)
    | EvSampledup(start: Recognizer.u32, end: Recognizer.u32)
    | EvCheckModel(model: string)
    | EvCheckDictionary(dictionary: string)
    | EvSetModel(model: string)
    | EvSetDictionary(dictionary: string)

  /** Events that are neither activation, deactivation nor a timer expiry. */
  predicate IsStub(e: Event)
  {
    !(e.EvActivate? || e.EvDeactivate? || e.EvFire?)
  }

  /** One event. A timer can only fire when one is pending: a firing with
      no pending timer is not a possible event and yields None. */
  function Step(s: FakeState, e: Event): (r: Option<(FakeState, seq<FakeNotify>)>)
    requires Valid(s)
    ensures r.None? <==> e.EvFire? && s.timer.None?
    ensures r.Some? ==> Valid(r.value.0)
    ensures r.Some? && !e.EvFire? ==> r.value.1 == []
    ensures IsStub(e) ==> r == Some((s, []))
  {
    match e
    case EvActivate(ok) => Some((Activate(s, ok).0, []))
    case EvDeactivate => Some((Deactivate(s), []))
    case EvFire(ok) =>
      if s.timer.None? then None
      else
        var (s', n) := Fire(s, ok);
        Some((s', if n.Some? then [n.value] else []))
    case EvFlush(a, b) => Some((Flush(s, a, b).0, []))
    case EvRescan(a, b) => Some((Rescan(s, a, b).0, []))
    case EvSampledup(a, b) => Some((s, []))
    case EvCheckModel(m) => Some((CheckModel(s, m).0, []))
    case EvCheckDictionary(d) => Some((CheckDictionary(s, d).0, []))
    case EvSetModel(m) => Some((SetModel(s, m).0, []))
    case EvSetDictionary(d) => Some((SetDictionary(s, d).0, []))
  }

  /** Puts the notifications of one step in front of the rest of a run. */
  function Prepend(ns: seq<FakeNotify>, r: Option<(FakeState, seq<FakeNotify>)>)
    : Option<(FakeState, seq<FakeNotify>)>
  {
    match r
    case None => None
    case Some((s', rest)) => Some((s', ns + rest))
  }

  /** Runs a trace; None when some event in it is impossible. */
  function Run(s: FakeState, evs: seq<Event>): (r: Option<(FakeState, seq<FakeNotify>)>)
    requires Valid(s)
    ensures r.Some? ==> Valid(r.value.0)
    decreases |evs|
  {
    if evs == [] then Some((s, []))
    else
      match Step(s, evs[0])
      case None => None
      case Some((s1, n1)) => Prepend(n1, Run(s1, evs[1..]))
  }

  /** Running `e` then `rest` is stepping `e` and then running `rest`. */
  lemma RunCons(s: FakeState, e: Event, rest: seq<Event>)
    requires Valid(s)
    ensures Step(s, e).None? ==> Run(s, [e] + rest).None?
    ensures Step(s, e).Some? ==>
              Run(s, [e] + rest) == Prepend(Step(s, e).value.1, Run(Step(s, e).value.0, rest))
  {
  }

  /** `n` timer expiries, each re-arming successfully. */
  function Fires(n: nat): (evs: seq<Event>)
    ensures |evs| == n
    ensures forall i :: 0 <= i < n ==> evs[i] == EvFire(true)
  {
    seq(n, _ => EvFire(true))
  }

  /** A notification as the fake can push it: one token whose text is the
      script word at its start offset, spanning one unit, flush flag off. */
  predicate Scripted(n: FakeNotify)
  {
    && |n.tokens| == 1
    && IsScriptNotify(n, n.tokens[0].tok.start)
  }

  /** Letting the timer run from entry `i` of an active backend delivers the
      words i..5 in order, then the terminator resets the cursor and
      leaves the backend active with no timer. */
  lemma {:induction false} DrainFrom(s: FakeState)
    requires Valid(s) && s.active && s.timer.Some?
    ensures Run(s, Fires(|Script| - s.tokidx)).Some?
    ensures var (s', ns) := Run(s, Fires(|Script| - s.tokidx)).value;
            && s' == FakeState(true, 0, None)
            && |ns| == |Words| - s.tokidx
            && forall k :: 0 <= k < |ns| ==> IsScriptNotify(ns[k], s.tokidx + k)
    decreases |Script| - s.tokidx
  {
    var n := |Script| - s.tokidx;
    var evs := Fires(n);
    assert evs[0] == EvFire(true);
    assert evs[1..] == Fires(n - 1);
    if s.tokidx == |Words| {
      assert evs[1..] == [];
    } else {
      var (s1, n1) := Fire(s, true);
      assert n1.Some? && IsScriptNotify(n1.value, s.tokidx);
      DrainFrom(s1);
    }
  }

  /** One activation of an inactive backend, with the timer left to run,
      delivers exactly the six script words in order, one notification
      each, with start offsets 0..5 and end = start + 1; afterwards the
      backend is still active but has no timer, so nothing more can fire
      and a further activation changes nothing. */
  lemma ActivationDeliversScript(s: FakeState)
    requires Valid(s) && !s.active
    ensures Run(s, [EvActivate(true)] + Fires(|Script|)).Some?
    ensures var (s', ns) := Run(s, [EvActivate(true)] + Fires(|Script|)).value;
            && |ns| == 6
            && (forall k :: 0 <= k < 6 ==> IsScriptNotify(ns[k], k))
            && (forall k :: 0 <= k < 6 ==> ns[k].tokens[0].tok.text == Words[k])
            && (forall k :: 0 <= k < 6 ==>
                  ns[k].tokens[0].tok.start < ns[k].tokens[0].tok.end)
            && (forall j, k :: 0 <= j < k < 6 ==>
                  ns[j].tokens[0].tok.start < ns[k].tokens[0].tok.start)
            && s' == FakeState(true, 0, None)
            && Step(s', EvFire(true)).None? && Step(s', EvFire(false)).None?
            && Activate(s', true) == (s', true)
  {
    var evs := [EvActivate(true)] + Fires(|Script|);
    assert evs[0] == EvActivate(true);
    assert evs[1..] == Fires(|Script|);
    var s1 := Activate(s, true).0;
    DrainFrom(s1);
  }

  /** Deactivating and reactivating restarts the script: the next timer
      expiry pushes "hal" at offset 0, whatever the state before. */
  lemma RestartAtHal(s: FakeState, rearm: bool)
    requires Valid(s)
    ensures Run(s, [EvDeactivate, EvActivate(true), EvFire(rearm)]).Some?
    ensures Run(s, [EvDeactivate, EvActivate(true), EvFire(rearm)]).value.1
            == [FakeNotify([FakeToken(Recognizer.Token("hal", 1, 0, 1), false)], 1)]
  {
    var s1 := Deactivate(s);
    var s2 := FakeState(true, 0, Some(Timer(Script[0].delayMs)));
    var r3 := Fire(s2, rearm);
    var n := FakeNotify([FakeToken(Recognizer.Token("hal", 1, 0, 1), false)], 1);
    // the timer fires on "hal"
    assert r3.1 == Some(n);
    assert Step(s2, EvFire(rearm)) == Some((r3.0, [n]));
    assert Run(r3.0, []) == Some((r3.0, []));
    assert [n] + [] == [n];
    RunCons(s2, EvFire(rearm), []);
    assert [EvFire(rearm)] + [] == [EvFire(rearm)];
    // activation of the deactivated backend arms the first timer
    assert Step(s1, EvActivate(true)) == Some((s2, []));
    RunCons(s1, EvActivate(true), [EvFire(rearm)]);
    assert [] + [n] == [n];
    assert [EvActivate(true)] + [EvFire(rearm)] == [EvActivate(true), EvFire(rearm)];
    // deactivation itself pushes nothing
    RunCons(s, EvDeactivate, [EvActivate(true), EvFire(rearm)]);
    assert [EvDeactivate] + [EvActivate(true), EvFire(rearm)]
        == [EvDeactivate, EvActivate(true), EvFire(rearm)];
  }

  /** Whatever the daemon does, every notification the fake pushes is a
      script word at its own index. */
  lemma {:induction false} EveryNotifyScripted(s: FakeState, evs: seq<Event>)
    requires Valid(s)
    requires Run(s, evs).Some?
    ensures forall k :: 0 <= k < |Run(s, evs).value.1| ==> Scripted(Run(s, evs).value.1[k])
    decreases |evs|
  {
    if evs != [] {
      var (s1, n1) := Step(s, evs[0]).value;
      EveryNotifyScripted(s1, evs[1..]);
      if evs[0].EvFire? {
        var (s2, o) := Fire(s, evs[0].armOk);
        assert o.Some? ==> IsScriptNotify(o.value, s.tokidx);
      }
    }
  }

  /** Drops the stub events from a trace. */
  function WithoutStubs(evs: seq<Event>): (r: seq<Event>)
    ensures |r| <= |evs|
    ensures forall i :: 0 <= i < |r| ==> !IsStub(r[i])
    ensures forall e :: e in r <==> e in evs && !IsStub(e)
  {
    if evs == [] then []
    else if IsStub(evs[0]) then WithoutStubs(evs[1..])
    else [evs[0]] + WithoutStubs(evs[1..])
  }

  /** A single event is kept exactly when it is no stub. */
  lemma WithoutStubsSingle(e: Event)
    ensures WithoutStubs([e]) == if IsStub(e) then [] else [e]
  {
    assert [e][1..] == [];
  }

  /** Dropping stubs keeps the order of what remains: it distributes over
      concatenation. */
  lemma {:induction false} WithoutStubsConcat(a: seq<Event>, b: seq<Event>)
    ensures WithoutStubs(a + b) == WithoutStubs(a) + WithoutStubs(b)
    decreases |a|
  {
    if a == [] {
      assert a + b == b;
    } else {
      assert (a + b)[0] == a[0];
      assert (a + b)[1..] == a[1..] + b;
      WithoutStubsConcat(a[1..], b);
    }
  }

  /** Flush, rescan, sample duplication and the model/dictionary calls are
      invisible: removing them from any trace changes neither the final
      state nor the notifications. */
  lemma {:induction false} StubsInvisible(s: FakeState, evs: seq<Event>)
    requires Valid(s)
    ensures Run(s, evs) == Run(s, WithoutStubs(evs))
    decreases |evs|
  {
    if evs != [] {
      var w := WithoutStubs(evs[1..]);
      if IsStub(evs[0]) {
        StubsInvisible(s, evs[1..]);
        assert Step(s, evs[0]) == Some((s, []));
        match Run(s, evs[1..])
        case None =>
        case Some((s2, n2)) =>
          assert [] + n2 == n2;
      } else {
        var r := [evs[0]] + w;
        assert r[0] == evs[0] && r[1..] == w;
        match Step(s, evs[0])
        case None =>
        case Some((s1, n1)) =>
          StubsInvisible(s1, evs[1..]);
      }
    }
  }

  /** An inactive backend stays silent: without an activation, no event
      notifies anything and the backend stays inactive with no timer. */
  lemma {:induction false} InactiveStaysSilent(s: FakeState, evs: seq<Event>)
    requires Valid(s) && !s.active
    requires forall i :: 0 <= i < |evs| ==> !evs[i].EvActivate?
    requires Run(s, evs).Some?
    ensures Run(s, evs).value.1 == []
    ensures !Run(s, evs).value.0.active
    decreases |evs|
  {
    if evs != [] {
      var (s1, n1) := Step(s, evs[0]).value;
      assert !s1.active && n1 == [];
      InactiveStaysSilent(s1, evs[1..]);
    }
  }

  /** Deactivation cancels emission: after it, no trace without a new
      activation delivers any notification. */
  lemma NoNotifyAfterDeactivate(s: FakeState, evs: seq<Event>)
    requires Valid(s)
    requires forall i :: 0 <= i < |evs| ==> !evs[i].EvActivate?
    requires Run(Deactivate(s), evs).Some?
    ensures Run(Deactivate(s), evs).value.1 == []
  {
    InactiveStaysSilent(Deactivate(s), evs);
  }

  /** A failed re-arm while pushing a word is ignored: the word is still
      delivered, but the backend is left active with no timer, so no more
      words come and activation is a no-op until it is deactivated. */
  lemma FailedRearmStalls(s: FakeState)
    requires Valid(s) && s.active && s.timer.Some? && s.tokidx < |Words|
    ensures var (s', n) := Fire(s, false);
            && n.Some? && IsScriptNotify(n.value, s.tokidx)
            && s'.active && s'.timer.None?
            && Step(s', EvFire(true)).None?
            && Activate(s', true) == (s', true)
  {
  }
}
