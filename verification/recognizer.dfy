/** The result data model and the backend API shape of the speech
    recognition daemon (src/daemon/recognizer.h): tokens, candidates,
    utterances, the notification reply with its FLUSH_ALL sentinel, and the
    operation tables that the backends fill in. */
module Recognizer {

  /** C `uint32_t`: audio-buffer offsets and lengths. */
  type u32 = x: int | 0 <= x < 0x1_0000_0000

  /** C `int` / `int32_t`: status codes and notification replies. */
  type i32 = x: int | -0x8000_0000 <= x < 0x8000_0000

  /** Reply a notification callback gives to ask for the whole audio buffer
      to be flushed. */
  const FLUSH_ALL: i32 := -1

  /** Scores are C doubles; the model keeps them as opaque integers. */
  type Score = int

  /** One recognized unit: its text and its span in the audio buffer. */
  datatype Token = Token(text: string, score: Score, start: u32, end: u32)

  /** One hypothesis: a score and `ntoken` tokens. */
  datatype Candidate = Candidate(score: Score, ntoken: nat, tokens: seq<Token>)

  /** The unit handed to a notification callback. */
  datatype Utterance = Utterance(id: string, score: Score, length: u32,
                                 ncand: nat, cands: seq<Candidate>)

  /** The count fields agree with the sequences they describe. */
  predicate WellFormedCandidate(c: Candidate)
  {
    c.ntoken == |c.tokens|
  }

  predicate WellFormedUtterance(u: Utterance)
  {
    && u.ncand == |u.cands|
    && forall i :: 0 <= i < |u.cands| ==> WellFormedCandidate(u.cands[i])
  }

  /** Builds a candidate whose count field matches its token sequence. */
  function MakeCandidate(score: Score, tokens: seq<Token>): (c: Candidate)
    ensures WellFormedCandidate(c)
    ensures c.tokens == tokens && c.score == score
  {
    Candidate(score, |tokens|, tokens)
  }

  /** Builds an utterance whose count field matches its candidate sequence. */
  function MakeUtterance(id: string, score: Score, length: u32,
                         cands: seq<Candidate>): (u: Utterance)
    requires forall i :: 0 <= i < |cands| ==> WellFormedCandidate(cands[i])
    ensures WellFormedUtterance(u)
    ensures u.cands == cands && u.length == length && u.id == id
  {
    Utterance(id, score, length, |cands|, cands)
  }

  /** A notification callback as the header types it: an utterance in, a
      C int out. The opaque `notify_data` is folded into the closure. */
  type Notify = Utterance -> i32

  /** What a notification reply asks of the backend. */
  datatype Reply =
    | FlushAll                          // the FLUSH_ALL sentinel
    | ProcessedUpTo(length: nat)        // a non-negative processed length
    | OtherNegative(code: int)          // any other negative value

  predicate ValidReply(a: Reply)
  {
    match a
    case FlushAll => true
    case ProcessedUpTo(n) => n < 0x8000_0000
    case OtherNegative(c) => -0x8000_0000 <= c < 0 && c != FLUSH_ALL
  }

  /** Reads a callback's integer reply. */
  function DecodeReply(r: i32): (a: Reply)
    ensures ValidReply(a)
    ensures a.FlushAll? <==> r == FLUSH_ALL
    ensures a.ProcessedUpTo? <==> r >= 0
    ensures a.ProcessedUpTo? ==> a.length == r
  {
    if r == FLUSH_ALL then FlushAll
    else if r >= 0 then ProcessedUpTo(r)
    else OtherNegative(r)
  }

  /** Writes a reply back as the integer a callback returns. */
  function EncodeReply(a: Reply): (r: i32)
    requires ValidReply(a)
    ensures a.FlushAll? <==> r == FLUSH_ALL
    ensures a.ProcessedUpTo? <==> r >= 0
    ensures a.ProcessedUpTo? ==> r == a.length
    ensures a.OtherNegative? ==> r == a.code
  {
    match a
    case FlushAll => FLUSH_ALL
    case ProcessedUpTo(n) => n
    case OtherNegative(c) => c
  }

  lemma ReplyRoundTrip(r: i32)
    ensures EncodeReply(DecodeReply(r)) == r
  {
  }

  lemma ReplyRoundTripBack(a: Reply)
    requires ValidReply(a)
    ensures DecodeReply(EncodeReply(a)) == a
  {
  }

  /** The sentinel can never be mistaken for a processed length. */
  lemma FlushAllIsNotALength(n: nat)
    requires n < 0x8000_0000
    ensures DecodeReply(n) != FlushAll
    ensures DecodeReply(FLUSH_ALL) != ProcessedUpTo(n)
  {
  }

  /** Entry names of backend operation tables, across the header and the
      two backends. */
  datatype Op =
    | Activate | Deactivate | Flush | Rescan | Sampledup
    | CheckDecoder | SelectDecoder | ActiveDecoder
    | CheckModel | CheckDictionary | SetModel | SetDictionary

  /** What an operation gives back to its caller. */
  datatype ReturnKind = Void | Status | AudioCopy | DecoderName

  function ReturnOf(op: Op): ReturnKind
  {
    match op
    case Deactivate => Void
    case Sampledup => AudioCopy
    case ActiveDecoder => DecoderName
    case _ => Status
  }

  /** The table declared by the header (`srs_srec_api_t`). */
  const HeaderApi: set<Op> :=
    {Activate, Deactivate, Flush, Rescan, Sampledup, CheckDecoder, SelectDecoder}

  /** The table the fake backend fills in. */
  const FakeApi: set<Op> :=
    {Activate, Deactivate, Flush, Rescan, Sampledup,
     CheckModel, CheckDictionary, SetModel, SetDictionary}

  /** The table the Sphinx backend fills in. */
  const SphinxApi: set<Op> :=
    {Activate, Deactivate, Flush, Rescan, Sampledup,
     CheckDecoder, SelectDecoder, ActiveDecoder}

  /** In the header's table, deactivate is the only entry that cannot report
      anything, and every other entry but the sample copy returns a status. */
  lemma HeaderReturnKinds()
    ensures forall op :: op in HeaderApi ==> (ReturnOf(op) == Void <==> op == Deactivate)
    ensures forall op :: op in HeaderApi ==>
              (ReturnOf(op) == Status <==> op != Deactivate && op != Sampledup)
  {
  }

  /** Neither backend's table is the header's: the fake swaps the decoder
      entries for model/dictionary ones, Sphinx adds an active-decoder query. */
  lemma ApiSkew()
    ensures HeaderApi - FakeApi == {CheckDecoder, SelectDecoder}
    ensures FakeApi - HeaderApi == {CheckModel, CheckDictionary, SetModel, SetDictionary}
    ensures SphinxApi - HeaderApi == {ActiveDecoder}
    ensures HeaderApi <= SphinxApi
  {
  }
}
