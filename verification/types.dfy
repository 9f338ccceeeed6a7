/** Record shapes shared by the calculator: the mode, the input record the
    application keeps in its state, the eight-field result record and a
    flattened catalog preset. */
module Types {
  import opened Wrappers

  /** The calculator mode, 'chat' or 'voice'. */
  datatype Mode = Chat | Voice

  /** The input record held as application state.
      The first nine fields are the ones the engine reads (`mode` and
      `tokenFactorAudio` included, although the declared interface omits
      them). The last four are keys the input form writes by name but the
      engine never reads; they are absent until first edited. */
  datatype Inputs = Inputs(
    mode: Mode,
    x: real,                 // total messages per conversation
    y: real,                 // number of conversations
    a: real,                 // average words per user query
    b: real,                 // average words per AI response
    tokenFactor: real,       // word-to-token factor (chat)
    tokenFactorAudio: real,  // token factor used in voice mode
    cIn: real,               // cost per input token
    cOut: real,              // cost per output token
    wordToToken: Option<real>,
    T: Option<real>,
    z: Option<real>,
    audioToToken: Option<real>)

  /** The numeric keys of the input record, as the form and the state
      updater name them. `Duration` is the key `T` (call duration) and
      `SpeakingRatio` is the key `z`; every other constructor is its key
      with the first letter capitalised. */
  datatype Field =
    | X | Y | A | B | TokenFactor | TokenFactorAudio | CIn | COut
    | WordToToken | Duration | SpeakingRatio | AudioToToken

  /** Keys written by the form that the engine does not read. */
  predicate IsStray(f: Field) {
    f.WordToToken? || f.Duration? || f.SpeakingRatio? || f.AudioToToken?
  }

  /** Reads one numeric key of the record; `None` when the key is absent. */
  function Get(s: Inputs, f: Field): (r: Option<real>)
    ensures !IsStray(f) ==> r.Some?
  {
    match f
    case X => Some(s.x)
    case Y => Some(s.y)
    case A => Some(s.a)
    case B => Some(s.b)
    case TokenFactor => Some(s.tokenFactor)
    case TokenFactorAudio => Some(s.tokenFactorAudio)
    case CIn => Some(s.cIn)
    case COut => Some(s.cOut)
    case WordToToken => s.wordToToken
    case Duration => s.T
    case SpeakingRatio => s.z
    case AudioToToken => s.audioToToken
  }

  /** Two records agree on the mode and on every key are the same record. */
  lemma {:induction false} SameKeysSameInputs(s: Inputs, t: Inputs)
    requires s.mode == t.mode
    requires forall f :: Get(s, f) == Get(t, f)
    ensures s == t
  {
    assert Get(s, X) == Get(t, X) && Get(s, Y) == Get(t, Y);
    assert Get(s, A) == Get(t, A) && Get(s, B) == Get(t, B);
    assert Get(s, TokenFactor) == Get(t, TokenFactor);
    assert Get(s, TokenFactorAudio) == Get(t, TokenFactorAudio);
    assert Get(s, CIn) == Get(t, CIn) && Get(s, COut) == Get(t, COut);
    assert Get(s, WordToToken) == Get(t, WordToToken);
    assert Get(s, Duration) == Get(t, Duration);
    assert Get(s, SpeakingRatio) == Get(t, SpeakingRatio);
    assert Get(s, AudioToToken) == Get(t, AudioToToken);
  }

  /** Every key that is present holds a value >= 0: what the form's clamp
      guarantees for everything it writes. */
  predicate NonNegative(s: Inputs) {
    forall f :: Get(s, f).Some? ==> Get(s, f).value >= 0.0
  }

  /** The eight result fields. */
  datatype Results = Results(
    inputTokens: real,
    outputTokens: real,
    totalTokens: real,
    inputCost: real,
    outputCost: real,
    totalCost: real,
    perMessageCost: real,
    perPairCost: real)

  /** One catalog preset after flattening provider -> category -> preset. */
  datatype Preset = Preset(name: string, provider: string, mode: Mode, cIn: real, cOut: real)
}
