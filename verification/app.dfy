/** The application shell: the initial input record, the two state
    updaters handed to the input form, and the results derived from the
    current inputs. */
module App {
  import opened Wrappers
  import opened Types
  import opened Calculations
  import Catalog

  /** The state the calculator starts in: chat mode, ten messages, one
      conversation, 20 and 50 words, factors 1.3 and 50, and the
      "GPT-3.5 Turbo" prices. */
  const InitialInputs: Inputs := Inputs(
    Chat, 10.0, 1.0, 20.0, 50.0, 1.3, 50.0, 0.000249, 0.000498,
    None, None, None, None)

  /** What the form may pass to `handleInputChange`: a number for a numeric
      key, or a new mode for the 'mode' key. */
  datatype Update = SetNumber(field: Field, value: real) | SetMode(newMode: Mode)

  /** `{...prev, [field]: value}` on the numeric key `f`. */
  function SetField(s: Inputs, f: Field, v: real): (r: Inputs)
    ensures Get(r, f) == Some(v)
    ensures r.mode == s.mode
    ensures forall g :: g != f ==> Get(r, g) == Get(s, g)
  {
    match f
    case X => s.(x := v)
    case Y => s.(y := v)
    case A => s.(a := v)
    case B => s.(b := v)
    case TokenFactor => s.(tokenFactor := v)
    case TokenFactorAudio => s.(tokenFactorAudio := v)
    case CIn => s.(cIn := v)
    case COut => s.(cOut := v)
    case WordToToken => s.(wordToToken := Some(v))
    case Duration => s.(T := Some(v))
    case SpeakingRatio => s.(z := Some(v))
    case AudioToToken => s.(audioToToken := Some(v))
  }

  /** `handleInputChange(field, value)`: sets exactly the named key and
      leaves every other key, and the mode unless it is the key, as it was. */
  function HandleInputChange(s: Inputs, u: Update): (r: Inputs)
    ensures u.SetNumber? ==>
      && Get(r, u.field) == Some(u.value)
      && r.mode == s.mode
      && forall g :: g != u.field ==> Get(r, g) == Get(s, g)
    ensures u.SetMode? ==>
      && r.mode == u.newMode
      && forall g :: Get(r, g) == Get(s, g)
  {
    match u
    case SetNumber(f, v) => SetField(s, f, v)
    case SetMode(m) => s.(mode := m)
  }

  /** `handlePresetSelect(cIn, cOut, mode)`: overwrites the mode and the two
      prices and nothing else; in particular neither token factor. */
  function HandlePresetSelect(s: Inputs, cIn: real, cOut: real, mode: Mode): (r: Inputs)
    ensures r.mode == mode
    ensures Get(r, CIn) == Some(cIn) && Get(r, COut) == Some(cOut)
    ensures forall g :: g != CIn && g != COut ==> Get(r, g) == Get(s, g)
  {
    s.(mode := mode, cIn := cIn, cOut := cOut)
  }

  /** Applying the same preset twice leaves the state it left after the
      first time. */
  lemma {:induction false} PresetSelectIdempotent(s: Inputs, cIn: real, cOut: real, mode: Mode)
    ensures var once := HandlePresetSelect(s, cIn, cOut, mode);
      HandlePresetSelect(once, cIn, cOut, mode) == once
  {
    var once := HandlePresetSelect(s, cIn, cOut, mode);
    var twice := HandlePresetSelect(once, cIn, cOut, mode);
    forall g ensures Get(twice, g) == Get(once, g) {
      if g == CIn || g == COut {
      } else {
        assert Get(twice, g) == Get(once, g);
      }
    }
    SameKeysSameInputs(twice, once);
  }

  /** Selecting a preset never changes the results' token counts in chat
      mode: only prices move, and the word counts, volumes and factor stay. */
  lemma {:induction false} PresetKeepsChatTokens(s: Inputs, cIn: real, cOut: real)
    requires s.mode == Chat
    ensures var r, r' := CalculateResults(s), CalculateResults(HandlePresetSelect(s, cIn, cOut, Chat));
      && r'.inputTokens == r.inputTokens
      && r'.outputTokens == r.outputTokens
      && r'.totalTokens == r.totalTokens
  {
    var t := HandlePresetSelect(s, cIn, cOut, Chat);
    assert Factor(t) == Factor(s) && TotalPairs(t) == TotalPairs(s);
  }

  /** `results = calculateResults(inputs)`, recomputed from the inputs
      alone; the four keys only the form writes play no part. */
  function ResultsOf(s: Inputs): (r: Results)
    ensures Approximates(r, ExactResults(s))
  {
    CalculateResults(s)
  }

  /** Two states that agree on the mode and on every key the engine reads
      show the same results. */
  lemma {:induction false} ResultsIgnoreStrayKeys(s: Inputs, t: Inputs)
    requires s.mode == t.mode
    requires forall f :: !IsStray(f) ==> Get(s, f) == Get(t, f)
    ensures ResultsOf(s) == ResultsOf(t)
  {
    assert Get(s, X) == Get(t, X) && Get(s, Y) == Get(t, Y);
    assert Get(s, A) == Get(t, A) && Get(s, B) == Get(t, B);
    assert Get(s, TokenFactor) == Get(t, TokenFactor);
    assert Get(s, TokenFactorAudio) == Get(t, TokenFactorAudio);
    assert Get(s, CIn) == Get(t, CIn) && Get(s, COut) == Get(t, COut);
    assert ExactResults(s) == ExactResults(t);
  }

  /** Editing a key that only the form writes (`wordToToken`, `T`, `z`,
      `audioToToken`) never changes the results. */
  lemma {:induction false} StrayEditKeepsResults(s: Inputs, f: Field, v: real)
    requires IsStray(f)
    ensures ResultsOf(HandleInputChange(s, SetNumber(f, v))) == ResultsOf(s)
  {
    var t := HandleInputChange(s, SetNumber(f, v));
    ResultsIgnoreStrayKeys(t, s);
  }

  /** The initial state is in chat mode, every key it holds is >= 0, and its
      prices are those of the "GPT-3.5 Turbo" preset. */
  lemma InitialState()
    ensures InitialInputs.mode == Chat
    ensures NonNegative(InitialInputs)
    ensures InitialInputs.cIn == Catalog.ModelPresets[4].cIn
    ensures InitialInputs.cOut == Catalog.ModelPresets[4].cOut
    ensures Catalog.ModelPresets[4].name == "GPT-3.5 Turbo"
  {
    Catalog.Gpt35Turbo();
  }

  /** On the initial state: 130 and 325 tokens, costs 0.03237, 0.16185 and
      0.19422, 0.019422 per message and 0.038844 per pair. */
  lemma {:induction false} InitialResults()
    ensures ResultsOf(InitialInputs) ==
      Results(130.0, 325.0, 455.0, 0.03237, 0.16185, 0.19422, 0.019422, 0.038844)
  {
    var e := ExactResults(InitialInputs);
    assert e == Results(130.0, 325.0, 455.0, 0.03237, 0.16185, 0.19422, 0.019422, 0.038844);
    assert OnGrid(130.0) && OnGrid(325.0) && OnGrid(455.0);
    assert OnGrid(0.03237) && OnGrid(0.16185) && OnGrid(0.19422);
    assert OnGrid(0.019422) && OnGrid(0.038844);
    Round8Idempotent(130.0);
    Round8Idempotent(325.0);
    Round8Idempotent(455.0);
    Round8Idempotent(0.03237);
    Round8Idempotent(0.16185);
    Round8Idempotent(0.19422);
    Round8Idempotent(0.019422);
    Round8Idempotent(0.038844);
  }
}
