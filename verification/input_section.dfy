/** The input form's logic without its markup: the numeric sanitiser, the
    preset-index guard, the preset lists shown in the menu, and the way a
    menu choice reaches the application's preset updater. Text parsing is
    abstracted: a parse yields `Some(value)` or `None` for NaN. */
module InputSection {
  import opened Wrappers
  import opened Types
  import opened Seqs
  import opened Calculations
  import Catalog
  import App

  /** `Math.max(0, parseFloat(text) || 0)`: NaN and 0 become 0, a positive
      number passes through, a negative one is clamped to 0. */
  function Sanitize(parsed: Option<real>): (r: real)
    ensures r >= 0.0
    ensures r > 0.0 <==> parsed.Some? && parsed.value > 0.0
    ensures r > 0.0 ==> r == parsed.value
  {
    var value := if parsed.Some? && parsed.value != 0.0 then parsed.value else 0.0;
    if value > 0.0 then value else 0.0
  }

  /** Sanitising an already sanitised value changes nothing. */
  lemma SanitizeIdempotent(parsed: Option<real>)
    ensures Sanitize(Some(Sanitize(parsed))) == Sanitize(parsed)
  {
  }

  /** The guard `if (index >= 0)` on `parseInt(value)`: the index passed
      on, or `None` when nothing is to be selected. */
  function PresetIndex(parsed: Option<int>): (r: Option<nat>)
    ensures r.Some? <==> parsed.Some? && parsed.value >= 0
    ensures r.Some? ==> r.value == parsed.value
  {
    if parsed.Some? && parsed.value >= 0 then Some(parsed.value) else None
  }

  /** A menu change: a valid index selects that catalog preset through
      `handlePresetSelect(p.cIn, p.cOut, p.mode)`; a negative or unparsable
      value (the "-1" placeholder) selects nothing, and neither does an
      index past the end of the catalog. */
  function HandlePresetChange(s: Inputs, parsed: Option<int>): (r: Inputs)
    ensures PresetIndex(parsed).None? ==> r == s
    ensures PresetIndex(parsed).Some? && PresetIndex(parsed).value < |Catalog.ModelPresets| ==>
      var p := Catalog.ModelPresets[PresetIndex(parsed).value];
      && r.mode == p.mode
      && r.cIn == p.cIn && r.cOut == p.cOut
      && forall g :: g != CIn && g != COut ==> Get(r, g) == Get(s, g)
    ensures PresetIndex(parsed).Some? && PresetIndex(parsed).value >= |Catalog.ModelPresets| ==> r == s
  {
    match PresetIndex(parsed)
    case None => s
    case Some(i) =>
      if i < |Catalog.ModelPresets| then
        var p := Catalog.ModelPresets[i];
        App.HandlePresetSelect(s, p.cIn, p.cOut, p.mode)
      else s
  }

  /** The placeholder "-1" never selects a preset. */
  lemma PlaceholderSelectsNothing(s: Inputs)
    ensures HandlePresetChange(s, Some(-1)) == s
    ensures HandlePresetChange(s, None) == s
  {
  }

  /** The two filter tests of the menu: same mode, same provider. */
  function HasMode(mode: Mode): Preset -> bool {
    (p: Preset) => p.mode == mode
  }

  function FromProvider(provider: string): Preset -> bool {
    (p: Preset) => p.provider == provider
  }

  /** `availablePresets`: the catalog presets of the current mode, in
      catalog order. */
  function AvailablePresets(mode: Mode): (r: seq<Preset>)
    ensures forall k :: 0 <= k < |r| ==> r[k].mode == mode
    ensures forall k :: 0 <= k < |Catalog.ModelPresets| && Catalog.ModelPresets[k].mode == mode ==>
      Catalog.ModelPresets[k] in r
    ensures Sublist(r, Catalog.ModelPresets)
  {
    Filter(Catalog.ModelPresets, HasMode(mode))
  }

  /** One provider's share of a preset list, in order. */
  function ProviderPresets(available: seq<Preset>, provider: string): (r: seq<Preset>)
    ensures forall k :: 0 <= k < |r| ==> r[k].provider == provider
    ensures forall k :: 0 <= k < |available| && available[k].provider == provider ==>
      available[k] in r
    ensures Sublist(r, available)
  {
    Filter(available, FromProvider(provider))
  }

  /** `geminiPresets` and `openAIPresets`. */
  function GeminiPresets(mode: Mode): seq<Preset> {
    ProviderPresets(AvailablePresets(mode), "Gemini")
  }

  function OpenAIPresets(mode: Mode): seq<Preset> {
    ProviderPresets(AvailablePresets(mode), "OpenAI")
  }

  /** The two provider groups share no preset, and a preset of any other
      provider appears in neither. */
  lemma {:induction false} ProviderGroupsDisjoint(mode: Mode, p: Preset)
    ensures !(p in GeminiPresets(mode) && p in OpenAIPresets(mode))
    ensures p.provider != "Gemini" && p.provider != "OpenAI" ==>
      p !in GeminiPresets(mode) && p !in OpenAIPresets(mode)
  {
    var g, o := GeminiPresets(mode), OpenAIPresets(mode);
    if p in g {
      var k :| 0 <= k < |g| && g[k] == p;
      assert p.provider == "Gemini";
    }
    if p in o {
      var k :| 0 <= k < |o| && o[k] == p;
      assert p.provider == "OpenAI";
    }
  }

  /** Between them the two groups list every available preset exactly once:
      every catalog provider is one of the two. */
  lemma {:induction false} ProviderGroupsCover(mode: Mode)
    ensures |GeminiPresets(mode)| + |OpenAIPresets(mode)| == |AvailablePresets(mode)|
    ensures forall k :: 0 <= k < |AvailablePresets(mode)| ==>
      AvailablePresets(mode)[k] in GeminiPresets(mode) || AvailablePresets(mode)[k] in OpenAIPresets(mode)
  {
    var av := AvailablePresets(mode);
    Catalog.ProvidersOfPresets();
    SublistMembers(av, Catalog.ModelPresets);
    forall k | 0 <= k < |av|
      ensures av[k].provider == "Gemini" || av[k].provider == "OpenAI"
    {
      var n :| 0 <= n < |Catalog.ModelPresets| && Catalog.ModelPresets[n] == av[k];
    }
    FilterSplit(av, FromProvider("Gemini"), FromProvider("OpenAI"));
  }

  /** The mode pattern of the catalog: chat, chat, voice, voice, chat,
      chat, chat, voice, voice. */
  ghost predicate CatalogModePattern(cs: seq<Preset>) {
    && |cs| == 9
    && (forall k :: (0 <= k < 2 || 4 <= k < 7) ==> cs[k].mode == Chat)
    && (forall k :: (2 <= k < 4 || 7 <= k < 9) ==> cs[k].mode == Voice)
  }

  /** The catalog follows that pattern. */
  lemma CatalogFollowsPattern()
    ensures CatalogModePattern(Catalog.ModelPresets)
  {
    Catalog.PresetModes();
    PatternFromModes(Catalog.ModelPresets);
  }

  lemma PatternFromModes(cs: seq<Preset>)
    requires |cs| == 9
    requires cs[0].mode == Chat && cs[1].mode == Chat
    requires cs[2].mode == Voice && cs[3].mode == Voice
    requires cs[4].mode == Chat && cs[5].mode == Chat && cs[6].mode == Chat
    requires cs[7].mode == Voice && cs[8].mode == Voice
    ensures CatalogModePattern(cs)
  {
    forall k | 0 <= k < 2 || 4 <= k < 7 ensures cs[k].mode == Chat {
      assert k == 0 || k == 1 || k == 4 || k == 5 || k == 6;
    }
    forall k | 2 <= k < 4 || 7 <= k < 9 ensures cs[k].mode == Voice {
      assert k == 2 || k == 3 || k == 7 || k == 8;
    }
  }

  /** The chat menu offers five presets, catalog positions 0-1 and 4-6;
      the voice menu offers the other four, positions 2-3 and 7-8. */
  lemma {:induction false} MenuContents()
    ensures var cs := Catalog.ModelPresets;
      AvailablePresets(Chat) == cs[0..2] + cs[4..7]
    ensures var cs := Catalog.ModelPresets;
      AvailablePresets(Voice) == cs[2..4] + cs[7..9]
    ensures |AvailablePresets(Chat)| == 5 && |AvailablePresets(Voice)| == 4
  {
    var cs := Catalog.ModelPresets;
    CatalogFollowsPattern();
    ChatBlocks(cs);
    VoiceBlocks(cs);
  }

  /** Filtering by mode keeps whole blocks of the catalog (Gemini chat,
      Gemini voice, OpenAI chat, OpenAI voice). */
  lemma {:induction false} ChatBlocks(cs: seq<Preset>)
    requires CatalogModePattern(cs)
    ensures Filter(cs, HasMode(Chat)) == cs[0..2] + cs[4..7]
  {
    var keep := HasMode(Chat);
    var A, B, C, D := cs[0..2], cs[2..4], cs[4..7], cs[7..9];
    assert cs == A + (B + (C + D));
    assert forall k :: 0 <= k < |A| ==> keep(A[k]);
    assert forall k :: 0 <= k < |B| ==> !keep(B[k]);
    assert forall k :: 0 <= k < |C| ==> keep(C[k]);
    assert forall k :: 0 <= k < |D| ==> !keep(D[k]);
    FilterBlocks(A, B, C, D, keep);
  }

  lemma {:induction false} VoiceBlocks(cs: seq<Preset>)
    requires CatalogModePattern(cs)
    ensures Filter(cs, HasMode(Voice)) == cs[2..4] + cs[7..9]
  {
    var keep := HasMode(Voice);
    var A, B, C, D := cs[0..2], cs[2..4], cs[4..7], cs[7..9];
    assert cs == A + (B + (C + D));
    assert forall k :: 0 <= k < |A| ==> !keep(A[k]);
    assert forall k :: 0 <= k < |B| ==> keep(B[k]);
    assert forall k :: 0 <= k < |C| ==> !keep(C[k]);
    assert forall k :: 0 <= k < |D| ==> keep(D[k]);
    assert B + (C + D) == [] + (B + (C + D));
    FilterNone(A, keep);
    FilterConcat(A, B + (C + D), keep);
    FilterBlocks(B, C, D, [], keep);
    assert D + [] == D;
  }

  /** Filtering four consecutive blocks that pass, fail, pass, fail keeps
      the first and third. */
  lemma {:induction false} FilterBlocks(A: seq<Preset>, B: seq<Preset>, C: seq<Preset>, D: seq<Preset>, keep: Preset -> bool)
    requires forall k :: 0 <= k < |A| ==> keep(A[k])
    requires forall k :: 0 <= k < |B| ==> !keep(B[k])
    requires forall k :: 0 <= k < |C| ==> keep(C[k])
    requires forall k :: 0 <= k < |D| ==> !keep(D[k])
    ensures Filter(A + (B + (C + D)), keep) == A + C
  {
    FilterAll(A, keep);
    FilterNone(B, keep);
    FilterAll(C, keep);
    FilterNone(D, keep);
    FilterConcat(C, D, keep);
    assert Filter(C + D, keep) == C;
    FilterConcat(B, C + D, keep);
    assert Filter(B + (C + D), keep) == C;
    FilterConcat(A, B + (C + D), keep);
  }

  /** The option value of a listed preset: `MODEL_PRESETS.indexOf(preset)`. */
  function OptionValue(p: Preset): int {
    IndexOf(Catalog.ModelPresets, p)
  }

  /** A listed preset's option value is its catalog position: indexing the
      catalog there gives the preset back, and choosing that option applies
      exactly that preset's prices and mode. */
  lemma {:induction false} OptionValueRoundTrip(s: Inputs, mode: Mode, k: nat)
    requires k < |AvailablePresets(mode)|
    ensures var p := AvailablePresets(mode)[k];
      && 0 <= OptionValue(p) < |Catalog.ModelPresets|
      && Catalog.ModelPresets[OptionValue(p)] == p
      && HandlePresetChange(s, Some(OptionValue(p))) == App.HandlePresetSelect(s, p.cIn, p.cOut, p.mode)
  {
    var p := AvailablePresets(mode)[k];
    SublistMembers(AvailablePresets(mode), Catalog.ModelPresets);
    assert p in Catalog.ModelPresets;
  }

  /** Because preset names are unique, no two catalog entries are equal, so
      the option value of the preset at position `k` is `k` itself. */
  lemma {:induction false} OptionValueIsPosition(k: nat)
    requires k < |Catalog.ModelPresets|
    ensures OptionValue(Catalog.ModelPresets[k]) == k
  {
    var cs := Catalog.ModelPresets;
    Catalog.NamesUnique();
    assert forall j, m :: 0 <= j < m < |cs| ==> cs[j] != cs[m] by {
      forall j, m | 0 <= j < m < |cs| ensures cs[j] != cs[m] {
        assert cs[j].name != cs[m].name;
      }
    }
    IndexOfDistinct(cs, k);
  }

  /** Choosing a preset from the menu never switches the mode: the menu
      only lists presets of the current mode. */
  lemma {:induction false} MenuChoiceKeepsMode(s: Inputs, k: nat)
    requires k < |AvailablePresets(s.mode)|
    ensures HandlePresetChange(s, Some(OptionValue(AvailablePresets(s.mode)[k]))).mode == s.mode
  {
    OptionValueRoundTrip(s, s.mode, k);
  }

  /** The keys the form has input boxes for; the two token factors are not
      among them. */
  type FormField = f: Field | f != TokenFactor && f != TokenFactorAudio witness X

  /** What a user can do on the form. */
  datatype Event =
    | EditNumber(field: FormField, text: Option<real>)
    | ChangeMode(mode: Mode)
    | ChoosePreset(choice: Option<int>)

  /** One event's effect on the application state. */
  function Step(s: Inputs, e: Event): (r: Inputs)
    ensures r.tokenFactor == s.tokenFactor && r.tokenFactorAudio == s.tokenFactorAudio
  {
    match e
    case EditNumber(f, parsed) => App.HandleInputChange(s, App.SetNumber(f, Sanitize(parsed)))
    case ChangeMode(m) => App.HandleInputChange(s, App.SetMode(m))
    case ChoosePreset(parsed) => HandlePresetChange(s, parsed)
  }

  /** A sequence of events applied in order. */
  function Run(s: Inputs, es: seq<Event>): Inputs
    decreases |es|
  {
    if |es| == 0 then s else Run(Step(s, es[0]), es[1..])
  }

  /** Each event keeps every present key >= 0. */
  lemma {:induction false} StepKeepsNonNegative(s: Inputs, e: Event)
    requires NonNegative(s)
    ensures NonNegative(Step(s, e))
  {
    var r := Step(s, e);
    match e
    case EditNumber(f, parsed) =>
      forall g | Get(r, g).Some? ensures Get(r, g).value >= 0.0 {
        if g != f {
          assert Get(r, g) == Get(s, g);
        }
      }
    case ChangeMode(m) =>
      forall g | Get(r, g).Some? ensures Get(r, g).value >= 0.0 {
        assert Get(r, g) == Get(s, g);
      }
    case ChoosePreset(parsed) =>
      Catalog.PricesPositive();
      forall g | Get(r, g).Some? ensures Get(r, g).value >= 0.0 {
        if g != CIn && g != COut {
          assert Get(r, g) == Get(s, g);
        }
      }
  }

  /** Whatever the user does on the form, every key stays >= 0 and neither
      token factor ever changes: the form has no box bound to them, and a
      preset sets prices and mode only. */
  lemma {:induction false} RunInvariant(s: Inputs, es: seq<Event>)
    requires NonNegative(s)
    ensures NonNegative(Run(s, es))
    ensures Run(s, es).tokenFactor == s.tokenFactor
    ensures Run(s, es).tokenFactorAudio == s.tokenFactorAudio
    decreases |es|
  {
    if |es| > 0 {
      StepKeepsNonNegative(s, es[0]);
      RunInvariant(Step(s, es[0]), es[1..]);
    }
  }

  /** Every state the form can reach from the initial one keeps the
      initial token factors (1.3 and 50) and shows non-negative results. */
  lemma {:induction false} ReachableStates(es: seq<Event>)
    ensures var s := Run(App.InitialInputs, es);
      && s.tokenFactor == 1.3 && s.tokenFactorAudio == 50.0
      && var r := App.ResultsOf(s);
         && r.inputTokens >= 0.0 && r.outputTokens >= 0.0 && r.totalTokens >= 0.0
         && r.inputCost >= 0.0 && r.outputCost >= 0.0 && r.totalCost >= 0.0
         && r.perMessageCost >= 0.0 && r.perPairCost >= 0.0
  {
    App.InitialState();
    RunInvariant(App.InitialInputs, es);
    var s := Run(App.InitialInputs, es);
    NonNegativeEngineFields(s);
    ResultsNonNegative(s);
  }
}
