# Chat & Voice Cost Calculator — a Dafny model of the calculation core

The calculator estimates what AI conversations cost. Its core is
`calculateResults`. It maps the current input record to eight result fields:
input, output and total tokens; input, output and total cost; and the cost
per message and per user/AI pair. Each field is rounded to 8 decimals. Around
the engine sit four smaller pieces:

- a static preset catalog of provider → category → preset, each preset with
  an input and an output price per token;
- the form's numeric sanitiser (`Math.max(0, parseFloat(v) || 0)`);
- the preset-menu index guard and the mode/provider filters that build the
  menu;
- the application's two state updaters, `handleInputChange` and
  `handlePresetSelect`.

The model is functional. Records are immutable datatypes over `real`, every
operation is a pure function, and the properties are lemmas.

| module | file | models |
|---|---|---|
| `Wrappers` | wrappers.dfy | `Option`, used for parses that can yield NaN and for absent keys |
| `Types` | types.dfy | the mode, the input record, the result record, a flattened preset |
| `Seqs` | seqs.dfy | `filter` and `indexOf` on sequences, and the sublist relation |
| `Calculations` | calculations.dfy | `calculateResults` and its 8-decimal rounding |
| `Catalog` | catalog.dfy | `MODEL_PROVIDERS` as nested data, flattened to nine presets |
| `App` | app.dfy | `initialInputs`, `handleInputChange`, `handlePresetSelect`, `results` |
| `InputSection` | input_section.dfy | the sanitiser, the index guard, the menu lists, the menu → updater glue, and user event sequences |

## Modelling decisions

- **Arithmetic.** JavaScript numbers are modelled as `real`. `Math.round(v * 1e8) / 1e8`
  becomes `Floor(v * 1e8 + 1/2) / 1e8`, which is exactly how `Math.round`
  rounds: ties go toward +infinity.
- **Input record.** The declared `CalculatorInputs` type lacks `mode` and
  `tokenFactorAudio`, but the application sets both and the engine reads
  both. The model's `Inputs` carries them.
- **Keys the engine never reads.** The form also writes four keys by name:
  `wordToToken`, `T`, `z` and `audioToToken`. The engine never reads them.
  They are modelled as optional fields that are absent at start.
- **Editing the word-to-token box does not change the token factor.** The
  box labelled "word-to-token factor" writes `wordToToken`, but the engine
  reads `tokenFactor`. No box writes `tokenFactor` or `tokenFactorAudio`, and
  no preset does either. So in every state the form can reach, the factors
  stay 1.3 and 50, and the voice-mode boxes have no effect on the results.
  `App.StrayEditKeepsResults` and `InputSection.ReachableStates` prove this.
- **Preset records.** The catalog is declared as provider → category →
  `{name, cIn, cOut}`. The menu, however, reads a flat `MODEL_PRESETS` list
  of records with `mode` and `provider`, and that list is not declared
  anywhere in the source. The model flattens the declared table in order.
  Each preset's mode is derived from its category name: "Chat" gives chat
  mode, and every other category gives voice mode. This is an assumption.
- **Menu → updater glue.** The form calls `onPresetSelect(index)` with one
  number (src/components/InputSection.tsx:28-33). The application passes
  `handlePresetSelect(cIn, cOut, mode)` as that prop (src/App.tsx:63), and
  nothing in between looks the index up. As written, choosing a preset would
  therefore set `cIn` to the index and both `cOut` and `mode` to `undefined`
  (src/App.tsx:33-40). The list the menu filters, `MODEL_PRESETS`, is imported
  from src/types/index.ts but not exported there, so it has no defined value
  either. The model assumes the evident intent: it joins the two as
  `index → ModelPresets[index] → handlePresetSelect(p.cIn, p.cOut, p.mode)`.
  This join is an assumption, not code.
- **Parsing.** `parseFloat` and `parseInt` are abstracted as partial parses
  that return `Option<real>` and `Option<int>`. `None` stands for NaN.

What the engine computes, read off the code:

- Voice mode uses the same word-based formula as chat mode, only with
  `tokenFactorAudio` (src/utils/calculations.ts:5-13). The form's `T`, `z`
  and `audioToToken` boxes (src/components/InputSection.tsx:189-233) write
  keys the engine never reads.
- Token counts are multiplied by the number of conversations `y`
  (src/utils/calculations.ts:9,13).
- The per-pair cost divides by `x * y / 2` in both modes
  (src/utils/calculations.ts:31-32).
- A preset record carries no conversion factor (src/types/index.ts:22-26),
  and `handlePresetSelect` does not touch either token factor
  (src/App.tsx:33-40).
- Rounding is `Math.round`, whose ties go toward +infinity
  (src/utils/calculations.ts:35-42).

## Model

| member | source | states |
|---|---|---|
| `Calculations.Round8` | src/utils/calculations.ts:35-42 | `Math.round(v*1e8)/1e8` has at most 8 decimals and lies within half a unit below-or-at / strictly above `v`; it is ≥ 0 for `v` ≥ 0 |
| `Calculations.Round8Unique` | src/utils/calculations.ts:35-42 | the rounding window characterises the result: any 8-decimal value within it is the rounding |
| `Calculations.Round8Idempotent` | src/utils/calculations.ts:35-42 | a value that already has 8 decimals is unchanged by rounding, so rounding twice equals rounding once |
| `Calculations.Round8Monotone` | src/utils/calculations.ts:35-42 | rounding preserves order |
| `Calculations.Round8Sum` | src/utils/calculations.ts:35-40 | the rounding of a sum differs from the sum of the roundings by at most 1e-8 |
| `Calculations.ExactResults` | src/utils/calculations.ts:5-32 | before rounding: tokens = words per pair × pairs across all conversations × the mode's factor; input cost = input tokens × `cIn` and output cost = output tokens × `cOut`; total = input + output; per-message cost × messages = total cost when there are messages, and it is 0 otherwise; per-pair cost = 2 × per-message cost |
| `Calculations.CalculateResults` | src/utils/calculations.ts:3-44 | every field has 8 decimals and is within half a unit of the same field before rounding |
| `Calculations.ApproximationDeterminesResults` | src/utils/calculations.ts:35-42 | the rounding contract determines the result: each field is rounded independently from its own exact value |
| `Calculations.ModeOnlySelectsFactor` | src/utils/calculations.ts:5 | mode matters only through the factor: with equal factors, chat and voice give identical results |
| `Calculations.NoVolumeNoCost` | src/utils/calculations.ts:9-32 | `x = 0` or `y = 0` makes all eight fields 0, including both guarded divisions |
| `Calculations.TotalsNearSumOfParts` | src/utils/calculations.ts:16-40 | the rounded total tokens and total cost are within 1e-8 of the sums of their rounded parts |
| `Calculations.ExactNonNegative` | src/utils/calculations.ts:9-32 | with all inputs ≥ 0, every unrounded field is ≥ 0 |
| `Calculations.ResultsNonNegative` | src/utils/calculations.ts:9-42 | with all inputs ≥ 0, every returned field is ≥ 0 |
| `Calculations.TotalCostClosedForm` | src/utils/calculations.ts:9-25 | the unrounded total cost is the number of messages `x·y` times half the price of one pair, `factor × (a·cIn + b·cOut) / 2` |
| `Calculations.PerUnitCosts` | src/utils/calculations.ts:28-32 | when there are messages, a pair costs `factor × (a·cIn + b·cOut)` and a message half of that, whatever `x` and `y` are |
| `Calculations.ExactMonotoneInCIn` | src/utils/calculations.ts:19-25 | raising `cIn` leaves the unrounded token fields and output cost unchanged and does not lower input or total cost |
| `Calculations.MonotoneInCIn` | src/utils/calculations.ts:19-40 | the same for the returned (rounded) fields |
| `Calculations.ScalesWithConversations` | src/utils/calculations.ts:9-32 | multiplying `y` by `k > 0` multiplies tokens and total cost by `k` and leaves the per-message and per-pair costs unchanged |
| `Seqs.Filter` | src/components/InputSection.tsx:36-40 | `filter` returns an order-preserving sublist that holds only passing elements and every passing element |
| `Seqs.FilterMultiplicity` | src/components/InputSection.tsx:36-40 | a passing element occurs in the result exactly as often as in the input, so `filter` never drops a repeat |
| `Seqs.FilterConcat` | src/components/InputSection.tsx:36 | filtering commutes with concatenation |
| `Seqs.FilterSplit` | src/components/InputSection.tsx:39-40 | two tests that disagree on every element divide the list between them |
| `Seqs.IndexOf` | src/components/InputSection.tsx:101-108 | `indexOf` returns -1 exactly when the element is absent, and otherwise the first position holding it |
| `Seqs.IndexOfDistinct` | src/components/InputSection.tsx:101-108 | in a list without repeats, `indexOf` of the element at position `i` is `i` |
| `Catalog.FlattenEntries` | src/types/index.ts:38-114 | one category flattens to presets that keep each declared name and price, tagged with provider and mode |
| `Catalog.FlattenCategories` | src/types/index.ts:38-114 | every preset of a provider carries that provider's name |
| `Catalog.Flatten` | src/types/index.ts:38-114 | every flattened preset names a provider of the table |
| `Catalog.CatalogContents` | src/types/index.ts:38-114 | the table flattens to nine presets in declaration order: Gemini chat, Gemini voice, OpenAI chat, OpenAI voice |
| `Catalog.PricesPositive` | src/types/index.ts:45-109 | every preset's input and output price is > 0 |
| `Catalog.NamesUnique` | src/types/index.ts:46-106 | preset names are pairwise distinct across the whole catalog |
| `Catalog.ProvidersShape` | src/types/index.ts:38-114 | exactly two providers, "Gemini" and "OpenAI", each with a "Chat" category followed by one voice category |
| `Catalog.PresetModes` | src/types/index.ts:38-114 | the mode derived for each of the nine presets, position by position |
| `Catalog.ProvidersOfPresets` | src/types/index.ts:38-114 | every preset belongs to "Gemini" or "OpenAI" |
| `Catalog.Gpt35Turbo` | src/types/index.ts:80-84 | "GPT-3.5 Turbo" sits at position 4 and costs 0.000249 per input token and 0.000498 per output token |
| `App.SetField` | src/App.tsx:26-31 | `{...prev, [field]: value}` sets exactly that key and keeps every other key and the mode |
| `App.HandleInputChange` | src/App.tsx:26-31 | a numeric update sets exactly the named key; a mode update sets only the mode |
| `App.HandlePresetSelect` | src/App.tsx:33-40 | selection sets mode, `cIn` and `cOut`, and leaves every other key unchanged, the token factors included |
| `App.PresetSelectIdempotent` | src/App.tsx:33-40 | applying the same preset twice gives the state after applying it once |
| `App.PresetKeepsChatTokens` | src/App.tsx:33-40 | selecting a chat preset while in chat mode leaves all token fields of the results unchanged |
| `App.ResultsOf` | src/App.tsx:22-24 | the shown results are the 8-decimal roundings of the exact figures for the current inputs |
| `App.ResultsIgnoreStrayKeys` | src/App.tsx:22-24 | states that agree on the mode and on every key the engine reads show the same results |
| `App.StrayEditKeepsResults` | src/components/InputSection.tsx:179-228 | editing `wordToToken`, `T`, `z` or `audioToToken` never changes the results |
| `App.InitialState` | src/App.tsx:7-17 | the initial state is in chat mode, every key is ≥ 0, and its prices are those of "GPT-3.5 Turbo" |
| `App.InitialResults` | src/App.tsx:7-17 | on the initial state: 130 / 325 / 455 tokens, costs 0.03237 / 0.16185 / 0.19422, 0.019422 per message, 0.038844 per pair |
| `InputSection.Sanitize` | src/components/InputSection.tsx:20-21 | the value sent on is ≥ 0; it is positive exactly when the parse gave a positive number, and then it is that number; NaN, 0 and negatives become 0 |
| `InputSection.SanitizeIdempotent` | src/components/InputSection.tsx:20-21 | sanitising a sanitised value changes nothing |
| `InputSection.PresetIndex` | src/components/InputSection.tsx:29-32 | an index is passed on exactly when the parse succeeded and is ≥ 0, and it is passed on unchanged |
| `InputSection.HandlePresetChange` | src/components/InputSection.tsx:28-33 | a negative or unparsable index changes nothing; a valid index applies that preset's mode and prices and keeps every other key |
| `InputSection.PlaceholderSelectsNothing` | src/components/InputSection.tsx:28-33 | the "-1" placeholder and an unparsable value leave the state as it was |
| `InputSection.AvailablePresets` | src/components/InputSection.tsx:36 | the menu lists exactly the catalog presets of the current mode, as a sublist in catalog order |
| `InputSection.ProviderPresets` | src/components/InputSection.tsx:39-40 | one provider's group is exactly that provider's available presets, in order |
| `InputSection.ProviderGroupsDisjoint` | src/components/InputSection.tsx:39-40 | the Gemini and OpenAI groups share no preset, and a preset of any other provider is in neither |
| `InputSection.ProviderGroupsCover` | src/components/InputSection.tsx:39-40 | the two groups together list every available preset, and their sizes add up to the menu's |
| `InputSection.MenuContents` | src/components/InputSection.tsx:36 | chat lists catalog positions 0-1 and 4-6 (five presets); voice lists positions 2-3 and 7-8 (four) |
| `InputSection.OptionValueRoundTrip` | src/components/InputSection.tsx:101-108 | a listed preset's option value indexes the catalog back to that preset, and choosing it applies exactly its prices and mode |
| `InputSection.OptionValueIsPosition` | src/components/InputSection.tsx:101-108 | the option value of the catalog preset at position `k` is `k` |
| `InputSection.MenuChoiceKeepsMode` | src/components/InputSection.tsx:36 | choosing a listed preset never switches the mode |
| `InputSection.Step` | src/components/InputSection.tsx:17-33 | no form event (a box edit, a mode change, a menu choice) changes either token factor |
| `InputSection.StepKeepsNonNegative` | src/components/InputSection.tsx:20-21 | every form event keeps every present key ≥ 0 |
| `InputSection.RunInvariant` | src/components/InputSection.tsx:17-33 | over any sequence of form events, keys stay ≥ 0 and both token factors keep their starting values |
| `InputSection.ReachableStates` | src/components/InputSection.tsx:17-33 | every state reachable from the initial one keeps factors 1.3 and 50 and shows non-negative results |

## Left out

- `formatCurrency` and `formatNumber` are left out. They wrap the
  locale-aware `toLocaleString('en-IN')`, whose output cannot be stated here.
- The CSV export, the file download and the clipboard copy are left out.
  They are I/O, and the CSV rows depend on the locale formatter.
- The results panel and all markup and React hooks are left out. `useMemo`
  is modelled only as "results are recomputed from the inputs".
- IEEE-754 behaviour is left out: rounding error, `Infinity`, `-0`. So is
  what `parseFloat`/`parseInt` accept as text. Parses are abstract optional
  values.
- The form's `onReset` prop is not modelled. The application never supplies
  it, and no reset logic exists in the source.
- `InputSection.HandlePresetChange`: an index past the end of the catalog is
  modelled as "no change". The source has no catalog lookup at all (see
  "Menu → updater glue"), so there is no source behaviour for such an index
  to follow. The menu only offers catalog indices, so the case cannot arise
  from the menu.
- The code as written for preset selection is left out: it passes the index
  where a price is expected and leaves `cOut` and `mode` undefined. The model
  uses the assumed index → preset join instead.
- `InputSection.Step`: a box edit is allowed on any key the form has a box
  for, whatever the mode. The form shows the chat boxes only in chat mode and
  the voice boxes only in voice mode, so the reachable-state lemmas cover a
  superset of the real sequences.
- `App.HandleInputChange`: it is typed so that a numeric key gets a number and
  `mode` gets a mode. The source's loose typing would also allow a mode value
  on a numeric key and the reverse. The form never does either.
- The duration-based voice formula (call length, speaking ratio, silence
  fraction) is not modelled, because the engine has no such formula.
