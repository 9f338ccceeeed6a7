/** The static preset catalog: providers, each with categories, each with
    named presets carrying an input and an output price per token. The
    table is kept in its declared nested shape and flattened into one list
    of presets tagged with provider and mode. */
module Catalog {
  import opened Types

  /** A preset as declared: a name and two prices. */
  datatype Entry = Entry(name: string, cIn: real, cOut: real)
  datatype Category = Category(name: string, presets: seq<Entry>)
  datatype Provider = Provider(name: string, categories: seq<Category>)

  /** The provider table, in declaration order. */
  const ModelProviders: seq<Provider> := [
    Provider("Gemini", [
      Category("Chat", [
        Entry("Gemini Flash", 0.0000062, 0.0000249),
        Entry("Gemini 1.5 Pro", 0.0001038, 0.00083)
      ]),
      Category("Voice / Multimodal", [
        Entry("Gemini Voice (Low)", 0.0000145, 0.00003),
        Entry("Gemini Voice (High)", 0.000058, 0.00012)
      ])
    ]),
    Provider("OpenAI", [
      Category("Chat", [
        Entry("GPT-3.5 Turbo", 0.000249, 0.000498),
        Entry("GPT-4-Mini", 0.000415, 0.00083),
        Entry("GPT-4-Turbo", 0.00249, 0.00498)
      ]),
      Category("Voice / Realtime", [
        Entry("GPT-4o-Mini-TTS", 0.0006, 0.0012),
        Entry("GPT-4o Realtime (High)", 0.009, 0.018)
      ])
    ])
  ]

  /** The mode a category stands for: the "Chat" category is chat, every
      other category is a voice category. */
  function CategoryMode(name: string): Mode {
    if name == "Chat" then Chat else Voice
  }

  /** The presets of one category, tagged with provider and mode. */
  function FlattenEntries(provider: string, mode: Mode, es: seq<Entry>): (r: seq<Preset>)
    ensures |r| == |es|
    ensures forall k :: 0 <= k < |es| ==>
      r[k] == Preset(es[k].name, provider, mode, es[k].cIn, es[k].cOut)
  {
    if |es| == 0 then []
    else [Preset(es[0].name, provider, mode, es[0].cIn, es[0].cOut)]
         + FlattenEntries(provider, mode, es[1..])
  }

  /** The presets of one provider, category after category. */
  function FlattenCategories(provider: string, cs: seq<Category>): (r: seq<Preset>)
    ensures forall k :: 0 <= k < |r| ==> r[k].provider == provider
  {
    if |cs| == 0 then []
    else FlattenEntries(provider, CategoryMode(cs[0].name), cs[0].presets)
         + FlattenCategories(provider, cs[1..])
  }

  /** The whole table, provider after provider. */
  function Flatten(ps: seq<Provider>): (r: seq<Preset>)
    ensures forall k :: 0 <= k < |r| ==>
      exists n :: 0 <= n < |ps| && ps[n].name == r[k].provider
  {
    if |ps| == 0 then []
    else
      var head := FlattenCategories(ps[0].name, ps[0].categories);
      var tail := Flatten(ps[1..]);
      assert forall k :: 0 <= k < |tail| ==>
        exists n :: 0 <= n < |ps| && ps[n].name == tail[k].provider by {
        forall k | 0 <= k < |tail|
          ensures exists n :: 0 <= n < |ps| && ps[n].name == tail[k].provider
        {
          var n :| 0 <= n < |ps[1..]| && ps[1..][n].name == tail[k].provider;
          assert ps[n + 1].name == tail[k].provider;
        }
      }
      head + tail
  }

  /** The flat preset list the menu works on. */
  const ModelPresets: seq<Preset> := Flatten(ModelProviders)

  /** The flat list as written out: nine presets, Gemini chat, Gemini
      voice, OpenAI chat, OpenAI voice. */
  const ExpectedPresets: seq<Preset> := [
    Preset("Gemini Flash", "Gemini", Chat, 0.0000062, 0.0000249),
    Preset("Gemini 1.5 Pro", "Gemini", Chat, 0.0001038, 0.00083),
    Preset("Gemini Voice (Low)", "Gemini", Voice, 0.0000145, 0.00003),
    Preset("Gemini Voice (High)", "Gemini", Voice, 0.000058, 0.00012),
    Preset("GPT-3.5 Turbo", "OpenAI", Chat, 0.000249, 0.000498),
    Preset("GPT-4-Mini", "OpenAI", Chat, 0.000415, 0.00083),
    Preset("GPT-4-Turbo", "OpenAI", Chat, 0.00249, 0.00498),
    Preset("GPT-4o-Mini-TTS", "OpenAI", Voice, 0.0006, 0.0012),
    Preset("GPT-4o Realtime (High)", "OpenAI", Voice, 0.009, 0.018)
  ]

  /** Flattening the nested table gives exactly the nine presets above, in
      declaration order. */
  lemma {:induction false} CatalogContents()
    ensures ModelPresets == ExpectedPresets
    ensures |ModelPresets| == 9
  {
    var g, o := ModelProviders[0], ModelProviders[1];
    var gc := FlattenEntries("Gemini", Chat, g.categories[0].presets);
    var gv := FlattenEntries("Gemini", Voice, g.categories[1].presets);
    var oc := FlattenEntries("OpenAI", Chat, o.categories[0].presets);
    var ov := FlattenEntries("OpenAI", Voice, o.categories[1].presets);
    assert FlattenCategories("Gemini", g.categories) == gc + gv by {
      assert g.categories[1..][1..] == [];
    }
    assert FlattenCategories("OpenAI", o.categories) == oc + ov by {
      assert o.categories[1..][1..] == [];
    }
    assert Flatten(ModelProviders) == gc + gv + (oc + ov) by {
      assert ModelProviders[1..][1..] == [];
    }
    assert gc + gv + (oc + ov) == ExpectedPresets;
  }

  /** Every preset has a strictly positive input and output price. */
  lemma PricesPositive()
    ensures forall k :: 0 <= k < |ModelPresets| ==>
      ModelPresets[k].cIn > 0.0 && ModelPresets[k].cOut > 0.0
  {
    CatalogContents();
  }

  /** Preset names are unique across the whole catalog (they serve as
      list keys in the menu). */
  lemma NamesUnique()
    ensures forall j, k :: 0 <= j < k < |ModelPresets| ==>
      ModelPresets[j].name != ModelPresets[k].name
  {
    CatalogContents();
    DistinctLengths(ExpectedPresets);
  }

  /** The nine names have nine different lengths, so no two are equal. */
  lemma DistinctLengths(cs: seq<Preset>)
    requires |cs| == 9
    requires |cs[0].name| == 12 && |cs[1].name| == 14 && |cs[2].name| == 18
    requires |cs[3].name| == 19 && |cs[4].name| == 13 && |cs[5].name| == 10
    requires |cs[6].name| == 11 && |cs[7].name| == 15 && |cs[8].name| == 22
    ensures forall j, k :: 0 <= j < k < |cs| ==> cs[j].name != cs[k].name
  {
    forall j, k | 0 <= j < k < |cs| ensures |cs[j].name| != |cs[k].name| {
      assert j in {0, 1, 2, 3, 4, 5, 6, 7} && k in {1, 2, 3, 4, 5, 6, 7, 8};
    }
  }

  /** Two providers, "Gemini" and "OpenAI"; each has exactly one "Chat"
      category followed by one voice category. */
  lemma ProvidersShape()
    ensures |ModelProviders| == 2
    ensures ModelProviders[0].name == "Gemini" && ModelProviders[1].name == "OpenAI"
    ensures forall n :: 0 <= n < |ModelProviders| ==>
      && |ModelProviders[n].categories| == 2
      && CategoryMode(ModelProviders[n].categories[0].name) == Chat
      && CategoryMode(ModelProviders[n].categories[1].name) == Voice
  {
  }

  /** The mode of each flat preset, by position. */
  lemma PresetModes()
    ensures |ModelPresets| == 9
    ensures ModelPresets[0].mode == Chat && ModelPresets[1].mode == Chat
    ensures ModelPresets[2].mode == Voice && ModelPresets[3].mode == Voice
    ensures ModelPresets[4].mode == Chat && ModelPresets[5].mode == Chat
    ensures ModelPresets[6].mode == Chat
    ensures ModelPresets[7].mode == Voice && ModelPresets[8].mode == Voice
  {
    CatalogContents();
  }

  /** Every flat preset belongs to "Gemini" or "OpenAI". */
  lemma ProvidersOfPresets()
    ensures forall k :: 0 <= k < |ModelPresets| ==>
      ModelPresets[k].provider == "Gemini" || ModelPresets[k].provider == "OpenAI"
  {
    CatalogContents();
  }

  /** The "GPT-3.5 Turbo" preset sits at position 4 with prices 0.000249
      (input) and 0.000498 (output). */
  lemma Gpt35Turbo()
    ensures ModelPresets[4].name == "GPT-3.5 Turbo"
    ensures ModelPresets[4].cIn == 0.000249 && ModelPresets[4].cOut == 0.000498
  {
    CatalogContents();
  }
}
