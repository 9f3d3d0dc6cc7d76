/**
 * The style presets of lib/presets.ts. This module holds the shape of a preset and the
 * functions the routes use on any preset table; `PresetTable` holds the constant table.
 */
module Presets {
  import opened Wrappers

  /** A style preset; `rainbowBorder` is optional in the source and set only on one preset. */
  datatype Preset = Preset(
    id: string,
    name: string,
    description: string,
    prompts: seq<Prompt>,
    requiresRefs: bool,
    rainbowBorder: Option<bool>)

  /**
   * A prompt, written in the source as the template `${style}. <scene>`. The scene
   * sentences are free text that no decision depends on; the model names each one by
   * its preset and its position instead of copying it.
   */
  datatype Prompt = Prompt(style: string, presetId: string, scene: nat)

  /**
   * The text of a prompt: its style, ". ", then its scene sentence, which `scenes` gives
   * for the preset id and the position.
   */
  function PromptText(p: Prompt, scenes: (string, nat) -> string): string
  {
    p.style + ". " + scenes(p.presetId, p.scene)
  }

  /** Every prompt text opens with its style sentence. */
  lemma PromptTextOpensWithStyle(p: Prompt, scenes: (string, nat) -> string)
    ensures p.style + "." <= PromptText(p, scenes)
  {
  }

  /**
   * The texts of a preset's prompts, in order: `preset.prompts` as the source holds it.
   * There is one text per prompt, and each opens with its prompt's style sentence.
   */
  function PromptTexts(prompts: seq<Prompt>, scenes: (string, nat) -> string): (r: seq<string>)
    ensures |r| == |prompts| && forall i :: 0 <= i < |r| ==> r[i] == PromptText(prompts[i], scenes)
    ensures forall i :: 0 <= i < |r| ==> prompts[i].style + "." <= r[i]
  {
    seq(|prompts|, (i: int) requires 0 <= i < |prompts| => PromptText(prompts[i], scenes))
  }

  /** `getPreset` over a given table: the entry, or None for an id that is not a key. */
  function Lookup(table: map<string, Preset>, id: string): (r: Option<Preset>)
    ensures r.Some? <==> id in table
    ensures r.Some? ==> r.value == table[id]
  {
    if id in table then Some(table[id]) else None
  }

}

/**
 * The constant table of lib/presets.ts: preset id to display fields and four generation
 * prompts, the display order, and the two lookups. `PRESETS` is a finite map, so
 * `getPreset` of a name that is not a preset id is None.
 */
module PresetTable {
  import opened Wrappers
  import opened Presets

  /** The style sentence every prompt starts with. */
  const GenericStyle: string := "The person is in a Canadian setting, natural composition, make the person look happy and relaxed, friendly atmosphere, realistic photo, high-resolution, cinematic detail, even lighting preserving all facial features, natural confident expression, photorealistic portrait quality, be creative. Do not just place the persons face to the picture. Blend the person into the picture with right proportions."

  const MapleAutumn: Preset := Preset(
    "mapleAutumn",
    "Maple Autumn",
    "Golden fall leaves and cozy Canadian atmosphere",
    [
      Prompt(GenericStyle, "mapleAutumn", 0),
      Prompt(GenericStyle, "mapleAutumn", 1),
      Prompt(GenericStyle, "mapleAutumn", 2),
      Prompt(GenericStyle, "mapleAutumn", 3)
    ],
    false,
    None)

  const WinterWonderland: Preset := Preset(
    "winterWonderland",
    "Winter Wonderland",
    "Snowy Canadian winter moments",
    [
      Prompt(GenericStyle, "winterWonderland", 0),
      Prompt(GenericStyle, "winterWonderland", 1),
      Prompt(GenericStyle, "winterWonderland", 2),
      Prompt(GenericStyle, "winterWonderland", 3)
    ],
    false,
    None)

  const NorthernLights: Preset := Preset(
    "northernLights",
    "Northern Lights",
    "Magical aurora and night sky filters",
    [
      Prompt(GenericStyle, "northernLights", 0),
      Prompt(GenericStyle, "northernLights", 1),
      Prompt(GenericStyle, "northernLights", 2),
      Prompt(GenericStyle, "northernLights", 3)
    ],
    false,
    None)

  const CottageLife: Preset := Preset(
    "cottageLife",
    "Cottage Life",
    "Peaceful lakefront and cozy cabin filters",
    [
      Prompt(GenericStyle, "cottageLife", 0),
      Prompt(GenericStyle, "cottageLife", 1),
      Prompt(GenericStyle, "cottageLife", 2),
      Prompt(GenericStyle, "cottageLife", 3)
    ],
    false,
    None)

  const UrbanCanada: Preset := Preset(
    "urbanCanada",
    "Urban Canada",
    "Modern Canadian city life filter",
    [
      Prompt(GenericStyle, "urbanCanada", 0),
      Prompt(GenericStyle, "urbanCanada", 1),
      Prompt(GenericStyle, "urbanCanada", 2),
      Prompt(GenericStyle, "urbanCanada", 3)
    ],
    false,
    None)

  const IlacSceneMatch: Preset := Preset(
    "ilacSceneMatch",
    "ILAC Campus (Toronto)",
    "Places the person naturally into ILAC Toronto school interiors: lobby, corridors, and themed halls.",
    [
      Prompt(GenericStyle, "ilacSceneMatch", 0),
      Prompt(GenericStyle, "ilacSceneMatch", 1),
      Prompt(GenericStyle, "ilacSceneMatch", 2),
      Prompt(GenericStyle, "ilacSceneMatch", 3)
    ],
    true,
    Some(true))

  const WildernessExplorer: Preset := Preset(
    "wildernessExplorer",
    "Wilderness Explorer",
    "Wild landscapes and adventure scenes",
    [
      Prompt(GenericStyle, "wildernessExplorer", 0),
      Prompt(GenericStyle, "wildernessExplorer", 1),
      Prompt(GenericStyle, "wildernessExplorer", 2),
      Prompt(GenericStyle, "wildernessExplorer", 3)
    ],
    false,
    None)

  const EditorialCanada: Preset := Preset(
    "editorialCanada",
    "Editorial Canada",
    "Stylish portrait filters inspired by Canadian fashion & culture",
    [
      Prompt(GenericStyle, "editorialCanada", 0),
      Prompt(GenericStyle, "editorialCanada", 1),
      Prompt(GenericStyle, "editorialCanada", 2),
      Prompt(GenericStyle, "editorialCanada", 3)
    ],
    false,
    None)

  const CanadianWildlifeParty: Preset := Preset(
    "canadianWildlifeParty",
    "Canadian Wildlife Party",
    "Funny and surreal wildlife interactions in Canadian settings",
    [
      Prompt(GenericStyle, "canadianWildlifeParty", 0),
      Prompt(GenericStyle, "canadianWildlifeParty", 1),
      Prompt(GenericStyle, "canadianWildlifeParty", 2),
      Prompt(GenericStyle, "canadianWildlifeParty", 3)
    ],
    false,
    None)

  const EhEdition: Preset := Preset(
    "ehEdition",
    "Eh Edition",
    "Lighthearted and comedic takes on Canadian stereotypes",
    [
      Prompt(GenericStyle, "ehEdition", 0),
      Prompt(GenericStyle, "ehEdition", 1),
      Prompt(GenericStyle, "ehEdition", 2),
      Prompt(GenericStyle, "ehEdition", 3)
    ],
    false,
    None)

  const Withus: Preset := Preset(
    "withus",
    "With Us",
    "User appears with two reference hosts in Canadian settings",
    [
      Prompt(GenericStyle, "withus", 0),
      Prompt(GenericStyle, "withus", 1),
      Prompt(GenericStyle, "withus", 2),
      Prompt(GenericStyle, "withus", 3)
    ],
    true,
    None)

  const PRESETS: map<string, Preset> := map[
    "mapleAutumn" := MapleAutumn,
    "winterWonderland" := WinterWonderland,
    "northernLights" := NorthernLights,
    "cottageLife" := CottageLife,
    "urbanCanada" := UrbanCanada,
    "ilacSceneMatch" := IlacSceneMatch,
    "wildernessExplorer" := WildernessExplorer,
    "editorialCanada" := EditorialCanada,
    "canadianWildlifeParty" := CanadianWildlifeParty,
    "ehEdition" := EhEdition,
    "withus" := Withus
  ]

  const PRESET_ORDER: seq<string> := [
    "mapleAutumn",
    "winterWonderland",
    "northernLights",
    "cottageLife",
    "urbanCanada",
    "ilacSceneMatch",
    "wildernessExplorer",
    "editorialCanada",
    "canadianWildlifeParty",
    "ehEdition",
    "withus"
  ]

  /**
   * `getPreset(id)`: the table entry, or None for an id that is not in the table. Exactly
   * the ids of the display order are found, and a found preset has that id and four prompts.
   */
  function GetPreset(id: string): (r: Option<Preset>)
    ensures r.Some? <==> id in PRESETS
    ensures r.Some? <==> id in PRESET_ORDER
    ensures r.Some? ==> r.value == PRESETS[id] && r.value.id == id && |r.value.prompts| == 4
  {
    OrderCoversPresets();
    IdsMatchKeys();
    FourPromptsEach();
    if id in PRESETS then Some(PRESETS[id]) else None
  }

  /** `getAllPresets()`: `PRESET_ORDER.map(id => PRESETS[id])`, None standing for `undefined`. */
  function GetAllPresets(): (r: seq<Option<Preset>>)
    ensures |r| == |PRESET_ORDER|
    ensures forall i :: 0 <= i < |r| ==> r[i] == GetPreset(PRESET_ORDER[i])
    ensures forall i :: 0 <= i < |r| ==> r[i].Some? && r[i].value.id == PRESET_ORDER[i]
  {
    seq(|PRESET_ORDER|, i requires 0 <= i < |PRESET_ORDER| => GetPreset(PRESET_ORDER[i]))
  }

  // ---------------------------------------------------------------- table facts

  /** The eleven preset ids. */
  lemma PresetKeys()
    ensures PRESETS.Keys == {"mapleAutumn", "winterWonderland", "northernLights", "cottageLife", "urbanCanada", "ilacSceneMatch", "wildernessExplorer", "editorialCanada", "canadianWildlifeParty", "ehEdition", "withus"}
  {
  }

  /** `PRESET_ORDER` lists every key of `PRESETS` and nothing else. */
  lemma OrderCoversPresets()
    ensures forall i :: 0 <= i < |PRESET_ORDER| ==> PRESET_ORDER[i] in PRESETS
    ensures forall k :: k in PRESETS ==> k in PRESET_ORDER
  {
    PresetKeys();
  }

  /** No id appears twice in `PRESET_ORDER`, so the eleven entries are eleven different presets. */
  lemma OrderHasNoDuplicates()
    ensures |PRESET_ORDER| == 11
    ensures forall i, j :: 0 <= i < j < |PRESET_ORDER| ==> PRESET_ORDER[i] != PRESET_ORDER[j]
  {
  }

  /** Every entry's `id` is its own key. */
  lemma IdsMatchKeys()
    ensures forall k :: k in PRESETS ==> PRESETS[k].id == k
  {
    PresetKeys();
  }

  /** Every preset has exactly four prompts. */
  lemma FourPromptsEach()
    ensures forall k :: k in PRESETS ==> |PRESETS[k].prompts| == 4
  {
    PresetKeys();
  }

  /** The prompts of `p` are the generic style followed by `p`'s own scenes, in order. */
  predicate Styled(p: Preset)
  {
    forall i :: 0 <= i < |p.prompts| ==> p.prompts[i] == Prompt(GenericStyle, p.id, i)
  }

  lemma MapleToNorthernStyled()
    ensures Styled(MapleAutumn)
    ensures Styled(WinterWonderland)
    ensures Styled(NorthernLights)
  {
  }

  lemma CottageToIlacStyled()
    ensures Styled(CottageLife)
    ensures Styled(UrbanCanada)
    ensures Styled(IlacSceneMatch)
  {
  }

  lemma WildernessToWildlifeStyled()
    ensures Styled(WildernessExplorer)
    ensures Styled(EditorialCanada)
    ensures Styled(CanadianWildlifeParty)
  {
  }

  lemma EhAndWithusStyled()
    ensures Styled(EhEdition)
    ensures Styled(Withus)
  {
  }

  /** Each prompt is the generic style followed by one of the preset's own scenes, in order. */
  lemma PromptsAreStyled()
    ensures forall k :: k in PRESETS ==> Styled(PRESETS[k])
  {
    PresetKeys();
    MapleToNorthernStyled();
    CottageToIlacStyled();
    WildernessToWildlifeStyled();
    EhAndWithusStyled();
  }

  /** `getAllPresets()` never yields `undefined`: it is the eleven presets, in display order. */
  lemma AllPresetsInOrder()
    ensures |GetAllPresets()| == 11
    ensures forall i :: 0 <= i < 11 ==>
      GetAllPresets()[i].Some? && GetAllPresets()[i].value.id == PRESET_ORDER[i]
  {
    OrderCoversPresets();
    IdsMatchKeys();
  }

  /** Reference photos are required by exactly the ILAC campus preset and the "With Us" preset. */
  lemma RequiresRefsExactly()
    ensures forall k :: k in PRESETS ==> (PRESETS[k].requiresRefs <==> k == "ilacSceneMatch" || k == "withus")
  {
    PresetKeys();
  }

  /** Every prompt text of every preset starts with the generic style sentence and a full stop. */
  lemma PromptTextsStartWithStyle(scenes: (string, nat) -> string)
    ensures forall k, i :: k in PRESETS && 0 <= i < |PRESETS[k].prompts| ==>
      GenericStyle + "." <= PromptText(PRESETS[k].prompts[i], scenes)
  {
    PromptsAreStyled();
    forall k, i | k in PRESETS && 0 <= i < |PRESETS[k].prompts|
      ensures GenericStyle + "." <= PromptText(PRESETS[k].prompts[i], scenes)
    {
      PromptTextOpensWithStyle(PRESETS[k].prompts[i], scenes);
    }
  }

  /** `getPreset` is the lookup in `PRESETS`. */
  lemma GetPresetIsLookup(id: string)
    ensures GetPreset(id) == Lookup(PRESETS, id)
  {
  }
}
