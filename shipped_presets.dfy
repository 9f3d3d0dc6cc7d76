/**
 * The two generation routes run against the constant table of lib/presets.ts. These
 * lemmas instantiate the routes' properties with that table.
 */
module ShippedPresets {
  import opened Wrappers
  import opened JsValues
  import opened Http
  import PresetTable
  import PreviewRoute
  import GenerateRoute

  /** Previews refuse exactly the ILAC campus preset and the "With Us" preset. */
  lemma PreviewRefusesReferencePresets(ip: string, io: PreviewRoute.PreviewIo)
    requires io.form.Ok? && io.form.value.photo.Some? && Truthy(io.form.value.presetId)
    requires io.form.value.presetId.value in PresetTable.PRESETS
    ensures PreviewRoute.Admitted(ip, io, PresetTable.PRESETS) == Failure(403, PreviewRoute.PaidOnlyError)
      <==> io.form.value.presetId.value == "ilacSceneMatch" || io.form.value.presetId.value == "withus"
  {
    PresetTable.RequiresRefsExactly();
  }

  /** The paid route sends reference photos only for those two presets. */
  lemma ReferencesOnlyForReferencePresets(photo: Photo, presetId: string, io: GenerateRoute.GenerateIo)
    requires presetId in PresetTable.PRESETS
    requires io.refA.Ok? && io.refB.Ok?
    ensures GenerateRoute.RequestOptions(photo, PresetTable.PRESETS[presetId], io).referenceImages.Some?
      <==> presetId == "ilacSceneMatch" || presetId == "withus"
  {
    PresetTable.RequiresRefsExactly();
    GenerateRoute.ReferencesOnlyWhenRequired(photo, PresetTable.PRESETS[presetId], io);
  }
}
