# DD-AWF01 watch face: configuration core, modelled in Dafny

DD-AWF01 is an analog Wear OS watch face with three complication slots: a full-screen BACKGROUND image and two round slots, LEFT and RIGHT. It has three user preferences: background colour, highlight (second hand) colour, and whether unread notifications are shown. A companion configuration screen lists six rows: a live preview with tappable complication buttons, a "more options" hint, two colour rows, the unread switch, and a background-image row. Tapping a slot starts the system's provider chooser. Tapping either colour row opens the same colour picker. The picker only ever writes the background colour, so the marker-colour row cannot change the highlight colour (`ColorSelection.ColorChosen`). The result of each comes back to the configuration activity, which forwards it to the list adapter, and the adapter updates the preview.

The model covers:

- **Slot catalog** (`complications.dfy`): each slot's id and supported data types, `getAllIds` and `valuesReverse`.
- **Preferences** (`settings.dfy`):
  - `Colors` holds Java's signed 32-bit ARGB colour ints.
  - `Settings` holds a preference file modelled as a map from key to typed value.
  - The `WatchFaceSettings` class holds reload (hand and shadow colours derived from the background), commit, and the round trip between them.
- **Config rows and palette** (`config_data.dfy`): the 21-colour palette, the six rows and each row's view type.
- **List adapter** (`config_adapter.dfy`):
  - the `ConfigAdapter` class, with its view-holder factory and binding, the selected complication id, and the two result handlers;
  - its inner `PreviewAndComplicationsViewHolder`, whose preview state lives in `preview.dfy` as values.
  - Members ending in `AsWritten` model the code exactly as written where it differs from the corrected behaviour (see Findings).
- **Preview** (`preview.dfy`): per-slot rendering, colour application, dispatch of provider results by id, and the result stream of the initial provider lookup.
- **Config activity** (`config_activity.dfy`): request and result codes, and the router from `onActivityResult` to the adapter.
- **Top-level view holders** (`view_holders.dfy`):
  - the stand-alone preview holder, which keeps its own target slot;
  - the colour-picker, unread-switch and background-image rows.
- **Colour pickers**: the Kotlin one (`color_selection.dfy`) and the Java one (`java_color_selection.dfy`).
- **Watch-face engine** (`engine.dfy`) covers only the engine's integer and flag logic:
  - complication bounds, computed with Java's truncating `/`;
  - mute alphas;
  - the back-to-front tap scan;
  - ambient, visibility and timer flags;
  - time-zone receiver registration;
  - the unread indicator and the background colour.

Objects the source updates in place are classes with `modifies` and `reads` clauses. Pure logic is functions and lemmas. The methods are specified by the functions in `settings.dfy` and `preview.dfy`, and the lemmas are stated about those functions.

`WatchFacePreferences` is used throughout the source but is not part of this model. From the way it is used, the model takes it to be `WatchFaceSettings`:

- the no-argument constructor gives the field defaults;
- `WatchFacePreferences(context)` is construction followed by `reloadSavedPreferences(context)`, which is `WatchFaceSettings.FromContext`.

Calls that take a `Context` take the preference file (`Store`) as a parameter, and commits return the new file.

Where the repository's design description and the code disagree, the model follows the code:

- Bulk provider results and chooser results are applied in arrival order, last one wins. Nothing lets a user's choice override a later bulk result (`Preview.SameIdLastWins`, `Preview.LookupResultsLastWins`).
- The adapter's selected complication id is never reset after a result (`ConfigListAdapter.ConfigAdapter.UpdateSelectedComplication`).
- The adapter's preview applies the highlight colour even when a background image is set. Only the background colour is withheld, with a notice (`Preview.ApplyColorsChecked`).
- Starting any edit from the adapter's preview clears the background-image flag, including a LEFT or RIGHT edit (`ConfigListAdapter.PreviewAndComplicationsViewHolder.LaunchComplicationHelperActivity`).
- The engine derives the hand and shadow colours only in `loadSavedPreferences`. `onVisibilityChanged` reloads the preferences object but keeps the engine's own hand colours (`WatchFaceEngine.Engine.OnVisibilityChanged`).

## Model

| member | source | states |
|---|---|---|
| Complications.IdsOf | Wearable/src/main/java/com/deviantdev/wearable/watchface/WatchFaceComplicationConfiguration.kt:28 | the ids have one entry per slot, and entry i is slot i's id (the `map { it.id }`) |
| Complications.GetAllIds | Wearable/src/main/java/com/deviantdev/wearable/watchface/WatchFaceComplicationConfiguration.kt:27-29 | `getAllIds` is [0, 100, 101], the ids in declaration order, as many as there are enum constants |
| Complications.Reversed | Wearable/src/main/java/com/deviantdev/wearable/watchface/WatchFaceComplicationConfiguration.kt:32 | `reversedArray` keeps the length and puts element |s|-1-i at position i |
| Complications.ValuesReverse | Wearable/src/main/java/com/deviantdev/wearable/watchface/WatchFaceComplicationConfiguration.kt:31-33 | `valuesReverse` is [RIGHT, LEFT, BACKGROUND] |
| Complications.SlotIdsDistinctNonNegative | Wearable/src/main/java/com/deviantdev/wearable/watchface/WatchFaceComplicationConfiguration.kt:8-24 | the ids are 0, 100 and 101, pairwise distinct and all >= 0 as the provider chooser requires |
| Complications.SupportedTypesTable | Wearable/src/main/java/com/deviantdev/wearable/watchface/WatchFaceComplicationConfiguration.kt:12-24 | BACKGROUND takes only LARGE_IMAGE; LEFT and RIGHT take the same four types, none of them LARGE_IMAGE |
| Complications.ReversedTwice | Wearable/src/main/java/com/deviantdev/wearable/watchface/WatchFaceComplicationConfiguration.kt:31-33 | reversing twice gives back the original sequence, for every sequence |
| Complications.ValuesReverseTwice | Wearable/src/main/java/com/deviantdev/wearable/watchface/WatchFaceComplicationConfiguration.kt:31-33 | `valuesReverse` reversed again is `values()` |
| Colors.Unsigned | Wearable/src/main/java/com/deviantdev/wearable/watchface/WatchFaceSettings.kt:8-11 | a Java colour int read as its unsigned 32-bit ARGB word, congruent modulo 2^32 |
| Colors.Alpha | Wearable/src/main/java/com/deviantdev/wearable/watchface/WatchFaceSettings.kt:8-11 | a colour's alpha is a byte |
| Colors.Opaque | Wearable/src/main/java/com/deviantdev/wearable/watchface/model/AnalogComplicationConfigData.kt:52-77 | `Color.parseColor("#RRGGBB")` is a negative int with alpha 0xFF whose low 24 bits are the rgb |
| Colors.ColorConstants | Wearable/src/main/java/com/deviantdev/wearable/watchface/WatchFaceSettings.kt:8-11 | BLACK, WHITE, RED and GRAY are the opaque words #000000, #FFFFFF, #FF0000, #888888 |
| Settings.PreferenceKeysDistinct | Wearable/src/main/java/com/deviantdev/wearable/watchface/WatchFaceSettings.kt:43-48 | the three preference keys are pairwise distinct |
| Settings.GetInt | Wearable/src/main/java/com/deviantdev/wearable/watchface/WatchFaceSettings.kt:20-21 | a missing key reads as the default; a stored int reads as itself |
| Settings.GetBoolean | Wearable/src/main/java/com/deviantdev/wearable/watchface/WatchFaceSettings.kt:29 | a missing key reads as the default; a stored boolean reads as itself |
| Settings.HandColorFor | Wearable/src/main/java/com/deviantdev/wearable/watchface/WatchFaceSettings.kt:22-28 | hands are BLACK or WHITE, and BLACK exactly when the background is WHITE |
| Settings.ShadowColorFor | Wearable/src/main/java/com/deviantdev/wearable/watchface/WatchFaceSettings.kt:22-28 | the shadow is BLACK or WHITE and always the other colour from the hands |
| Settings.Loaded | Wearable/src/main/java/com/deviantdev/wearable/watchface/WatchFaceSettings.kt:16-30 | reload reads background (default BLACK), highlight (default RED), unread (default true), and hands BLACK/shadow WHITE iff background is WHITE, else hands WHITE/shadow BLACK |
| Settings.Committed | Wearable/src/main/java/com/deviantdev/wearable/watchface/WatchFaceSettings.kt:32-40 | commit adds exactly the three preference keys and leaves every other key's value as it was |
| Settings.ReloadWithMissingKeys | Wearable/src/main/java/com/deviantdev/wearable/watchface/WatchFaceSettings.kt:20-29 | with none of the keys saved, reload gives BLACK, RED, WHITE hands, BLACK shadow, unread on |
| Settings.FreshDefaultsNotDerived | Wearable/src/main/java/com/deviantdev/wearable/watchface/WatchFaceSettings.kt:8-11 | a fresh object has BLACK background and BLACK hands, which reload would never derive |
| Settings.CommitReloadRoundTrip | Wearable/src/main/java/com/deviantdev/wearable/watchface/WatchFaceSettings.kt:16-40 | commit then reload gives back background, highlight and unread, with hand and shadow re-derived |
| Settings.ReloadCommitReload | Wearable/src/main/java/com/deviantdev/wearable/watchface/WatchFaceSettings.kt:16-40 | saving what was just loaded and loading again changes nothing |
| Settings.CommitIdempotent | Wearable/src/main/java/com/deviantdev/wearable/watchface/WatchFaceSettings.kt:32-40 | committing the same fields twice equals committing once |
| Settings.WatchFaceSettings.constructor | Wearable/src/main/java/com/deviantdev/wearable/watchface/WatchFaceSettings.kt:8-14 | a fresh object holds BLACK, RED, BLACK hands, WHITE shadow and unread true |
| Settings.WatchFaceSettings.FromContext | Wearable/src/main/java/com/deviantdev/wearable/watchface/WatchFaceSettings.kt:16-30 | a preferences object made from a context holds what reload reads from the file |
| Settings.WatchFaceSettings.ReloadSavedPreferences | Wearable/src/main/java/com/deviantdev/wearable/watchface/WatchFaceSettings.kt:16-30 | all five fields become `Loaded(store)` |
| Settings.WatchFaceSettings.CommitChangedPreferences | Wearable/src/main/java/com/deviantdev/wearable/watchface/WatchFaceSettings.kt:32-40 | the file afterwards is `Committed(store, fields)`: the three keys hold the three fields; the object is unchanged |
| ViewTypes.ViewTypesDistinct | Wearable/src/main/java/com/deviantdev/wearable/watchface/config/list/AnalogComplicationConfigRecyclerViewAdapter.kt:415-419 | the five view-type constants are 0..4 and pairwise distinct |
| ConfigData.ConfigItem.ConfigType | Wearable/src/main/java/com/deviantdev/wearable/watchface/model/AnalogComplicationConfigData.kt:128-179 | every item's configType is one of the five view types |
| ConfigData.ConfigTypeByClassOnly | Wearable/src/main/java/com/deviantdev/wearable/watchface/model/AnalogComplicationConfigData.kt:135-179 | two items have the same configType iff they are of the same class, whatever their arguments |
| ConfigData.ColorOptionsDataSet | Wearable/src/main/java/com/deviantdev/wearable/watchface/model/AnalogComplicationConfigData.kt:49-80 | 21 opaque colours, #FFFFFF first and #000000 last |
| ConfigData.ConfigTypes | Wearable/src/main/java/com/deviantdev/wearable/watchface/model/AnalogComplicationConfigData.kt:128-130 | the configType of each row, one per row, in order |
| ConfigData.GetDataToPopulateAdapter | Wearable/src/main/java/com/deviantdev/wearable/watchface/model/AnalogComplicationConfigData.kt:86-122 | six rows: preview, more options, marker colour, background colour, unread, background image; types [0,1,2,2,3,4]; both colour rows launch ColorSelectionActivity |
| ConfigData.OnlyColorRowsShareType | Wearable/src/main/java/com/deviantdev/wearable/watchface/model/AnalogComplicationConfigData.kt:99-106 | the two colour rows (positions 2 and 3) are the only rows that share a configType |
| Preview.SlotViewFor | Wearable/src/main/java/com/deviantdev/wearable/watchface/config/list/AnalogComplicationConfigRecyclerViewAdapter.kt:373-385 | with a provider: its icon, the edit description with app and provider name, ring visible; without: the default drawable, the add description, ring invisible |
| Preview.ShowBackgroundProvider | Wearable/src/main/java/com/deviantdev/wearable/watchface/config/list/AnalogComplicationConfigRecyclerViewAdapter.kt:337-361 | the flag is set iff a provider is present; present: gray filter and the provider icon; absent: the preference colour and no image; the side slots untouched |
| Preview.SetDefaultDrawable | Wearable/src/main/java/com/deviantdev/wearable/watchface/config/list/AnalogComplicationConfigRecyclerViewAdapter.kt:321-330 | both buttons show the default drawable with their rings hidden; the flag is kept |
| Preview.ApplyColorsChecked | Wearable/src/main/java/com/deviantdev/wearable/watchface/config/list/AnalogComplicationConfigRecyclerViewAdapter.kt:277-301 | the notice fires iff the background flag is set; the background colour is applied only without it; the highlight always |
| Preview.ApplyColorsUnchecked | Wearable/src/main/java/com/deviantdev/wearable/watchface/config/list/AnalogComplicationConfigViewHolders.kt:80-87 | both colours are applied whatever the flag, which is kept |
| Preview.BackgroundResultSetsFlag | Wearable/src/main/java/com/deviantdev/wearable/watchface/config/list/AnalogComplicationConfigRecyclerViewAdapter.kt:337-361 | a BACKGROUND result sets the flag iff a provider is present and keeps the side slots |
| Preview.SideResultTouchesOnlyItsSlot | Wearable/src/main/java/com/deviantdev/wearable/watchface/config/list/AnalogComplicationConfigRecyclerViewAdapter.kt:363-370 | a LEFT or RIGHT result keeps the background flag, image and colour, the highlight, the default drawable and the other side slot, and does not depend on the background colour preference |
| Preview.UnknownIdChangesNothing | Wearable/src/main/java/com/deviantdev/wearable/watchface/config/list/AnalogComplicationConfigRecyclerViewAdapter.kt:337-371 | a result for an id that is not a slot id changes nothing |
| Preview.DispatchByIdMatchesTarget | Wearable/src/main/java/com/deviantdev/wearable/watchface/config/list/AnalogComplicationConfigViewHolders.kt:100-132 | dispatching on a slot's id (inner holder) and on a stored slot (top-level holder) give the same preview |
| Preview.UpdatesKeepFlagShowsImage | Wearable/src/main/java/com/deviantdev/wearable/watchface/config/list/AnalogComplicationConfigRecyclerViewAdapter.kt:277-385 | every update keeps: background flag set implies a provider icon is shown as the background |
| Preview.DistinctIdsCommute | Wearable/src/main/java/com/deviantdev/wearable/watchface/config/list/AnalogComplicationConfigRecyclerViewAdapter.kt:401-409 | results for different ids commute: lookup callbacks for different slots may arrive in any order |
| Preview.SameIdLastWins | Wearable/src/main/java/com/deviantdev/wearable/watchface/config/list/AnalogComplicationConfigRecyclerViewAdapter.kt:401-409 | a later result for an id replaces an earlier one; there is no precedence rule |
| Preview.LastResultFor | Wearable/src/main/java/com/deviantdev/wearable/watchface/config/list/AnalogComplicationConfigRecyclerViewAdapter.kt:401-409 | none iff no result names the id; otherwise the provider of a result for the id after which no result names it again, i.e. of the last one |
| Preview.ApplyLookupResultsSnoc | Wearable/src/main/java/com/deviantdev/wearable/watchface/config/list/AnalogComplicationConfigRecyclerViewAdapter.kt:401-409 | applying a run of results then one more is applying the longer run |
| Preview.LookupKeepsDefaultDrawable | Wearable/src/main/java/com/deviantdev/wearable/watchface/config/list/AnalogComplicationConfigRecyclerViewAdapter.kt:401-409 | provider results never change the default drawable |
| Preview.LookupResultsLastWins | Wearable/src/main/java/com/deviantdev/wearable/watchface/config/list/AnalogComplicationConfigRecyclerViewAdapter.kt:401-409 | after any run of callbacks LEFT and RIGHT show what the last result for their id says. For BACKGROUND, the flag, image and colour filter follow the last BACKGROUND result: a provider gives its icon on gray, no provider gives no image over the preference colour, and no result leaves all three as they were. The highlight filter is untouched, and flag-implies-image survives any run |
| ConfigListAdapter.HolderFor | Wearable/src/main/java/com/deviantdev/wearable/watchface/config/list/AnalogComplicationConfigRecyclerViewAdapter.kt:93-126 | a holder is made exactly for the five view-type constants; anything else gives null |
| ConfigListAdapter.BindingFor | Wearable/src/main/java/com/deviantdev/wearable/watchface/config/list/AnalogComplicationConfigRecyclerViewAdapter.kt:128-193 | no branch for an unknown view type; a failed cast iff the row's configType differs from the holder's view type |
| ConfigListAdapter.RowTypeSelectsItsHolder | Wearable/src/main/java/com/deviantdev/wearable/watchface/config/list/AnalogComplicationConfigRecyclerViewAdapter.kt:93-193 | a row's configType makes the holder for its class, so binding it never fails a cast |
| ConfigListAdapter.SelectedUpdate | Wearable/src/main/java/com/deviantdev/wearable/watchface/config/list/AnalogComplicationConfigRecyclerViewAdapter.kt:207-216 | with no slot selected (id < 0) or a non-slot id nothing changes; else the per-id update |
| ConfigListAdapter.PreviewAndComplicationsViewHolder.constructor | Wearable/src/main/java/com/deviantdev/wearable/watchface/config/list/AnalogComplicationConfigRecyclerViewAdapter.kt:236-260 | a new holder belongs to its adapter and shows the inflated layout with the flag false |
| ConfigListAdapter.PreviewAndComplicationsViewHolder.OnClick | Wearable/src/main/java/com/deviantdev/wearable/watchface/config/list/AnalogComplicationConfigRecyclerViewAdapter.kt:262-275 | LEFT or RIGHT starts that slot's edit (selected id, chooser intent); any other view changes nothing |
| ConfigListAdapter.PreviewAndComplicationsViewHolder.LaunchComplicationHelperActivity | Wearable/src/main/java/com/deviantdev/wearable/watchface/config/list/AnalogComplicationConfigRecyclerViewAdapter.kt:305-319 | the adapter's selected id becomes the slot's id, the background flag is cleared, and the chooser intent carries the slot's id, types and request code 1001 |
| ConfigListAdapter.PreviewAndComplicationsViewHolder.UpdateWatchFaceColors | Wearable/src/main/java/com/deviantdev/wearable/watchface/config/list/AnalogComplicationConfigRecyclerViewAdapter.kt:277-301 | the preview becomes `ApplyColorsChecked` of the adapter's preference colours; the notice fires iff the flag was set |
| ConfigListAdapter.PreviewAndComplicationsViewHolder.SetDefaultComplicationDrawable | Wearable/src/main/java/com/deviantdev/wearable/watchface/config/list/AnalogComplicationConfigRecyclerViewAdapter.kt:321-330 | the preview becomes `SetDefaultDrawable` of the old one |
| ConfigListAdapter.PreviewAndComplicationsViewHolder.UpdateComplicationViews | Wearable/src/main/java/com/deviantdev/wearable/watchface/config/list/AnalogComplicationConfigRecyclerViewAdapter.kt:332-371 | the preview becomes the per-id update of the old one for the given provider |
| ConfigListAdapter.PreviewAndComplicationsViewHolder.UpdateComplicationView | Wearable/src/main/java/com/deviantdev/wearable/watchface/config/list/AnalogComplicationConfigRecyclerViewAdapter.kt:373-385 | one slot's view is `SlotViewFor` the provider and the holder's default drawable |
| ConfigListAdapter.PreviewAndComplicationsViewHolder.InitializesColorsAndComplications | Wearable/src/main/java/com/deviantdev/wearable/watchface/config/list/AnalogComplicationConfigRecyclerViewAdapter.kt:387-410 | highlight colour and gray background are set, and the lookup asks for exactly `getAllIds` |
| ConfigListAdapter.ConfigAdapter.constructor | Wearable/src/main/java/com/deviantdev/wearable/watchface/config/list/AnalogComplicationConfigRecyclerViewAdapter.kt:61-91 | a new adapter has its rows, preferences loaded from the file, no slot selected (-1) and no preview holder |
| ConfigListAdapter.ConfigAdapter.GetItemViewType | Wearable/src/main/java/com/deviantdev/wearable/watchface/config/list/AnalogComplicationConfigRecyclerViewAdapter.kt:195-198 | the view type at p is row p's configType, a view type whose holder is the one for row p's class |
| ConfigListAdapter.ConfigAdapter.GetItemCount | Wearable/src/main/java/com/deviantdev/wearable/watchface/config/list/AnalogComplicationConfigRecyclerViewAdapter.kt:200-202 | the count is the number of rows |
| ConfigListAdapter.ConfigAdapter.OnCreateViewHolder | Wearable/src/main/java/com/deviantdev/wearable/watchface/config/list/AnalogComplicationConfigRecyclerViewAdapter.kt:93-126 | the holder kind is `HolderFor(viewType)`; a preview holder is fresh and remembered; other kinds keep the remembered one |
| ConfigListAdapter.ConfigAdapter.OnBindViewHolder | Wearable/src/main/java/com/deviantdev/wearable/watchface/config/list/AnalogComplicationConfigRecyclerViewAdapter.kt:128-193 | the binding is `BindingFor` the row; binding a preview holder changes the holder passed in, not the one the adapter remembers: default drawable, then highlight colour and gray background; other bindings leave it alone |
| ConfigListAdapter.ConfigAdapter.UpdateSelectedComplication | Wearable/src/main/java/com/deviantdev/wearable/watchface/config/list/AnalogComplicationConfigRecyclerViewAdapter.kt:207-216 | with a preview holder the preview becomes `SelectedUpdate` (nothing while no slot is selected); with none nothing happens |
| ConfigListAdapter.ConfigAdapter.UpdatePreviewColors | Wearable/src/main/java/com/deviantdev/wearable/watchface/config/list/AnalogComplicationConfigRecyclerViewAdapter.kt:224-230 | the preferences are reloaded from the file and the preview gets `ApplyColorsChecked` of the reloaded colours; no holder, no notice |
| ConfigListAdapter.ConfigAdapter.LaunchBackgroundComplicationChooser | Wearable/src/main/java/com/deviantdev/wearable/watchface/config/list/AnalogComplicationConfigViewHolders.kt:303-317 | the selected id becomes BACKGROUND's and the intent is BACKGROUND's chooser with request code 1001 |
| ConfigListAdapter.UpdateSelectedAsWritten | Wearable/src/main/java/com/deviantdev/wearable/watchface/config/list/AnalogComplicationConfigRecyclerViewAdapter.kt:207-216 | as written: crashes unless both the holder and the provider are non-null; otherwise `SelectedUpdate` |
| ConfigListAdapter.ProviderInfoReceivedAsWritten | Wearable/src/main/java/com/deviantdev/wearable/watchface/config/list/AnalogComplicationConfigRecyclerViewAdapter.kt:401-409 | as written: a callback crashes iff its provider is null; otherwise the per-id update |
| ConfigListAdapter.UpdatePreviewColorsAsWritten | Wearable/src/main/java/com/deviantdev/wearable/watchface/config/list/AnalogComplicationConfigRecyclerViewAdapter.kt:224-230 | as written: crashes iff there is no holder; otherwise applies the cached colours |
| ConfigListAdapter.MissingProviderCrashesAsWritten | Wearable/src/main/java/com/deviantdev/wearable/watchface/config/list/AnalogComplicationConfigRecyclerViewAdapter.kt:335 | an unassigned LEFT slot crashes the callback and an empty chooser result crashes the update; the corrected update shows the add-complication view |
| ConfigListAdapter.MissingHolderCrashesAsWritten | Wearable/src/main/java/com/deviantdev/wearable/watchface/config/list/AnalogComplicationConfigRecyclerViewAdapter.kt:209 | with no preview holder both result handlers crash as written |
| ConfigListAdapter.StaleColorsAsWritten | Wearable/src/main/java/com/deviantdev/wearable/watchface/config/list/AnalogComplicationConfigRecyclerViewAdapter.kt:224-230 | after WHITE is saved over an empty file the preview as written still gets BLACK |
| ConfigListAdapter.BackgroundChoiceMisroutedAsWritten | Wearable/src/main/java/com/deviantdev/wearable/watchface/config/list/AnalogComplicationConfigViewHolders.kt:303-317 | with no slot selected a background choice is dropped; after a LEFT edit it lands on LEFT; only with BACKGROUND selected is it shown as the background |
| ActivityRequests.RequestCodesDistinct | Wearable/src/main/java/com/deviantdev/wearable/watchface/config/list/AnalogComplicationConfigActivity.kt:87-88 | the request codes 1001 and 1002 differ |
| ConfigActivity.RouteFor | Wearable/src/main/java/com/deviantdev/wearable/watchface/config/list/AnalogComplicationConfigActivity.kt:64-82 | 1001 with RESULT_OK goes to the chooser update, 1002 with RESULT_OK to the colour update; anything else is ignored (all three iff) |
| ConfigActivity.CancelledResultIgnored | Wearable/src/main/java/com/deviantdev/wearable/watchface/config/list/AnalogComplicationConfigActivity.kt:66-77 | a cancelled result is ignored whatever its request code |
| ConfigActivity.AnalogComplicationConfigActivity.constructor | Wearable/src/main/java/com/deviantdev/wearable/watchface/config/list/AnalogComplicationConfigActivity.kt:38 | no adapter before `onCreate` |
| ConfigActivity.AnalogComplicationConfigActivity.OnCreate | Wearable/src/main/java/com/deviantdev/wearable/watchface/config/list/AnalogComplicationConfigActivity.kt:40-62 | the adapter is over the six rows, with preferences loaded, no slot selected and no holder |
| ConfigActivity.AnalogComplicationConfigActivity.OnActivityResult | Wearable/src/main/java/com/deviantdev/wearable/watchface/config/list/AnalogComplicationConfigActivity.kt:64-82 | the router with `data` nullable and the adapter's corrected handlers (the non-crashing `UpdateSelectedComplication`, the reloading `UpdatePreviewColors`), not the code as written: 1001 OK applies `SelectedUpdate` with the intent's provider (none without an intent), 1002 OK reloads and applies the checked colours, anything else changes nothing; the conflict notice is raised iff the route is the colour result, a preview holder exists and the BACKGROUND flag was set before |
| ConfigActivity.OnActivityResultAsWritten | Wearable/src/main/java/com/deviantdev/wearable/watchface/config/list/AnalogComplicationConfigActivity.kt:64 | as written: crashes iff the result has no intent, because `data: Intent` is non-null; otherwise the result takes `RouteFor` |
| ConfigActivity.PickerResultCrashesAsWritten | Wearable/src/main/java/com/deviantdev/wearable/watchface/config/list/AnalogComplicationConfigActivity.kt:64-81 | the colour picker's own outcome (RESULT_OK, no intent) crashes the activity as written, where the corrected router sends it to the colour update; any cancelled result without an intent crashes too |
| ConfigViewHolders.PreviewAndComplicationsViewHolder.constructor | Wearable/src/main/java/com/deviantdev/wearable/watchface/config/list/AnalogComplicationConfigViewHolders.kt:30-56 | a new holder targets BACKGROUND, has its own loaded preferences, and shows the inflated layout |
| ConfigViewHolders.PreviewAndComplicationsViewHolder.OnClick | Wearable/src/main/java/com/deviantdev/wearable/watchface/config/list/AnalogComplicationConfigViewHolders.kt:58-67 | LEFT or RIGHT becomes the target and its chooser intent is returned; other views change nothing; the preview is kept |
| ConfigViewHolders.PreviewAndComplicationsViewHolder.LaunchComplicationHelperActivity | Wearable/src/main/java/com/deviantdev/wearable/watchface/config/list/AnalogComplicationConfigViewHolders.kt:69-78 | the target becomes the slot, the background flag is kept, and the intent is the slot's chooser |
| ConfigViewHolders.PreviewAndComplicationsViewHolder.UpdateWatchFaceColors | Wearable/src/main/java/com/deviantdev/wearable/watchface/config/list/AnalogComplicationConfigViewHolders.kt:80-87 | the preferences are reloaded and both colours applied with no conflict check |
| ConfigViewHolders.PreviewAndComplicationsViewHolder.SetDefaultComplicationDrawable | Wearable/src/main/java/com/deviantdev/wearable/watchface/config/list/AnalogComplicationConfigViewHolders.kt:89-98 | the preview becomes `SetDefaultDrawable` of the old one; the target is kept |
| ConfigViewHolders.PreviewAndComplicationsViewHolder.UpdateComplicationViews | Wearable/src/main/java/com/deviantdev/wearable/watchface/config/list/AnalogComplicationConfigViewHolders.kt:100-147 | the result goes to the stored target slot, not to an id argument |
| ConfigViewHolders.PreviewAndComplicationsViewHolder.InitializesColorsAndComplications | Wearable/src/main/java/com/deviantdev/wearable/watchface/config/list/AnalogComplicationConfigViewHolders.kt:149-155 | highlight colour and gray background; no lookup |
| ConfigViewHolders.EditStartRetargets | Wearable/src/main/java/com/deviantdev/wearable/watchface/config/list/AnalogComplicationConfigViewHolders.kt:103-131 | with LEFT or RIGHT as target a result never touches the background flag or image |
| ConfigViewHolders.BackgroundTargetSetsFlag | Wearable/src/main/java/com/deviantdev/wearable/watchface/config/list/AnalogComplicationConfigViewHolders.kt:104-126 | with BACKGROUND as target the flag becomes true iff the provider is non-null |
| ConfigViewHolders.ColorPickerViewHolder.constructor | Wearable/src/main/java/com/deviantdev/wearable/watchface/config/list/AnalogComplicationConfigViewHolders.kt:184 | no activity before binding |
| ConfigViewHolders.ColorPickerViewHolder.SetLaunchActivityToSelectColor | Wearable/src/main/java/com/deviantdev/wearable/watchface/config/list/AnalogComplicationConfigViewHolders.kt:200-202 | the activity to launch is stored |
| ConfigViewHolders.ColorPickerViewHolder.OnClick | Wearable/src/main/java/com/deviantdev/wearable/watchface/config/list/AnalogComplicationConfigViewHolders.kt:204-215 | no intent iff no activity is bound; otherwise that activity with request code 1002 |
| ConfigViewHolders.ToggledUnread | Wearable/src/main/java/com/deviantdev/wearable/watchface/config/list/AnalogComplicationConfigViewHolders.kt:263-274 | one click flips the saved unread flag and keeps the loaded colours and every key it does not write |
| ConfigViewHolders.UnreadToggleTwice | Wearable/src/main/java/com/deviantdev/wearable/watchface/config/list/AnalogComplicationConfigViewHolders.kt:263-274 | two clicks restore every preference the first reload saw |
| ConfigViewHolders.UnreadNotificationViewHolder.constructor | Wearable/src/main/java/com/deviantdev/wearable/watchface/config/list/AnalogComplicationConfigViewHolders.kt:232-233 | both icon ids start as 0 and the switch as inflated |
| ConfigViewHolders.UnreadNotificationViewHolder.SetIcons | Wearable/src/main/java/com/deviantdev/wearable/watchface/config/list/AnalogComplicationConfigViewHolders.kt:243-253 | both icon ids are stored and the enabled icon is shown |
| ConfigViewHolders.UnreadNotificationViewHolder.UpdateIcon | Wearable/src/main/java/com/deviantdev/wearable/watchface/config/list/AnalogComplicationConfigViewHolders.kt:255-261 | checked becomes the state, and the icon is the enabled one iff the state is true |
| ConfigViewHolders.UnreadNotificationViewHolder.OnClick | Wearable/src/main/java/com/deviantdev/wearable/watchface/config/list/AnalogComplicationConfigViewHolders.kt:263-274 | the file becomes `ToggledUnread`, and the switch shows the flipped flag with its icon |
| ConfigViewHolders.BackgroundComplicationClickAsWritten | Wearable/src/main/java/com/deviantdev/wearable/watchface/config/list/AnalogComplicationConfigViewHolders.kt:303-317 | the chooser for BACKGROUND's id and types, request code 1001, with no selected slot recorded |
| ColorSelection.ColorChosen | Wearable/src/main/java/com/deviantdev/wearable/watchface/config/color/ColorSelectionRecyclerViewAdapter.kt:84-86 | after the click the file loads the chosen background with highlight and unread as they were loaded; other keys untouched |
| ColorSelection.ColorSelectionRecyclerViewAdapter.constructor | Wearable/src/main/java/com/deviantdev/wearable/watchface/config/color/ColorSelectionRecyclerViewAdapter.kt:37 | the adapter holds the palette it was given |
| ColorSelection.ColorSelectionRecyclerViewAdapter.GetItemCount | Wearable/src/main/java/com/deviantdev/wearable/watchface/config/color/ColorSelectionRecyclerViewAdapter.kt:55-57 | one row per palette entry |
| ColorSelection.ColorSelectionRecyclerViewAdapter.OnCreateViewHolder | Wearable/src/main/java/com/deviantdev/wearable/watchface/config/color/ColorSelectionRecyclerViewAdapter.kt:40-45 | a new holder of this adapter with no colour shown |
| ColorSelection.ColorSelectionRecyclerViewAdapter.OnBindViewHolder | Wearable/src/main/java/com/deviantdev/wearable/watchface/config/color/ColorSelectionRecyclerViewAdapter.kt:47-53 | the holder at p shows palette[p] |
| ColorSelection.ColorViewHolder.constructor | Wearable/src/main/java/com/deviantdev/wearable/watchface/config/color/ColorSelectionRecyclerViewAdapter.kt:63-70 | a new holder of its adapter with no colour |
| ColorSelection.ColorViewHolder.SetColor | Wearable/src/main/java/com/deviantdev/wearable/watchface/config/color/ColorSelectionRecyclerViewAdapter.kt:72-74 | the circle shows the colour |
| ColorSelection.ColorViewHolder.OnClick | Wearable/src/main/java/com/deviantdev/wearable/watchface/config/color/ColorSelectionRecyclerViewAdapter.kt:76-91 | the file becomes `ColorChosen(store, palette[p])` and the picker finishes with RESULT_OK and no intent |
| ColorSelection.ChoosingSavedColorKeepsPreferences | Wearable/src/main/java/com/deviantdev/wearable/watchface/config/color/ColorSelectionRecyclerViewAdapter.kt:84-86 | choosing the colour already saved leaves the loaded preferences unchanged |
| JavaColorSelection.ColorSelectionRecyclerViewAdapter.constructor | Wearable/src/main/java/com/deviantdev/wearable/watchface/config/ColorSelectionRecyclerViewAdapter.java:45-48 | the shared preferences start as the defaults |
| JavaColorSelection.ColorSelectionRecyclerViewAdapter.GetItemCount | Wearable/src/main/java/com/deviantdev/wearable/watchface/config/ColorSelectionRecyclerViewAdapter.java:69-72 | one row per dataset entry |
| JavaColorSelection.ColorSelectionRecyclerViewAdapter.OnCreateViewHolder | Wearable/src/main/java/com/deviantdev/wearable/watchface/config/ColorSelectionRecyclerViewAdapter.java:50-58 | the shared preferences are reloaded from the file before the holder is made |
| JavaColorSelection.ColorSelectionRecyclerViewAdapter.OnBindViewHolder | Wearable/src/main/java/com/deviantdev/wearable/watchface/config/ColorSelectionRecyclerViewAdapter.java:60-67 | the holder at p shows colour p |
| JavaColorSelection.ColorViewHolder.constructor | Wearable/src/main/java/com/deviantdev/wearable/watchface/config/ColorSelectionRecyclerViewAdapter.java:83-87 | a new holder of its adapter with no colour |
| JavaColorSelection.ColorViewHolder.SetColor | Wearable/src/main/java/com/deviantdev/wearable/watchface/config/ColorSelectionRecyclerViewAdapter.java:89-91 | the circle shows the colour |
| JavaColorSelection.ColorViewHolder.OnClick | Wearable/src/main/java/com/deviantdev/wearable/watchface/config/ColorSelectionRecyclerViewAdapter.java:93-108 | only the shared background colour changes, to dataset[p]; the file gets the shared fields committed; the picker finishes with RESULT_OK and no intent |
| JavaColorSelection.SameAsKotlinWhenFresh | Wearable/src/main/java/com/deviantdev/wearable/watchface/config/ColorSelectionRecyclerViewAdapter.java:50-58 | with the shared preferences just reloaded from the same file, the Java click saves what the Kotlin click saves |
| JavaColorSelection.CachedValuesOverwriteFile | Wearable/src/main/java/com/deviantdev/wearable/watchface/config/ColorSelectionRecyclerViewAdapter.java:93-103 | a click saves the cached highlight and unread values and the chosen background |
| WatchFaceEngine.JavaDiv | Wearable/src/main/java/com/deviantdev/wearable/watchface/AnalogComplicationWatchFaceService.java:449-453 | Java's truncating `/`: Euclidean for non-negative values, and the quotient is within one divisor of the dividend |
| WatchFaceEngine.JavaDivSymmetric | Wearable/src/main/java/com/deviantdev/wearable/watchface/AnalogComplicationWatchFaceService.java:449-453 | truncating division is symmetric about zero |
| WatchFaceEngine.ComplicationLayout | Wearable/src/main/java/com/deviantdev/wearable/watchface/AnalogComplicationWatchFaceService.java:449-485 | the side circles are squares of side w/4; RIGHT is LEFT shifted right by w/2; the background is [0, 0, width, height] |
| WatchFaceEngine.LayoutFitsScreen | Wearable/src/main/java/com/deviantdev/wearable/watchface/AnalogComplicationWatchFaceService.java:449-485 | for width >= 0 the circles sit side by side without overlap within [0, width], centred in the left half and on the midline to a pixel, and inside a square screen |
| WatchFaceEngine.MuteAlphas | Wearable/src/main/java/com/deviantdev/wearable/watchface/AnalogComplicationWatchFaceService.java:413-415 | muted iff the hour alpha is below 255; muted: hour 100, minute 100, second 80, the second hand dimmest; otherwise all 255 |
| WatchFaceEngine.FirstAccepting | Wearable/src/main/java/com/deviantdev/wearable/watchface/AnalogComplicationWatchFaceService.java:319-329 | none iff no slot in the order takes the tap; otherwise a slot that takes it |
| WatchFaceEngine.ProbedUntilAccepted | Wearable/src/main/java/com/deviantdev/wearable/watchface/AnalogComplicationWatchFaceService.java:319-329 | the slots asked are a prefix of the order, none but the last takes the tap, all of them if none does, and the last is the one that took it |
| WatchFaceEngine.ScanStopsAt | Wearable/src/main/java/com/deviantdev/wearable/watchface/AnalogComplicationWatchFaceService.java:319-329 | if nothing before n takes the tap and slot n does, the scan stops at n having asked slots 0..n |
| WatchFaceEngine.TapOrder | Wearable/src/main/java/com/deviantdev/wearable/watchface/AnalogComplicationWatchFaceService.java:319-320 | the scan asks RIGHT, LEFT, BACKGROUND |
| WatchFaceEngine.BackgroundAskedLast | Wearable/src/main/java/com/deviantdev/wearable/watchface/AnalogComplicationWatchFaceService.java:315-329 | RIGHT wins if it takes the tap; BACKGROUND gets it iff neither circle takes it and it does; BACKGROUND is asked iff neither circle took it |
| WatchFaceEngine.Engine.constructor | Wearable/src/main/java/com/deviantdev/wearable/watchface/AnalogComplicationWatchFaceService.java:140-171 | after `onCreate`: preferences loaded, hand colours derived, receiver unregistered, not muted, not ambient, not visible, timer off, no unread |
| WatchFaceEngine.Engine.LoadSavedPreferences | Wearable/src/main/java/com/deviantdev/wearable/watchface/AnalogComplicationWatchFaceService.java:159-171 | fresh preferences loaded from the file; hands BLACK/shadow WHITE iff background WHITE; nothing else changes |
| WatchFaceEngine.Engine.OnPropertiesChanged | Wearable/src/main/java/com/deviantdev/wearable/watchface/AnalogComplicationWatchFaceService.java:272-289 | low-bit and burn-in become the properties, false when absent; nothing else changes |
| WatchFaceEngine.Engine.OnAmbientModeChanged | Wearable/src/main/java/com/deviantdev/wearable/watchface/AnalogComplicationWatchFaceService.java:341-361 | ambient becomes the mode and the timer runs iff visible and not ambient; nothing else changes |
| WatchFaceEngine.Engine.OnInterruptionFilterChanged | Wearable/src/main/java/com/deviantdev/wearable/watchface/AnalogComplicationWatchFaceService.java:406-418 | mute is "filter is NONE"; state and redraw change only when mute mode flips, with the mute alphas |
| WatchFaceEngine.Engine.OnSurfaceChanged | Wearable/src/main/java/com/deviantdev/wearable/watchface/AnalogComplicationWatchFaceService.java:421-486 | the bounds become `ComplicationLayout(width, height)`; nothing else changes |
| WatchFaceEngine.Engine.OnTapCommand | Wearable/src/main/java/com/deviantdev/wearable/watchface/AnalogComplicationWatchFaceService.java:310-332 | a plain tap asks the slots in `TapOrder` until one takes it and reports that one; other tap types ask none |
| WatchFaceEngine.Engine.OnUnreadCountChanged | Wearable/src/main/java/com/deviantdev/wearable/watchface/AnalogComplicationWatchFaceService.java:646-656 | the count is taken, with a redraw, only while the preference is on and the count differs |
| WatchFaceEngine.Engine.RegisterReceiver | Wearable/src/main/java/com/deviantdev/wearable/watchface/AnalogComplicationWatchFaceService.java:658-665 | afterwards registered, with one system registration; a second call changes nothing |
| WatchFaceEngine.Engine.UnregisterReceiver | Wearable/src/main/java/com/deviantdev/wearable/watchface/AnalogComplicationWatchFaceService.java:667-673 | afterwards unregistered, with no system registration; a second call changes nothing |
| WatchFaceEngine.Engine.UpdateTimer | Wearable/src/main/java/com/deviantdev/wearable/watchface/AnalogComplicationWatchFaceService.java:678-683 | the timer runs iff `shouldTimerBeRunning` |
| WatchFaceEngine.Engine.OnVisibilityChanged | Wearable/src/main/java/com/deviantdev/wearable/watchface/AnalogComplicationWatchFaceService.java:617-643 | shown: preferences reloaded and receiver registered; hidden: receiver unregistered; timer re-checked; hand colours kept |
| WatchFaceEngine.Engine.BackgroundDrawColor | Wearable/src/main/java/com/deviantdev/wearable/watchface/AnalogComplicationWatchFaceService.java:518-526 | BLACK iff ambient and (low-bit or burn-in); otherwise the preference colour |
| WatchFaceEngine.Engine.UnreadIndicator | Wearable/src/main/java/com/deviantdev/wearable/watchface/AnalogComplicationWatchFaceService.java:499-516 | the ring iff the preference is on and the count > 0; the dot iff the ring and interactive |
| WatchFaceEngine.TimerOnlyWhenVisibleAndInteractive | Wearable/src/main/java/com/deviantdev/wearable/watchface/AnalogComplicationWatchFaceService.java:689-691 | in every consistent state the timer runs iff visible and not ambient |
| WatchFaceEngine.AmbientProtectionForcesBlack | Wearable/src/main/java/com/deviantdev/wearable/watchface/AnalogComplicationWatchFaceService.java:512-525 | ambient on a low-bit or burn-in screen: BLACK background whatever the preference, no highlight dot, and the per-second timer stopped |

## Left out

- Android views, inflation, `Toast`, `PorterDuffColorFilter`, `ComponentName` and drawable resources are left out as UI. Views are abstract values: a filter colour, an icon reference, a content description, a visibility. The colour-filter mode (SRC_ATOP) is not modelled.
- The `ProviderInfoRetriever` runs asynchronously on a thread pool. The model replaces it with the sequence of callbacks it delivers (`Preview.ApplyLookupResults`). Its `init` and `release` (the retriever calls inside the adapter's `init` block, and `onDetachedFromRecyclerView`) are lifecycle calls, not modelled.
- Log calls are left out, except where the `!!` inside one can crash (see Findings).
- The `setName`/`setIcon` calls of the colour, unread and background rows, and `MoreOptionsViewHolder.setIcon`, only set a label or image. Binding them is modelled as the `Binding` value the adapter's `onBindViewHolder` selects.
- `ColorSelectionActivity.kt` (hosting the colour list) is a screen set-up, not part of this model. The picker's result is modelled as `ColorSelection.ActivityOutcome`.
- `AnalogComplicationConfigData.getWatchFaceServiceClass` only returns a class reference, which the adapter uses for a `ComponentName`; it is left out.
- Engine parts left out:
  - drawing (`onDraw`, the hands, ticks and complications);
  - the float centre and hand lengths;
  - `updateWatchPaintStyles` and the paint colours;
  - `initializeComplicationsAndBackground`, `setComplicationsActiveAndAmbientColors` and `onComplicationDataUpdate`, which configure `ComplicationDrawable`s;
  - `onDestroy` and `onTimeTick`;
  - `Calendar` and time-zone handling;
  - the `Handler` message loop, modelled only as the `timerRunning` flag;
  - `isVisible()`, modelled as the engine's `visible` field.
- `Paint.setColor` also resets a paint's alpha, so mute dimming is lost after an ambient switch repaints. The model keeps the alphas as the mute handler set them, because paint colours are not modelled.
- `ComplicationDrawable.onTap` is a foreign call. It is a parameter of `WatchFaceEngine.Engine.OnTapCommand`: a predicate saying which slots take the tap.
- Settings.GetInt: reading a stored value of the wrong type gives the default. Android's `SharedPreferences` throws `ClassCastException`, which cannot happen for files this app writes. The same applies to Settings.GetBoolean.
- `SharedPreferences.Editor.apply` is asynchronous. A commit is modelled as taking effect at once.
- ConfigViewHolders.UnreadNotificationViewHolder.UpdateIcon takes a `bool`, not Kotlin's `Boolean?` with `!!`, because its only caller passes a non-null value.
- ConfigViewHolders.UnreadNotificationViewHolder.constructor: the initial icons come from `context.getDrawable(0)`, which on Android throws `Resources.NotFoundException`, so calling `updateIcon` before `setIcons` would crash. `onBindViewHolder` always calls `setIcons` first, and the model uses the resource id "none" for the initial icons.
- ConfigListAdapter.ConfigAdapter.GetItemViewType requires the position to be in range. The source would throw `IndexOutOfBoundsException`, which `RecyclerView` never triggers. The same applies to `OnBindViewHolder` of every adapter.
- ColorSelection.ColorViewHolder.OnClick requires a valid adapter position. During a layout pass `adapterPosition` can be `NO_POSITION` (-1), and the source would then throw on the list lookup. The same holds for JavaColorSelection.ColorViewHolder.OnClick.
- ConfigActivity.AnalogComplicationConfigActivity.OnActivityResult requires an adapter. The source's `mAdapter!!` would crash without one, but `onCreate` always makes it first. The crash on a result with no intent is modelled separately (see Findings).
- WatchFaceEngine.Engine.OnPropertiesChanged takes the two properties as options, absent meaning `false`. The loop that forwards them to the `ComplicationDrawable`s is left out.

## Findings

| source | as written | input that shows it | evidently intended | confidence | as-written member | corrected member |
|---|---|---|---|---|---|---|
| Wearable/src/main/java/com/deviantdev/wearable/watchface/config/list/AnalogComplicationConfigRecyclerViewAdapter.kt:335 | The lookup callback (line 405) and `updateComplicationViews` (line 335) log `complicationProviderInfo!!`. `updateSelectedComplication` (line 207) takes a non-null provider. Each crashes on a null provider, although the code right after handles null. | A slot with no provider assigned in the initial lookup (LEFT, null), or the user choosing "Empty" in the chooser (`ConfigListAdapter.MissingProviderCrashesAsWritten`) | A null provider shows the add-complication drawable, or clears the background image | high, not executed | ConfigListAdapter.ProviderInfoReceivedAsWritten | ConfigListAdapter.PreviewAndComplicationsViewHolder.UpdateComplicationViews |
| Wearable/src/main/java/com/deviantdev/wearable/watchface/config/list/AnalogComplicationConfigRecyclerViewAdapter.kt:209 | `updateSelectedComplication` and `updatePreviewColors` (line 225) log `mPreviewAndComplicationsViewHolder!!` before their `!= null` guard, so they crash while no preview holder exists | A chooser result arriving while the preview row has not been created (`ConfigListAdapter.MissingHolderCrashesAsWritten`). As written a colour result never reaches line 225, because the activity throws at its line 64 first. | No holder means nothing to update | medium, not executed | ConfigListAdapter.UpdateSelectedAsWritten | ConfigListAdapter.ConfigAdapter.UpdateSelectedComplication |
| Wearable/src/main/java/com/deviantdev/wearable/watchface/config/list/AnalogComplicationConfigRecyclerViewAdapter.kt:224-230 | The adapter's preferences object is loaded once, at construction (line 83). `updatePreviewColors` applies its cached colours without reloading, so a colour just saved by the picker is not shown. | As written a colour result crashes the activity before it gets here (next row). With `data` nullable: empty preference file; open the screen; pick WHITE as background. The preview still gets BLACK (`ConfigListAdapter.StaleColorsAsWritten`). | Reload before applying, as the top-level holder's `updateWatchFaceColors` does | medium (depends on `WatchFacePreferences`, which is not part of this model), not executed | ConfigListAdapter.UpdatePreviewColorsAsWritten | ConfigListAdapter.ConfigAdapter.UpdatePreviewColors |
| Wearable/src/main/java/com/deviantdev/wearable/watchface/config/list/AnalogComplicationConfigViewHolders.kt:303-317 | The background-image row starts the chooser for BACKGROUND without setting the adapter's selected complication id | Fresh screen; tap the background row; choose a provider. The id is still -1, so the choice is dropped. After a LEFT edit it lands on LEFT instead (`ConfigListAdapter.BackgroundChoiceMisroutedAsWritten`). | Record BACKGROUND as the selected slot before starting the chooser, as the preview's buttons do | high, not executed | ConfigViewHolders.BackgroundComplicationClickAsWritten | ConfigListAdapter.ConfigAdapter.LaunchBackgroundComplicationChooser |
| Wearable/src/main/java/com/deviantdev/wearable/watchface/config/list/AnalogComplicationConfigActivity.kt:64 | `onActivityResult` declares `data: Intent` as non-null, so Kotlin's entry check throws for a result without an intent. Both colour pickers finish with `setResult(RESULT_OK)` and no intent, and a cancelled activity returns none either. | Choose any colour in the picker: the result (1002, RESULT_OK, no intent) crashes the configuration activity; so does backing out of the chooser or the picker (`ConfigActivity.PickerResultCrashesAsWritten`) | Declare `data: Intent?` and read the provider with `data?.`, so the colour result reaches `updatePreviewColors` and a cancel is ignored | high, not executed | ConfigActivity.OnActivityResultAsWritten | ConfigActivity.AnalogComplicationConfigActivity.OnActivityResult |
