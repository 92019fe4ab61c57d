/** The five view-type constants of the configuration list (the adapter's companion object). */
module ViewTypes {

  const TypePreviewAndComplicationsConfig: int := 0
  const TypeMoreOptions: int := 1
  const TypeColorConfig: int := 2
  const TypeUnreadNotificationConfig: int := 3
  const TypeBackgroundComplicationImageConfig: int := 4

  const AllViewTypes: seq<int> := [TypePreviewAndComplicationsConfig, TypeMoreOptions, TypeColorConfig,
                                   TypeUnreadNotificationConfig, TypeBackgroundComplicationImageConfig]

  predicate IsViewType(t: int)
  {
    t in AllViewTypes
  }

  /** The constants are 0..4, pairwise distinct. */
  lemma ViewTypesDistinct()
    ensures AllViewTypes == [0, 1, 2, 3, 4]
    ensures forall i, j :: 0 <= i < j < |AllViewTypes| ==> AllViewTypes[i] != AllViewTypes[j]
  {
  }
}

/**
 * AnalogComplicationConfigRecyclerViewAdapter: the configuration list's adapter.
 * It remembers which slot the user is editing (`mSelectedComplicationId`) and
 * keeps a reference to the preview row's holder so that chooser and colour
 * results update the preview in place.
 */
module ConfigListAdapter {
  import opened Wrappers
  import opened Colors
  import opened Complications
  import opened Settings
  import opened ConfigData
  import opened ViewTypes
  import opened Preview
  import opened ActivityRequests

  /** The holder class `onCreateViewHolder` makes for a view type. */
  datatype HolderKind =
    | PreviewAndComplicationsHolder
    | MoreOptionsHolder
    | ColorPickerHolder
    | UnreadNotificationHolder
    | BackgroundComplicationHolder

  /** `onCreateViewHolder`'s `when`: a holder for each view-type constant, none (null) otherwise. */
  function HolderFor(viewType: int): (k: Option<HolderKind>)
    ensures k.Some? <==> IsViewType(viewType)
  {
    if viewType == TypePreviewAndComplicationsConfig then Some(PreviewAndComplicationsHolder)
    else if viewType == TypeMoreOptions then Some(MoreOptionsHolder)
    else if viewType == TypeColorConfig then Some(ColorPickerHolder)
    else if viewType == TypeUnreadNotificationConfig then Some(UnreadNotificationHolder)
    else if viewType == TypeBackgroundComplicationImageConfig then Some(BackgroundComplicationHolder)
    else None
  }

  /** The holder class a row is meant to be shown in. */
  function KindOf(item: ConfigItem): HolderKind
  {
    match item
    case PreviewAndComplicationsConfigItem(_) => PreviewAndComplicationsHolder
    case MoreOptionsConfigItem(_) => MoreOptionsHolder
    case ColorConfigItem(_, _, _) => ColorPickerHolder
    case UnreadNotificationConfigItem(_, _, _) => UnreadNotificationHolder
    case BackgroundComplicationConfigItem(_, _) => BackgroundComplicationHolder
  }

  /** What `onBindViewHolder` hands to the holder, or the cast of the row that fails. */
  datatype Binding =
    | BoundPreview(defaultComplication: Drawable)
    | BoundMoreOptions(icon: Drawable)
    | BoundColorPicker(icon: Drawable, name: Label, activity: ActivityClass)
    | BoundUnreadNotification(enabledIcon: Drawable, disabledIcon: Drawable, name: Label)
    | BoundBackgroundComplication(icon: Drawable, name: Label)
    | CastFailed
    | NotBound

  /** `onBindViewHolder`'s `when` on the holder's view type, with the cast of the row. */
  function BindingFor(viewType: int, item: ConfigItem): (b: Binding)
    ensures b == NotBound <==> !IsViewType(viewType)
    ensures b == CastFailed <==> IsViewType(viewType) && viewType != item.ConfigType()
  {
    match item
    case PreviewAndComplicationsConfigItem(d) =>
      if viewType == TypePreviewAndComplicationsConfig then BoundPreview(d)
      else if IsViewType(viewType) then CastFailed else NotBound
    case MoreOptionsConfigItem(i) =>
      if viewType == TypeMoreOptions then BoundMoreOptions(i)
      else if IsViewType(viewType) then CastFailed else NotBound
    case ColorConfigItem(n, i, a) =>
      if viewType == TypeColorConfig then BoundColorPicker(i, n, a)
      else if IsViewType(viewType) then CastFailed else NotBound
    case UnreadNotificationConfigItem(n, e, d) =>
      if viewType == TypeUnreadNotificationConfig then BoundUnreadNotification(e, d, n)
      else if IsViewType(viewType) then CastFailed else NotBound
    case BackgroundComplicationConfigItem(n, i) =>
      if viewType == TypeBackgroundComplicationImageConfig then BoundBackgroundComplication(i, n)
      else if IsViewType(viewType) then CastFailed else NotBound
  }

  /**
   * A row's configType selects the holder meant for it, so binding a row to the
   * holder made for its own view type never fails a cast.
   */
  lemma RowTypeSelectsItsHolder(item: ConfigItem)
    ensures HolderFor(item.ConfigType()) == Some(KindOf(item))
    ensures BindingFor(item.ConfigType(), item) != CastFailed && BindingFor(item.ConfigType(), item) != NotBound
  {
  }

  /** `updateSelectedComplication` once the holder exists: only a selected id (>= 0) is updated. */
  function SelectedUpdate(selected: int, s: PreviewState, info: Option<ProviderInfo>, preferenceBackground: int): (t: PreviewState)
    ensures selected < 0 ==> t == s
    ensures selected >= 0 ==> t == ApplyProviderById(s, selected, info, preferenceBackground)
    ensures selected !in GetAllIds() ==> t == s
  {
    if selected >= 0 then ApplyProviderById(s, selected, info, preferenceBackground) else s
  }

  /**
   * The inner PreviewAndComplicationsViewHolder. As an inner class it reaches the
   * adapter's fields through `outer`.
   */
  class PreviewAndComplicationsViewHolder {
    const outer: ConfigAdapter
    var backgroundComplicationEnabled: bool
    var views: PreviewViews

    function State(): PreviewState
      reads this
    {
      PreviewState(backgroundComplicationEnabled, views)
    }

    constructor (adapter: ConfigAdapter)
      ensures outer == adapter && State() == InitialPreview
    {
      outer := adapter;
      backgroundComplicationEnabled := InitialPreview.backgroundComplicationEnabled;
      views := InitialPreview.views;
    }

    /** `onClick`: the LEFT and RIGHT buttons start an edit; any other view does nothing. */
    method OnClick(button: PreviewButton) returns (intent: Option<Intent>)
      modifies this, outer
      ensures button == LeftComplicationButton ==> intent == Some(ChooserIntentFor(Left)) && outer.selectedComplicationId == Left.Id()
      ensures button == RightComplicationButton ==> intent == Some(ChooserIntentFor(Right)) && outer.selectedComplicationId == Right.Id()
      ensures button == OtherView ==> intent == None && unchanged(this, outer)
      ensures button != OtherView ==> !backgroundComplicationEnabled && views == old(views)
      ensures outer.previewHolder == old(outer.previewHolder)
    {
      if button == LeftComplicationButton {
        var i := LaunchComplicationHelperActivity(Left);
        intent := Some(i);
      } else if button == RightComplicationButton {
        var i := LaunchComplicationHelperActivity(Right);
        intent := Some(i);
      } else {
        intent := None;
      }
    }

    /**
     * `launchComplicationHelperActivity`: records the slot being edited in the
     * adapter, clears the background flag and starts the provider chooser for it.
     */
    method LaunchComplicationHelperActivity(c: Complication) returns (intent: Intent)
      modifies this, outer
      ensures outer.selectedComplicationId == c.Id() && outer.previewHolder == old(outer.previewHolder)
      ensures !backgroundComplicationEnabled && views == old(views)
      ensures intent == ProviderChooserIntent(c.Id(), c.SupportedTypes(), ComplicationConfigRequestCode)
    {
      outer.selectedComplicationId := c.Id();
      backgroundComplicationEnabled := false;
      intent := ChooserIntentFor(c);
    }

    /** `updateWatchFaceColors`, with the adapter's preferences object as the colour source. */
    method UpdateWatchFaceColors() returns (conflictNotice: bool)
      modifies this
      ensures var r := ApplyColorsChecked(old(State()), outer.watchFacePreferences.backgroundColor,
                                          outer.watchFacePreferences.watchHandHighlightColor);
              State() == r.state && conflictNotice == r.conflictNotice
      ensures conflictNotice <==> old(backgroundComplicationEnabled)
    {
      conflictNotice := backgroundComplicationEnabled;
      if !backgroundComplicationEnabled {
        views := views.(backgroundFilter := Some(outer.watchFacePreferences.backgroundColor));
      }
      views := views.(highlightFilter := Some(outer.watchFacePreferences.watchHandHighlightColor));
    }

    /** `setDefaultComplicationDrawable`. */
    method SetDefaultComplicationDrawable(d: Drawable)
      modifies this
      ensures State() == SetDefaultDrawable(old(State()), d)
    {
      views := views.(defaultDrawable := Some(d));
      views := views.(left := views.left.(icon := DrawableIcon(Some(d)), background := Invisible));
      views := views.(right := views.right.(icon := DrawableIcon(Some(d)), background := Invisible));
    }

    /**
     * `updateComplicationViews(id, info)`, also what each provider-info callback of
     * the bulk lookup runs; a missing provider (null) is handled by its branches.
     */
    method UpdateComplicationViews(watchFaceComplicationId: int, info: Option<ProviderInfo>)
      modifies this
      ensures State() == ApplyProviderById(old(State()), watchFaceComplicationId, info, outer.watchFacePreferences.backgroundColor)
    {
      if watchFaceComplicationId == Background.Id() {
        if info.Some? {
          backgroundComplicationEnabled := true;
          views := views.(backgroundFilter := Some(Gray), backgroundImage := ProviderIconImage(info.value.providerIcon));
        } else {
          backgroundComplicationEnabled := false;
          views := views.(backgroundImage := TransparentImage);
          views := views.(backgroundFilter := Some(outer.watchFacePreferences.backgroundColor));
        }
      } else if watchFaceComplicationId == Left.Id() {
        views := views.(left := UpdateComplicationView(info));
      } else if watchFaceComplicationId == Right.Id() {
        views := views.(right := UpdateComplicationView(info));
      }
    }

    /** `updateComplicationView`: what one slot's button and ring show for a provider. */
    function UpdateComplicationView(info: Option<ProviderInfo>): (v: SlotView)
      reads this
      ensures v == SlotViewFor(info, views.defaultDrawable)
    {
      if info.Some? then
        SlotView(ProviderIcon(info.value.providerIcon), EditComplicationDescription(ProviderLabel(info.value)), Visible)
      else
        SlotView(DrawableIcon(views.defaultDrawable), AddComplicationDescription, Invisible)
    }

    /**
     * `initializesColorsAndComplications`: highlight colour and gray background,
     * then the bulk lookup for every slot id; its callbacks arrive later, each as
     * one UpdateComplicationViews.
     */
    method InitializesColorsAndComplications() returns (requestedIds: seq<int>)
      modifies this
      ensures State() == InitializeColors(old(State()), outer.watchFacePreferences.watchHandHighlightColor)
      ensures requestedIds == GetAllIds()
    {
      views := views.(highlightFilter := Some(outer.watchFacePreferences.watchHandHighlightColor));
      views := views.(backgroundFilter := Some(Gray));
      requestedIds := GetAllIds();
    }
  }

  class ConfigAdapter {
    const settingsDataSet: seq<ConfigItem>
    const watchFacePreferences: WatchFaceSettings
    var selectedComplicationId: int
    var previewHolder: PreviewAndComplicationsViewHolder?

    /** The preview holder, once made, belongs to this adapter. */
    ghost predicate Valid()
      reads this, previewHolder
    {
      previewHolder != null ==> previewHolder.outer == this
    }

    /** The adapter over `dataSet`, with the preferences file's contents `store`. */
    constructor (store: Store, dataSet: seq<ConfigItem>)
      ensures settingsDataSet == dataSet && fresh(watchFacePreferences)
      ensures watchFacePreferences.Snapshot() == Loaded(store)
      ensures selectedComplicationId == -1 && previewHolder == null
      ensures Valid()
    {
      settingsDataSet := dataSet;
      watchFacePreferences := new WatchFaceSettings.FromContext(store);
      selectedComplicationId := 0;
      previewHolder := null;
      new;
      watchFacePreferences.ReloadSavedPreferences(store);
      // The initial value is no slot; only an edit start changes it.
      selectedComplicationId := -1;
    }

    /** `getItemViewType`: the configType of the row at `position`. */
    function GetItemViewType(position: int): (t: int)
      requires 0 <= position < |settingsDataSet|
      ensures t == ConfigTypes(settingsDataSet)[position]
      ensures IsViewType(t) && HolderFor(t) == Some(KindOf(settingsDataSet[position]))
    {
      RowTypeSelectsItsHolder(settingsDataSet[position]);
      settingsDataSet[position].ConfigType()
    }

    /** `getItemCount`: the number of rows. */
    function GetItemCount(): (n: nat)
      ensures n == |settingsDataSet| == |ConfigTypes(settingsDataSet)|
    {
      |settingsDataSet|
    }

    /** `onCreateViewHolder`: a preview holder is also remembered for later updates. */
    method OnCreateViewHolder(viewType: int) returns (created: Option<HolderKind>)
      requires Valid()
      modifies this
      ensures created == HolderFor(viewType)
      ensures viewType == TypePreviewAndComplicationsConfig ==>
        previewHolder != null && fresh(previewHolder) && previewHolder.State() == InitialPreview
      ensures viewType != TypePreviewAndComplicationsConfig ==> previewHolder == old(previewHolder)
      ensures selectedComplicationId == old(selectedComplicationId)
      ensures Valid()
    {
      created := HolderFor(viewType);
      if viewType == TypePreviewAndComplicationsConfig {
        previewHolder := new PreviewAndComplicationsViewHolder(this);
      }
    }

    /**
     * `onBindViewHolder` for the holder RecyclerView passes in, of view type
     * `viewType`, at `position`. Only a preview holder is an object of this model
     * (`holder`), and it need not be the one last remembered by `onCreateViewHolder`.
     */
    method OnBindViewHolder(viewType: int, holder: PreviewAndComplicationsViewHolder?, position: int) returns (b: Binding)
      requires 0 <= position < |settingsDataSet|
      requires viewType == TypePreviewAndComplicationsConfig ==> holder != null && holder.outer == this
      modifies holder
      ensures b == BindingFor(viewType, settingsDataSet[position])
      ensures b.BoundPreview? ==>
        holder != null
        && holder.State()
             == InitializeColors(SetDefaultDrawable(old(holder.State()), b.defaultComplication),
                                 watchFacePreferences.watchHandHighlightColor)
      ensures !b.BoundPreview? && holder != null ==> unchanged(holder)
    {
      b := BindingFor(viewType, settingsDataSet[position]);
      if b.BoundPreview? {
        assert viewType == TypePreviewAndComplicationsConfig;
        holder.SetDefaultComplicationDrawable(b.defaultComplication);
        var requested := holder.InitializesColorsAndComplications();
      }
    }

    /**
     * `updateSelectedComplication`: the chooser's provider (null when the user picked
     * "empty") goes to the selected slot; nothing happens before the preview holder
     * exists or while no slot is selected.
     */
    method UpdateSelectedComplication(info: Option<ProviderInfo>)
      requires Valid()
      modifies previewHolder
      ensures previewHolder != null ==>
        previewHolder.State() == SelectedUpdate(selectedComplicationId, old(previewHolder.State()), info,
                                                watchFacePreferences.backgroundColor)
      ensures selectedComplicationId < 0 && previewHolder != null ==> unchanged(previewHolder)
    {
      if previewHolder != null && selectedComplicationId >= 0 {
        previewHolder.UpdateComplicationViews(selectedComplicationId, info);
      }
    }

    /**
     * `updatePreviewColors`, reloading the preferences from `store` before the
     * holder reads them, so the colour just picked is the one shown.
     */
    method UpdatePreviewColors(store: Store) returns (conflictNotice: bool)
      requires Valid()
      modifies previewHolder, watchFacePreferences
      ensures watchFacePreferences.Snapshot() == Loaded(store)
      ensures previewHolder != null ==>
        var r := ApplyColorsChecked(old(previewHolder.State()), Loaded(store).backgroundColor,
                                    Loaded(store).watchHandHighlightColor);
        previewHolder.State() == r.state && conflictNotice == r.conflictNotice
      ensures previewHolder == null ==> !conflictNotice
    {
      watchFacePreferences.ReloadSavedPreferences(store);
      conflictNotice := false;
      if previewHolder != null {
        conflictNotice := previewHolder.UpdateWatchFaceColors();
      }
    }

    /**
     * The background-image row's click as it is evidently meant to be: record
     * BACKGROUND as the slot being edited, then start its chooser.
     */
    method LaunchBackgroundComplicationChooser() returns (intent: Intent)
      modifies this
      ensures selectedComplicationId == Background.Id() && previewHolder == old(previewHolder)
      ensures intent == ProviderChooserIntent(Background.Id(), Background.SupportedTypes(), ComplicationConfigRequestCode)
    {
      selectedComplicationId := Background.Id();
      intent := ChooserIntentFor(Background);
    }
  }

  /** A step the code as written either completes or crashes in (a failed `!!` or non-null check). */
  datatype Step<T> = Crashed | Completed(value: T)

  /**
   * `updateSelectedComplication` as written: the log call dereferences the holder
   * with `!!`, and the provider reaches a non-null parameter and a `!!` in the log
   * call of `updateComplicationViews`.
   */
  function UpdateSelectedAsWritten(holder: Option<PreviewState>, selected: int, info: Option<ProviderInfo>, preferenceBackground: int): (r: Step<PreviewState>)
    ensures r.Completed? <==> holder.Some? && info.Some?
    ensures r.Completed? ==> r.value == SelectedUpdate(selected, holder.value, info, preferenceBackground)
  {
    if holder.None? then Crashed
    else if info.None? then Crashed
    else Completed(SelectedUpdate(selected, holder.value, info, preferenceBackground))
  }

  /** A provider-info callback as written: its log call dereferences the provider with `!!`. */
  function ProviderInfoReceivedAsWritten(s: PreviewState, id: int, info: Option<ProviderInfo>, preferenceBackground: int): (r: Step<PreviewState>)
    ensures r.Completed? <==> info.Some?
    ensures r.Completed? ==> r.value == ApplyProviderById(s, id, info, preferenceBackground)
  {
    if info.None? then Crashed else Completed(ApplyProviderById(s, id, info, preferenceBackground))
  }

  /**
   * `updatePreviewColors` as written: `!!` on the holder in the log call, then the
   * colours of the preferences object `cached`, last loaded when the adapter was made.
   */
  function UpdatePreviewColorsAsWritten(holder: Option<PreviewState>, cached: Appearance): (r: Step<ColorUpdate>)
    ensures r.Completed? <==> holder.Some?
    ensures r.Completed? ==> r.value == ApplyColorsChecked(holder.value, cached.backgroundColor, cached.watchHandHighlightColor)
  {
    if holder.None? then Crashed
    else Completed(ApplyColorsChecked(holder.value, cached.backgroundColor, cached.watchHandHighlightColor))
  }

  /**
   * An unassigned slot (the lookup reports no provider) crashes the callback as
   * written, and a chooser result of "empty" crashes `updateSelectedComplication`;
   * the corrected update shows the default drawable instead.
   */
  lemma MissingProviderCrashesAsWritten(s: PreviewState, bg: int)
    ensures ProviderInfoReceivedAsWritten(s, Left.Id(), None, bg) == Crashed
    ensures UpdateSelectedAsWritten(Some(s), Left.Id(), None, bg) == Crashed
    ensures ApplyProviderById(s, Left.Id(), None, bg).views.left == SlotView(DrawableIcon(s.views.defaultDrawable), AddComplicationDescription, Invisible)
  {
  }

  /** With no preview holder yet, both result handlers crash as written instead of doing nothing. */
  lemma MissingHolderCrashesAsWritten(p: ProviderInfo, cached: Appearance, bg: int)
    ensures UpdateSelectedAsWritten(None, Left.Id(), Some(p), bg) == Crashed
    ensures UpdatePreviewColorsAsWritten(None, cached) == Crashed
  {
  }

  /**
   * After the colour picker saved WHITE over a BLACK start, the preview as written
   * still applies BLACK, the stale cached colour, while the saved preference is WHITE.
   */
  lemma StaleColorsAsWritten(s: PreviewState, store: Store)
    requires !s.backgroundComplicationEnabled
    requires store.Keys !! PreferenceKeys
    ensures var saved := Committed(store, Loaded(store).(backgroundColor := White));
            Loaded(saved).backgroundColor == White
            && UpdatePreviewColorsAsWritten(Some(s), Loaded(store)).value.state.views.backgroundFilter == Some(Black)
  {
    PreferenceKeysDistinct();
  }

  /**
   * The background-image row's click as written leaves the selected id as it was:
   * with none selected the chosen background provider is dropped, and after a LEFT
   * edit it lands on the LEFT slot, where the intended click shows it as the background.
   */
  lemma BackgroundChoiceMisroutedAsWritten(s: PreviewState, p: ProviderInfo, bg: int)
    ensures SelectedUpdate(-1, s, Some(p), bg) == s
    ensures SelectedUpdate(Left.Id(), s, Some(p), bg).views.left.icon == ProviderIcon(p.providerIcon)
    ensures SelectedUpdate(Left.Id(), s, Some(p), bg).backgroundComplicationEnabled == s.backgroundComplicationEnabled
    ensures SelectedUpdate(Background.Id(), s, Some(p), bg).backgroundComplicationEnabled
    ensures SelectedUpdate(Background.Id(), s, Some(p), bg).views.backgroundImage == ProviderIconImage(p.providerIcon)
  {
  }
}
