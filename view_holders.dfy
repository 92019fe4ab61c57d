/**
 * The top-level holders of AnalogComplicationConfigViewHolders.kt: a stand-alone
 * preview holder that keeps its own target slot and its own preferences object,
 * the colour-picker row, the unread-notification switch and the background-image row.
 */
module ConfigViewHolders {
  import opened Wrappers
  import opened Colors
  import opened Complications
  import opened Settings
  import opened ConfigData
  import opened Preview
  import opened ActivityRequests

  /**
   * The top-level PreviewAndComplicationsViewHolder. Unlike the adapter's inner
   * holder it remembers the slot it edits (`complication`, BACKGROUND at first)
   * and reloads its preferences before applying colours.
   */
  class PreviewAndComplicationsViewHolder {
    const watchFacePreferences: WatchFaceSettings
    var complication: Complication
    var backgroundComplicationEnabled: bool
    var views: PreviewViews

    function State(): PreviewState
      reads this
    {
      PreviewState(backgroundComplicationEnabled, views)
    }

    /** A holder whose preferences are loaded from `store`. */
    constructor (store: Store)
      ensures fresh(watchFacePreferences) && watchFacePreferences.Snapshot() == Loaded(store)
      ensures complication == Background && State() == InitialPreview
    {
      watchFacePreferences := new WatchFaceSettings.FromContext(store);
      complication := Background;
      backgroundComplicationEnabled := InitialPreview.backgroundComplicationEnabled;
      views := InitialPreview.views;
    }

    /** `onClick`: the LEFT and RIGHT buttons start an edit of their slot; other views do nothing. */
    method OnClick(button: PreviewButton) returns (intent: Option<Intent>)
      modifies this
      ensures button == LeftComplicationButton ==> complication == Left && intent == Some(ChooserIntentFor(Left))
      ensures button == RightComplicationButton ==> complication == Right && intent == Some(ChooserIntentFor(Right))
      ensures button == OtherView ==> complication == old(complication) && intent == None
      ensures State() == old(State())
    {
      if button == LeftComplicationButton {
        var i := LaunchComplicationHelperActivity(Left);
        intent := Some(i);
      } else if button == RightComplicationButton {
        var i := LaunchComplicationHelperActivity(Right);
        intent := Some(i);
      } else {
        intent := None;
      }
    }

    /** `launchComplicationHelperActivity`: the target becomes `c`; the background flag is kept. */
    method LaunchComplicationHelperActivity(c: Complication) returns (intent: Intent)
      modifies this
      ensures complication == c && State() == old(State())
      ensures intent == ProviderChooserIntent(c.Id(), c.SupportedTypes(), ComplicationConfigRequestCode)
    {
      complication := c;
      intent := ChooserIntentFor(c);
    }

    /** `updateWatchFaceColors`: reload from `store`, then both colours, with no conflict check. */
    method UpdateWatchFaceColors(store: Store)
      modifies this, watchFacePreferences
      ensures watchFacePreferences.Snapshot() == Loaded(store)
      ensures State() == ApplyColorsUnchecked(old(State()), Loaded(store).backgroundColor, Loaded(store).watchHandHighlightColor)
      ensures complication == old(complication)
    {
      watchFacePreferences.ReloadSavedPreferences(store);
      views := views.(backgroundFilter := Some(watchFacePreferences.backgroundColor));
      views := views.(highlightFilter := Some(watchFacePreferences.watchHandHighlightColor));
    }

    /** `setDefaultComplicationDrawable`. */
    method SetDefaultComplicationDrawable(d: Drawable)
      modifies this
      ensures State() == SetDefaultDrawable(old(State()), d) && complication == old(complication)
    {
      views := views.(defaultDrawable := Some(d));
      views := views.(left := views.left.(icon := DrawableIcon(Some(d)), background := Invisible));
      views := views.(right := views.right.(icon := DrawableIcon(Some(d)), background := Invisible));
    }

    /** `updateComplicationViews(info)`: the result goes to the stored target slot. */
    method UpdateComplicationViews(info: Option<ProviderInfo>)
      modifies this
      ensures State() == ApplyProviderToTarget(old(State()), complication, info, watchFacePreferences.backgroundColor)
      ensures complication == old(complication)
    {
      match complication
      case Background =>
        if info.Some? {
          backgroundComplicationEnabled := true;
          views := views.(backgroundFilter := Some(Gray), backgroundImage := ProviderIconImage(info.value.providerIcon));
        } else {
          backgroundComplicationEnabled := false;
          views := views.(backgroundImage := TransparentImage);
          views := views.(backgroundFilter := Some(watchFacePreferences.backgroundColor));
        }
      case Left =>
        views := views.(left := SlotViewFor(info, views.defaultDrawable));
      case Right =>
        views := views.(right := SlotViewFor(info, views.defaultDrawable));
    }

    /** `initializesColorsAndComplications`: highlight colour and gray background only. */
    method InitializesColorsAndComplications()
      modifies this
      ensures State() == InitializeColors(old(State()), watchFacePreferences.watchHandHighlightColor)
      ensures complication == old(complication)
    {
      views := views.(highlightFilter := Some(watchFacePreferences.watchHandHighlightColor));
      views := views.(backgroundFilter := Some(Gray));
    }
  }

  /** A provider result after a LEFT or RIGHT edit start reaches that slot, not the background. */
  lemma EditStartRetargets(s: PreviewState, c: Complication, info: Option<ProviderInfo>, bg: int)
    requires c != Background
    ensures ApplyProviderToTarget(s, c, info, bg).backgroundComplicationEnabled == s.backgroundComplicationEnabled
    ensures ApplyProviderToTarget(s, c, info, bg).views.backgroundImage == s.views.backgroundImage
  {
  }

  /** With BACKGROUND as the target, the flag becomes true iff a provider is present. */
  lemma BackgroundTargetSetsFlag(s: PreviewState, info: Option<ProviderInfo>, bg: int)
    ensures ApplyProviderToTarget(s, Background, info, bg).backgroundComplicationEnabled <==> info.Some?
    ensures FlagShowsImage(ApplyProviderToTarget(s, Background, info, bg))
  {
  }

  /** Colour-picker row: launches the activity it was bound with, for UPDATE_COLORS_CONFIG_REQUEST_CODE. */
  class ColorPickerViewHolder {
    var launchActivityToSelectColor: Option<ActivityClass>

    constructor ()
      ensures launchActivityToSelectColor == None
    {
      launchActivityToSelectColor := None;
    }

    method SetLaunchActivityToSelectColor(activity: ActivityClass)
      modifies this
      ensures launchActivityToSelectColor == Some(activity)
    {
      launchActivityToSelectColor := Some(activity);
    }

    /** `onClick`: nothing before an activity is bound. */
    method OnClick() returns (intent: Option<Intent>)
      ensures launchActivityToSelectColor.None? <==> intent.None?
      ensures intent.Some? ==> intent.value == ActivityIntent(launchActivityToSelectColor.value, UpdateColorsConfigRequestCode)
    {
      if launchActivityToSelectColor.Some? {
        intent := Some(ActivityIntent(launchActivityToSelectColor.value, UpdateColorsConfigRequestCode));
      } else {
        intent := None;
      }
    }
  }

  /** The icon a switch shows: the one from the layout, or a resource (None: resource id 0). */
  datatype SwitchIcon = InflatedIcon | IconResource(id: Option<Drawable>)

  /** The preference file after one click on the unread row. */
  function ToggledUnread(store: Store): (saved: Store)
    ensures GetBoolean(saved, SavedUnreadNotifications, true) == !GetBoolean(store, SavedUnreadNotifications, true)
    ensures Loaded(saved).backgroundColor == Loaded(store).backgroundColor
    ensures Loaded(saved).watchHandHighlightColor == Loaded(store).watchHandHighlightColor
    ensures forall k :: k in store && k !in PreferenceKeys ==> k in saved && saved[k] == store[k]
  {
    var prefs := Loaded(store);
    CommitReloadRoundTrip(store, prefs.(unreadNotifications := !prefs.unreadNotifications));
    Committed(store, prefs.(unreadNotifications := !prefs.unreadNotifications))
  }

  /** Two clicks on the unread row restore every preference the first reload saw. */
  lemma UnreadToggleTwice(store: Store)
    ensures Loaded(ToggledUnread(ToggledUnread(store))) == Loaded(store)
  {
  }

  /** The unread-notification switch row. */
  class UnreadNotificationViewHolder {
    var enabledIconResourceId: Option<Drawable>
    var disabledIconResourceId: Option<Drawable>
    var checked: Option<bool>
    var shownIcon: SwitchIcon

    /** As inflated: both icon ids 0, the switch's state and icon from the layout. */
    constructor ()
      ensures enabledIconResourceId == None && disabledIconResourceId == None
      ensures checked == None && shownIcon == InflatedIcon
    {
      enabledIconResourceId := None;
      disabledIconResourceId := None;
      checked := None;
      shownIcon := InflatedIcon;
    }

    /** `setIcons`: stores both ids and shows the enabled icon. */
    method SetIcons(enabledIcon: Drawable, disabledIcon: Drawable)
      modifies this
      ensures enabledIconResourceId == Some(enabledIcon) && disabledIconResourceId == Some(disabledIcon)
      ensures shownIcon == IconResource(Some(enabledIcon)) && checked == old(checked)
    {
      enabledIconResourceId := Some(enabledIcon);
      disabledIconResourceId := Some(disabledIcon);
      shownIcon := IconResource(enabledIconResourceId);
    }

    /** `updateIcon`: the switch shows `currentState` and the matching icon. */
    method UpdateIcon(currentState: bool)
      modifies this
      ensures checked == Some(currentState)
      ensures shownIcon == IconResource(if currentState then enabledIconResourceId else disabledIconResourceId)
      ensures enabledIconResourceId == old(enabledIconResourceId) && disabledIconResourceId == old(disabledIconResourceId)
    {
      var currentIconResourceId := if currentState then enabledIconResourceId else disabledIconResourceId;
      checked := Some(currentState);
      shownIcon := IconResource(currentIconResourceId);
    }

    /** `onClick`: load the preferences, flip the unread flag, commit, and show the new state. */
    method OnClick(store: Store) returns (saved: Store)
      modifies this
      ensures saved == ToggledUnread(store)
      ensures checked == Some(!Loaded(store).unreadNotifications)
      ensures shownIcon == IconResource(if checked.value then enabledIconResourceId else disabledIconResourceId)
      ensures enabledIconResourceId == old(enabledIconResourceId) && disabledIconResourceId == old(disabledIconResourceId)
    {
      var watchFacePreferences := new WatchFaceSettings.FromContext(store);
      watchFacePreferences.unreadNotifications := !watchFacePreferences.unreadNotifications;
      saved := watchFacePreferences.CommitChangedPreferences(store);
      UpdateIcon(watchFacePreferences.unreadNotifications);
    }
  }

  /**
   * The background-image row's `onClick` as written: it starts the chooser for
   * BACKGROUND but does not tell the adapter which slot is being edited.
   */
  function BackgroundComplicationClickAsWritten(): (intent: Intent)
    ensures intent == ChooserIntentFor(Background)
    ensures intent.supportedTypes == [LargeImage] && intent.requestCode == ComplicationConfigRequestCode
  {
    ProviderChooserIntent(Background.Id(), Background.SupportedTypes(), ComplicationConfigRequestCode)
  }
}
