/**
 * The Java colour picker's list (config/ColorSelectionRecyclerViewAdapter.java).
 * It differs from the Kotlin one in where the preferences live: one shared object,
 * made with the defaults, reloaded each time a holder is created, and then changed
 * and committed by the clicks.
 */
module JavaColorSelection {
  import opened Wrappers
  import opened Settings
  import opened ActivityRequests
  import ColorSelection

  class ColorSelectionRecyclerViewAdapter {
    const colorOptionsDataSet: seq<int>
    const watchFacePreferences: WatchFaceSettings

    /** The shared preferences start as `new WatchFacePreferences()`, the defaults. */
    constructor (colorSettingsDataSet: seq<int>)
      ensures colorOptionsDataSet == colorSettingsDataSet
      ensures fresh(watchFacePreferences) && watchFacePreferences.Snapshot() == Defaults
    {
      colorOptionsDataSet := colorSettingsDataSet;
      watchFacePreferences := new WatchFaceSettings();
    }

    /** `getItemCount`: one row per palette entry. */
    function GetItemCount(): (n: nat)
      ensures n == |colorOptionsDataSet|
    {
      |colorOptionsDataSet|
    }

    /** `onCreateViewHolder`: reloads the shared preferences from `store` before making the holder. */
    method OnCreateViewHolder(store: Store) returns (holder: ColorViewHolder)
      modifies watchFacePreferences
      ensures watchFacePreferences.Snapshot() == Loaded(store)
      ensures fresh(holder) && holder.outer == this && holder.circleColor == None
    {
      watchFacePreferences.ReloadSavedPreferences(store);
      holder := new ColorViewHolder(this);
    }

    /** `onBindViewHolder`: the holder at `position` shows colour `position`. */
    method OnBindViewHolder(holder: ColorViewHolder, position: int)
      requires 0 <= position < |colorOptionsDataSet|
      modifies holder
      ensures holder.circleColor == Some(colorOptionsDataSet[position])
    {
      holder.SetColor(colorOptionsDataSet[position]);
    }
  }

  class ColorViewHolder {
    const outer: ColorSelectionRecyclerViewAdapter
    var circleColor: Option<int>

    constructor (adapter: ColorSelectionRecyclerViewAdapter)
      ensures outer == adapter && circleColor == None
    {
      outer := adapter;
      circleColor := None;
    }

    method SetColor(color: int)
      modifies this
      ensures circleColor == Some(color)
    {
      circleColor := Some(color);
    }

    /**
     * `onClick`: the shared preferences get the colour at `adapterPosition` as their
     * background colour (nothing else), are committed into `store`, and the picker
     * finishes with RESULT_OK.
     */
    method OnClick(adapterPosition: int, store: Store) returns (saved: Store, outcome: ColorSelection.ActivityOutcome)
      requires 0 <= adapterPosition < |outer.colorOptionsDataSet|
      modifies outer.watchFacePreferences
      ensures outer.watchFacePreferences.Snapshot()
           == old(outer.watchFacePreferences.Snapshot()).(backgroundColor := outer.colorOptionsDataSet[adapterPosition])
      ensures saved == Committed(store, outer.watchFacePreferences.Snapshot())
      ensures outcome == ColorSelection.Finished(ResultOk, None)
    {
      var color := outer.colorOptionsDataSet[adapterPosition];
      outer.watchFacePreferences.backgroundColor := color;
      saved := outer.watchFacePreferences.CommitChangedPreferences(store);
      outcome := ColorSelection.Finished(ResultOk, None);
    }
  }

  /**
   * When the shared preferences were last reloaded from the same file the click
   * commits into, the Java click saves exactly what the Kotlin click saves.
   */
  lemma SameAsKotlinWhenFresh(store: Store, color: int)
    ensures Committed(store, Loaded(store).(backgroundColor := color)) == ColorSelection.ColorChosen(store, color)
  {
  }

  /**
   * A click commits the cached highlight and unread values: if the file changed
   * after the last reload, those changes are overwritten.
   */
  lemma CachedValuesOverwriteFile(store: Store, cached: Appearance, color: int)
    ensures Loaded(Committed(store, cached.(backgroundColor := color))).watchHandHighlightColor == cached.watchHandHighlightColor
    ensures Loaded(Committed(store, cached.(backgroundColor := color))).unreadNotifications == cached.unreadNotifications
    ensures Loaded(Committed(store, cached.(backgroundColor := color))).backgroundColor == color
  {
    CommitReloadRoundTrip(store, cached.(backgroundColor := color));
  }
}
