/**
 * The colour picker's list (config/color/ColorSelectionRecyclerViewAdapter.kt):
 * one circle per palette colour; a click saves that colour as the background
 * colour and finishes the picker with RESULT_OK.
 */
module ColorSelection {
  import opened Wrappers
  import opened Settings
  import opened ActivityRequests

  /** How the picker activity ends: `setResult(code)` or `setResult(code, data)`, then `finish()`. */
  datatype ActivityOutcome = Finished(resultCode: int, data: Option<ResultIntent>)

  /** The preference file after choosing `color`: only the background colour differs from what was loaded. */
  function ColorChosen(store: Store, color: int): (saved: Store)
    ensures Loaded(saved).backgroundColor == color
    ensures Loaded(saved).watchHandHighlightColor == Loaded(store).watchHandHighlightColor
    ensures Loaded(saved).unreadNotifications == Loaded(store).unreadNotifications
    ensures saved.Keys == store.Keys + PreferenceKeys
    ensures forall k :: k in store && k !in PreferenceKeys ==> saved[k] == store[k]
  {
    CommitReloadRoundTrip(store, Loaded(store).(backgroundColor := color));
    Committed(store, Loaded(store).(backgroundColor := color))
  }

  class ColorSelectionRecyclerViewAdapter {
    const colorOptionsDataSet: seq<int>

    constructor (dataSet: seq<int>)
      ensures colorOptionsDataSet == dataSet
    {
      colorOptionsDataSet := dataSet;
    }

    /** `getItemCount`: one row per palette entry. */
    function GetItemCount(): (n: nat)
      ensures n == |colorOptionsDataSet|
    {
      |colorOptionsDataSet|
    }

    /** `onCreateViewHolder`: a colour holder with no colour shown yet. */
    method OnCreateViewHolder() returns (holder: ColorViewHolder)
      ensures fresh(holder) && holder.outer == this && holder.circleColor == None
    {
      holder := new ColorViewHolder(this);
    }

    /** `onBindViewHolder`: the holder at `position` shows the palette colour at `position`. */
    method OnBindViewHolder(holder: ColorViewHolder, position: int)
      requires 0 <= position < |colorOptionsDataSet|
      modifies holder
      ensures holder.circleColor == Some(colorOptionsDataSet[position])
    {
      holder.SetColor(colorOptionsDataSet[position]);
    }
  }

  /** The inner ColorViewHolder: one colour circle. */
  class ColorViewHolder {
    const outer: ColorSelectionRecyclerViewAdapter
    var circleColor: Option<int>

    constructor (adapter: ColorSelectionRecyclerViewAdapter)
      ensures outer == adapter && circleColor == None
    {
      outer := adapter;
      circleColor := None;
    }

    method SetColor(color: int)
      modifies this
      ensures circleColor == Some(color)
    {
      circleColor := Some(color);
    }

    /**
     * `onClick` on the holder at `adapterPosition`: load the preferences from
     * `store`, set only the background colour, commit, and finish with RESULT_OK.
     */
    method OnClick(adapterPosition: int, store: Store) returns (saved: Store, outcome: ActivityOutcome)
      requires 0 <= adapterPosition < |outer.colorOptionsDataSet|
      ensures saved == ColorChosen(store, outer.colorOptionsDataSet[adapterPosition])
      ensures outcome == Finished(ResultOk, None)
    {
      var color := outer.colorOptionsDataSet[adapterPosition];
      var watchFacePreferences := new WatchFaceSettings.FromContext(store);
      watchFacePreferences.backgroundColor := color;
      saved := watchFacePreferences.CommitChangedPreferences(store);
      outcome := Finished(ResultOk, None);
    }
  }

  /** Choosing the colour that is already saved leaves the loaded preferences as they were. */
  lemma ChoosingSavedColorKeepsPreferences(store: Store)
    ensures Loaded(ColorChosen(store, Loaded(store).backgroundColor)) == Loaded(store)
  {
    ReloadCommitReload(store);
  }
}
