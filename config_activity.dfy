/**
 * The request codes of the configuration activity's companion object and the
 * intents the configuration screen starts activities with.
 */
module ActivityRequests {
  import opened Wrappers
  import opened Complications
  import opened ConfigData
  import opened Preview

  const ComplicationConfigRequestCode: int := 1001
  const UpdateColorsConfigRequestCode: int := 1002

  /** android.app.Activity.RESULT_OK and RESULT_CANCELED. */
  const ResultOk: int := -1
  const ResultCanceled: int := 0

  /** An intent started for a result: the provider chooser for a slot, or an activity class. */
  datatype Intent =
    | ProviderChooserIntent(complicationId: int, supportedTypes: seq<DataType>, requestCode: int)
    | ActivityIntent(activity: ActivityClass, requestCode: int)

  /**
   * The intent an activity hands back with its result. Only its
   * EXTRA_PROVIDER_INFO extra is read here; it is absent (null) unless the
   * provider chooser put one in.
   */
  datatype ResultIntent = ResultIntent(providerInfo: Option<ProviderInfo>)

  /** `createProviderChooserHelperIntent(..., c.id, *c.supportedTypes)` started with COMPLICATION_CONFIG_REQUEST_CODE. */
  function ChooserIntentFor(c: Complication): Intent
  {
    ProviderChooserIntent(c.Id(), c.SupportedTypes(), ComplicationConfigRequestCode)
  }

  /** The two request codes differ, and neither is a result code. */
  lemma RequestCodesDistinct()
    ensures ComplicationConfigRequestCode != UpdateColorsConfigRequestCode
    ensures ResultOk != ResultCanceled
  {
  }
}

/**
 * AnalogComplicationConfigActivity: creates the configuration list and routes the
 * results of the activities it started back into the list's adapter.
 */
module ConfigActivity {
  import opened Wrappers
  import opened Settings
  import opened ConfigData
  import opened Preview
  import opened ActivityRequests
  import opened ConfigListAdapter
  import ColorSelection

  /** Where `onActivityResult` sends a result. */
  datatype Route = ToUpdateSelectedComplication | ToUpdatePreviewColors | Ignored

  /** The branch `onActivityResult` takes for a request code and a result code. */
  function RouteFor(requestCode: int, resultCode: int): (r: Route)
    ensures r == ToUpdateSelectedComplication <==> requestCode == ComplicationConfigRequestCode && resultCode == ResultOk
    ensures r == ToUpdatePreviewColors <==> requestCode == UpdateColorsConfigRequestCode && resultCode == ResultOk
    ensures r == Ignored <==> requestCode !in {ComplicationConfigRequestCode, UpdateColorsConfigRequestCode} || resultCode != ResultOk
  {
    if requestCode == ComplicationConfigRequestCode && resultCode == ResultOk then ToUpdateSelectedComplication
    else if requestCode == UpdateColorsConfigRequestCode && resultCode == ResultOk then ToUpdatePreviewColors
    else Ignored
  }

  /** A cancelled chooser or colour picker is not routed to the adapter, whatever its request code. */
  lemma CancelledResultIgnored(requestCode: int)
    ensures RouteFor(requestCode, ResultCanceled) == Ignored
  {
  }

  /** `data?.getParcelableExtra(EXTRA_PROVIDER_INFO)`: no intent carries no provider. */
  function ProviderInfoOf(data: Option<ResultIntent>): Option<ProviderInfo>
  {
    if data.Some? then data.value.providerInfo else None
  }

  /**
   * `onActivityResult` as written: `data` is declared as a non-null `Intent`, so
   * Kotlin's parameter check on entry throws for a result with no intent, before
   * either branch is tried; otherwise the result takes its route.
   */
  function OnActivityResultAsWritten(requestCode: int, resultCode: int, data: Option<ResultIntent>): (r: Step<Route>)
    ensures r == Crashed <==> data.None?
    ensures r.Completed? ==> r.value == RouteFor(requestCode, resultCode)
  {
    if data.None? then Crashed else Completed(RouteFor(requestCode, resultCode))
  }

  /**
   * The colour picker finishes with RESULT_OK and no intent, so as written every
   * colour choice crashes the configuration activity instead of updating the
   * preview; backing out of either activity (RESULT_CANCELED, no intent) crashes
   * it as well. With `data` nullable the colour result is routed to the preview.
   */
  lemma PickerResultCrashesAsWritten(requestCode: int, color: int)
    ensures var outcome := ColorSelection.Finished(ResultOk, None);
            OnActivityResultAsWritten(UpdateColorsConfigRequestCode, outcome.resultCode, outcome.data) == Crashed
            && RouteFor(UpdateColorsConfigRequestCode, outcome.resultCode) == ToUpdatePreviewColors
    ensures OnActivityResultAsWritten(requestCode, ResultCanceled, None) == Crashed
  {
  }

  class AnalogComplicationConfigActivity {
    var adapter: ConfigAdapter?

    constructor ()
      ensures adapter == null
    {
      adapter := null;
    }

    /** `onCreate`: the adapter over the six rows, with the preferences file's contents `store`. */
    method OnCreate(store: Store)
      modifies this
      ensures adapter != null && fresh(adapter) && fresh(adapter.watchFacePreferences)
      ensures adapter.settingsDataSet == GetDataToPopulateAdapter()
      ensures adapter.selectedComplicationId == -1 && adapter.previewHolder == null
      ensures adapter.watchFacePreferences.Snapshot() == Loaded(store)
      ensures adapter.Valid()
    {
      adapter := new ConfigAdapter(store, GetDataToPopulateAdapter());
    }

    /**
     * `onActivityResult` with `data` declared nullable (`Intent?`), the result
     * handlers being the adapter's corrected ones: `data` is the intent handed back,
     * if any, and `store` the preferences file's contents when the result arrives.
     * `conflictNotice` is the "selected image overrides background colour" toast.
     */
    method OnActivityResult(requestCode: int, resultCode: int, data: Option<ResultIntent>, store: Store)
      returns (conflictNotice: bool)
      requires adapter != null && adapter.Valid()
      modifies adapter.previewHolder, adapter.watchFacePreferences
      ensures adapter.Valid()
      ensures conflictNotice <==>
        RouteFor(requestCode, resultCode) == ToUpdatePreviewColors && adapter.previewHolder != null
        && old(adapter.previewHolder.backgroundComplicationEnabled)
      ensures RouteFor(requestCode, resultCode) == ToUpdateSelectedComplication && adapter.previewHolder != null ==>
        adapter.previewHolder.State()
          == SelectedUpdate(adapter.selectedComplicationId, old(adapter.previewHolder.State()), ProviderInfoOf(data),
                            adapter.watchFacePreferences.backgroundColor)
      ensures RouteFor(requestCode, resultCode) == ToUpdatePreviewColors ==>
        adapter.watchFacePreferences.Snapshot() == Loaded(store)
      ensures RouteFor(requestCode, resultCode) == ToUpdatePreviewColors && adapter.previewHolder != null ==>
        adapter.previewHolder.State()
          == ApplyColorsChecked(old(adapter.previewHolder.State()), Loaded(store).backgroundColor,
                                Loaded(store).watchHandHighlightColor).state
      ensures RouteFor(requestCode, resultCode) != ToUpdatePreviewColors ==> unchanged(adapter.watchFacePreferences)
      ensures RouteFor(requestCode, resultCode) == Ignored && adapter.previewHolder != null ==> unchanged(adapter.previewHolder)
    {
      var route := RouteFor(requestCode, resultCode);
      conflictNotice := false;
      if route == ToUpdateSelectedComplication {
        adapter.UpdateSelectedComplication(ProviderInfoOf(data));
      } else if route == ToUpdatePreviewColors {
        conflictNotice := adapter.UpdatePreviewColors(store);
      }
    }
  }
}
