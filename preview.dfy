/**
 * What the watch-face preview row shows, as values, and how a provider result or a
 * colour change alters it. Both preview holders (the adapter's inner
 * PreviewAndComplicationsViewHolder and the top-level one in
 * AnalogComplicationConfigViewHolders.kt) update the same views in the same way;
 * they differ only in how they pick the slot to update and in the colour rule.
 */
module Preview {
  import opened Wrappers
  import opened Colors
  import opened Complications
  import opened ConfigData

  /** An opaque Icon handle (`providerIcon`). */
  type IconRef = int

  /** A ComplicationProviderInfo: the provider the chooser or the lookup reports for a slot. */
  datatype ProviderInfo = ProviderInfo(appName: string, providerName: string, providerIcon: IconRef)

  /** The image on a slot's button. */
  datatype SlotIcon = LayoutIcon | DrawableIcon(drawable: Option<Drawable>) | ProviderIcon(icon: IconRef)

  /** The button's content description. */
  datatype Description = LayoutDescription | AddComplicationDescription | EditComplicationDescription(provider: string)

  datatype Visibility = LayoutVisibility | Visible | Invisible

  /** A LEFT or RIGHT slot: its button and the ring behind it. */
  datatype SlotView = SlotView(icon: SlotIcon, description: Description, background: Visibility)

  /** The image drawn on the background preview. */
  datatype BackgroundImage = LayoutImage | TransparentImage | ProviderIconImage(icon: IconRef)

  /** The preview row's views (colour filters are None until first set). */
  datatype PreviewViews = PreviewViews(
    backgroundFilter: Option<int>,
    backgroundImage: BackgroundImage,
    highlightFilter: Option<int>,
    left: SlotView,
    right: SlotView,
    defaultDrawable: Option<Drawable>)

  /** The holder's `mBackgroundComplicationEnabled` flag and its views. */
  datatype PreviewState = PreviewState(backgroundComplicationEnabled: bool, views: PreviewViews)

  /** The view a click on the preview row lands on. */
  datatype PreviewButton = LeftComplicationButton | RightComplicationButton | OtherView

  const LayoutSlot: SlotView := SlotView(LayoutIcon, LayoutDescription, LayoutVisibility)

  /** A freshly inflated preview row. */
  const InitialPreview: PreviewState :=
    PreviewState(false, PreviewViews(None, LayoutImage, None, LayoutSlot, LayoutSlot, None))

  /** The text `edit_complication` is formatted with. */
  function ProviderLabel(info: ProviderInfo): string
  {
    info.appName + " " + info.providerName
  }

  /** `updateComplicationView`: a LEFT or RIGHT slot after a provider result. */
  function SlotViewFor(info: Option<ProviderInfo>, defaultDrawable: Option<Drawable>): (v: SlotView)
    ensures v.background == Visible <==> info.Some?
    ensures v.background == Invisible <==> info.None?
    ensures info.Some? ==> v.icon == ProviderIcon(info.value.providerIcon)
                           && v.description == EditComplicationDescription(ProviderLabel(info.value))
    ensures info.None? ==> v.icon == DrawableIcon(defaultDrawable) && v.description == AddComplicationDescription
  {
    match info
    case Some(p) => SlotView(ProviderIcon(p.providerIcon), EditComplicationDescription(ProviderLabel(p)), Visible)
    case None => SlotView(DrawableIcon(defaultDrawable), AddComplicationDescription, Invisible)
  }

  /** The BACKGROUND branch: the provider's icon on gray, or no image over the preference colour. */
  function ShowBackgroundProvider(s: PreviewState, info: Option<ProviderInfo>, preferenceBackground: int): (t: PreviewState)
    ensures t.backgroundComplicationEnabled <==> info.Some?
    ensures info.Some? ==> t.views.backgroundFilter == Some(Gray)
                           && t.views.backgroundImage == ProviderIconImage(info.value.providerIcon)
    ensures info.None? ==> t.views.backgroundFilter == Some(preferenceBackground)
                           && t.views.backgroundImage == TransparentImage
    ensures t.views.left == s.views.left && t.views.right == s.views.right
    ensures t.views.highlightFilter == s.views.highlightFilter && t.views.defaultDrawable == s.views.defaultDrawable
  {
    match info
    case Some(p) => PreviewState(true, s.views.(backgroundFilter := Some(Gray), backgroundImage := ProviderIconImage(p.providerIcon)))
    case None => PreviewState(false, s.views.(backgroundFilter := Some(preferenceBackground), backgroundImage := TransparentImage))
  }

  /** `updateComplicationViews(id, info)` of the adapter's inner holder: dispatch on the id argument. */
  function ApplyProviderById(s: PreviewState, id: int, info: Option<ProviderInfo>, preferenceBackground: int): PreviewState
  {
    if id == Background.Id() then ShowBackgroundProvider(s, info, preferenceBackground)
    else if id == Left.Id() then s.(views := s.views.(left := SlotViewFor(info, s.views.defaultDrawable)))
    else if id == Right.Id() then s.(views := s.views.(right := SlotViewFor(info, s.views.defaultDrawable)))
    else s
  }

  /** `updateComplicationViews(info)` of the top-level holder: dispatch on the stored target slot. */
  function ApplyProviderToTarget(s: PreviewState, target: Complication, info: Option<ProviderInfo>, preferenceBackground: int): PreviewState
  {
    match target
    case Background => ShowBackgroundProvider(s, info, preferenceBackground)
    case Left => s.(views := s.views.(left := SlotViewFor(info, s.views.defaultDrawable)))
    case Right => s.(views := s.views.(right := SlotViewFor(info, s.views.defaultDrawable)))
  }

  /** `setDefaultComplicationDrawable`: both slot buttons show the default drawable, rings hidden. */
  function SetDefaultDrawable(s: PreviewState, d: Drawable): (t: PreviewState)
    ensures t.views.defaultDrawable == Some(d)
    ensures t.views.left.icon == t.views.right.icon == DrawableIcon(Some(d))
    ensures t.views.left.background == t.views.right.background == Invisible
    ensures t.backgroundComplicationEnabled == s.backgroundComplicationEnabled
  {
    s.(views := s.views.(
      defaultDrawable := Some(d),
      left := s.views.left.(icon := DrawableIcon(Some(d)), background := Invisible),
      right := s.views.right.(icon := DrawableIcon(Some(d)), background := Invisible)))
  }

  /** `initializesColorsAndComplications` (view part): highlight colour on, background gray. */
  function InitializeColors(s: PreviewState, highlight: int): PreviewState
  {
    s.(views := s.views.(highlightFilter := Some(highlight), backgroundFilter := Some(Gray)))
  }

  /** A colour update and whether it raised the "image overrides background colour" notice. */
  datatype ColorUpdate = ColorUpdate(state: PreviewState, conflictNotice: bool)

  /** The inner holder's `updateWatchFaceColors`: background colour only without a background image. */
  function ApplyColorsChecked(s: PreviewState, background: int, highlight: int): (r: ColorUpdate)
    ensures r.conflictNotice <==> s.backgroundComplicationEnabled
    ensures r.state.views.backgroundFilter == (if s.backgroundComplicationEnabled then s.views.backgroundFilter else Some(background))
    ensures r.state.views.highlightFilter == Some(highlight)
    ensures r.state.backgroundComplicationEnabled == s.backgroundComplicationEnabled
    ensures r.state.views.backgroundImage == s.views.backgroundImage
    ensures r.state.views.left == s.views.left && r.state.views.right == s.views.right
  {
    var withBackground := if s.backgroundComplicationEnabled then s.views else s.views.(backgroundFilter := Some(background));
    ColorUpdate(s.(views := withBackground.(highlightFilter := Some(highlight))), s.backgroundComplicationEnabled)
  }

  /** The top-level holder's `updateWatchFaceColors`: both colours, no conflict check. */
  function ApplyColorsUnchecked(s: PreviewState, background: int, highlight: int): (t: PreviewState)
    ensures t.views.backgroundFilter == Some(background) && t.views.highlightFilter == Some(highlight)
    ensures t.backgroundComplicationEnabled == s.backgroundComplicationEnabled
    ensures t.views.backgroundImage == s.views.backgroundImage
  {
    s.(views := s.views.(backgroundFilter := Some(background), highlightFilter := Some(highlight)))
  }

  /** The background flag is set only together with a provider icon on the background preview. */
  ghost predicate FlagShowsImage(s: PreviewState)
  {
    s.backgroundComplicationEnabled ==> s.views.backgroundImage.ProviderIconImage?
  }

  // ---- Properties of a single provider result ----

  /** For BACKGROUND the flag becomes true iff a provider is present; the other slots are untouched. */
  lemma BackgroundResultSetsFlag(s: PreviewState, info: Option<ProviderInfo>, bg: int)
    ensures ApplyProviderById(s, Background.Id(), info, bg).backgroundComplicationEnabled <==> info.Some?
    ensures FlagShowsImage(ApplyProviderById(s, Background.Id(), info, bg))
    ensures ApplyProviderById(s, Background.Id(), info, bg).views.left == s.views.left
    ensures ApplyProviderById(s, Background.Id(), info, bg).views.right == s.views.right
  {
  }

  /**
   * A LEFT or RIGHT result leaves the background (flag, image and colour), the
   * highlight, the default drawable and the other side slot as they were, and does
   * not depend on the background colour preference.
   */
  lemma SideResultTouchesOnlyItsSlot(s: PreviewState, c: Complication, info: Option<ProviderInfo>, bg: int, otherBg: int)
    requires c != Background
    ensures var t := ApplyProviderById(s, c.Id(), info, bg);
      && t.backgroundComplicationEnabled == s.backgroundComplicationEnabled
      && t.views.backgroundImage == s.views.backgroundImage
      && t.views.backgroundFilter == s.views.backgroundFilter
      && t.views.highlightFilter == s.views.highlightFilter
      && t.views.defaultDrawable == s.views.defaultDrawable
      && (c == Left ==> t.views.right == s.views.right)
      && (c == Right ==> t.views.left == s.views.left)
    ensures ApplyProviderById(s, c.Id(), info, bg) == ApplyProviderById(s, c.Id(), info, otherBg)
  {
  }

  /** A result for an id that is not a slot id changes nothing. */
  lemma UnknownIdChangesNothing(s: PreviewState, id: int, info: Option<ProviderInfo>, bg: int)
    requires id !in GetAllIds()
    ensures ApplyProviderById(s, id, info, bg) == s
  {
  }

  /** Dispatching on a slot's id is dispatching on the slot itself: the two holders agree. */
  lemma DispatchByIdMatchesTarget(s: PreviewState, c: Complication, info: Option<ProviderInfo>, bg: int)
    ensures ApplyProviderById(s, c.Id(), info, bg) == ApplyProviderToTarget(s, c, info, bg)
  {
  }

  /** Every single update keeps "flag implies provider image". */
  lemma UpdatesKeepFlagShowsImage(s: PreviewState, id: int, info: Option<ProviderInfo>, bg: int, hl: int, d: Drawable)
    requires FlagShowsImage(s)
    ensures FlagShowsImage(ApplyProviderById(s, id, info, bg))
    ensures FlagShowsImage(ApplyColorsChecked(s, bg, hl).state)
    ensures FlagShowsImage(ApplyColorsUnchecked(s, bg, hl))
    ensures FlagShowsImage(SetDefaultDrawable(s, d))
    ensures FlagShowsImage(InitializeColors(s, hl))
  {
  }

  /** Results for two different ids commute: slots do not interfere whatever the arrival order. */
  lemma DistinctIdsCommute(s: PreviewState, a: int, ia: Option<ProviderInfo>, b: int, ib: Option<ProviderInfo>, bg: int)
    requires a != b
    ensures ApplyProviderById(ApplyProviderById(s, a, ia, bg), b, ib, bg)
         == ApplyProviderById(ApplyProviderById(s, b, ib, bg), a, ia, bg)
  {
  }

  /** A later result for the same id replaces an earlier one: the last arrival wins, with no precedence. */
  lemma SameIdLastWins(s: PreviewState, id: int, first: Option<ProviderInfo>, second: Option<ProviderInfo>, bg: int)
    ensures ApplyProviderById(ApplyProviderById(s, id, first, bg), id, second, bg) == ApplyProviderById(s, id, second, bg)
  {
  }

  // ---- The bulk lookup: one result per requested id, in arrival order ----

  /** A provider-info callback: the slot id and the provider reported for it. */
  datatype LookupResult = LookupResult(id: int, info: Option<ProviderInfo>)

  /** The preview after the callbacks `results` have arrived in this order. */
  function ApplyLookupResults(s: PreviewState, results: seq<LookupResult>, bg: int): PreviewState
    decreases |results|
  {
    if results == [] then s
    else ApplyLookupResults(ApplyProviderById(s, results[0].id, results[0].info, bg), results[1..], bg)
  }

  /** The last result reported for `id`, if any. */
  function LastResultFor(results: seq<LookupResult>, id: int): (r: Option<Option<ProviderInfo>>)
    ensures r.None? <==> forall k :: 0 <= k < |results| ==> results[k].id != id
    ensures r.Some? ==> exists k :: 0 <= k < |results| && results[k] == LookupResult(id, r.value)
                                    && forall j :: k < j < |results| ==> results[j].id != id
    decreases |results|
  {
    if results == [] then None
    else if results[|results| - 1].id == id then Some(results[|results| - 1].info)
    else
      var init := results[..|results| - 1];
      var r := LastResultFor(init, id);
      assert forall k :: 0 <= k < |results| - 1 ==> init[k] == results[k];
      if r.None? then r
      else
        var k :| 0 <= k < |init| && init[k] == LookupResult(id, r.value)
                 && forall j :: k < j < |init| ==> init[j].id != id;
        assert forall j :: k < j < |results| ==> results[j].id != id;
        r
  }

  /** The slot view `v` after a possible last result `last`. */
  function SlotAfter(v: SlotView, last: Option<Option<ProviderInfo>>, defaultDrawable: Option<Drawable>): SlotView
  {
    match last
    case None => v
    case Some(info) => SlotViewFor(info, defaultDrawable)
  }

  /** The background image after a possible last BACKGROUND result `last`. */
  function BackgroundImageAfter(image: BackgroundImage, last: Option<Option<ProviderInfo>>): BackgroundImage
  {
    match last
    case None => image
    case Some(None) => TransparentImage
    case Some(Some(p)) => ProviderIconImage(p.providerIcon)
  }

  /** The background colour filter after a possible last BACKGROUND result `last`. */
  function BackgroundFilterAfter(filter: Option<int>, preferenceBackground: int, last: Option<Option<ProviderInfo>>): Option<int>
  {
    match last
    case None => filter
    case Some(None) => Some(preferenceBackground)
    case Some(Some(_)) => Some(Gray)
  }

  /** Splitting a run of results: apply the prefix, then the last one. */
  lemma {:induction false} ApplyLookupResultsSnoc(s: PreviewState, results: seq<LookupResult>, r: LookupResult, bg: int)
    ensures ApplyLookupResults(s, results + [r], bg) == ApplyProviderById(ApplyLookupResults(s, results, bg), r.id, r.info, bg)
    decreases |results|
  {
    if results == [] {
      assert [r][1..] == [];
    } else {
      assert (results + [r])[1..] == results[1..] + [r];
      ApplyLookupResultsSnoc(ApplyProviderById(s, results[0].id, results[0].info, bg), results[1..], r, bg);
    }
  }

  /** The default drawable is not changed by provider results. */
  lemma {:induction false} LookupKeepsDefaultDrawable(s: PreviewState, results: seq<LookupResult>, bg: int)
    ensures ApplyLookupResults(s, results, bg).views.defaultDrawable == s.views.defaultDrawable
    decreases |results|
  {
    if results != [] {
      LookupKeepsDefaultDrawable(ApplyProviderById(s, results[0].id, results[0].info, bg), results[1..], bg);
    }
  }

  /**
   * Bulk lookup: each slot shows what the LAST result for its id says, whatever
   * was shown before (a user's fresh choice included) and whatever order the other
   * slots' results arrived in. For BACKGROUND that is the flag, the image and the
   * colour filter; the highlight is never touched, and "flag implies provider
   * image" survives any run of results.
   */
  lemma {:induction false} LookupResultsLastWins(s: PreviewState, results: seq<LookupResult>, bg: int)
    ensures ApplyLookupResults(s, results, bg).views.left
         == SlotAfter(s.views.left, LastResultFor(results, Left.Id()), s.views.defaultDrawable)
    ensures ApplyLookupResults(s, results, bg).views.right
         == SlotAfter(s.views.right, LastResultFor(results, Right.Id()), s.views.defaultDrawable)
    ensures ApplyLookupResults(s, results, bg).backgroundComplicationEnabled
         == match LastResultFor(results, Background.Id())
            case None => s.backgroundComplicationEnabled
            case Some(info) => info.Some?
    ensures ApplyLookupResults(s, results, bg).views.backgroundImage
         == BackgroundImageAfter(s.views.backgroundImage, LastResultFor(results, Background.Id()))
    ensures ApplyLookupResults(s, results, bg).views.backgroundFilter
         == BackgroundFilterAfter(s.views.backgroundFilter, bg, LastResultFor(results, Background.Id()))
    ensures ApplyLookupResults(s, results, bg).views.highlightFilter == s.views.highlightFilter
    ensures FlagShowsImage(s) ==> FlagShowsImage(ApplyLookupResults(s, results, bg))
    decreases |results|
  {
    if results != [] {
      var init := results[..|results| - 1];
      var last := results[|results| - 1];
      assert results == init + [last];
      ApplyLookupResultsSnoc(s, init, last, bg);
      LookupResultsLastWins(s, init, bg);
      LookupKeepsDefaultDrawable(s, init, bg);
      if FlagShowsImage(s) {
        assert FlagShowsImage(ApplyProviderById(ApplyLookupResults(s, init, bg), last.id, last.info, bg));
      }
    }
  }
}
