/**
 * The integer and flag logic of the watch face's Engine
 * (AnalogComplicationWatchFaceService.Engine): preferences and hand colours, mute
 * dimming, complication bounds, the tap scan, the unread count, the time-zone
 * receiver registration, the redraw timer and the background colour choice.
 */
module WatchFaceEngine {
  import opened Wrappers
  import opened Colors
  import opened Complications
  import opened Settings

  /** WatchFaceService.INTERRUPTION_FILTER_NONE and TAP_TYPE_TAP. */
  const InterruptionFilterNone: int := 3
  const TapTypeTap: int := 2

  /** The alpha of a new Paint. */
  const OpaqueAlpha: int := 255

  /** Java's `/` on `int`: the quotient truncated toward zero. */
  function JavaDiv(a: int, b: int): (q: int)
    requires b > 0
    ensures a >= 0 ==> q == a / b
    ensures q * b <= a < q * b + b || q * b - b < a <= q * b
  {
    if a >= 0 then a / b else -((-a) / b)
  }

  /** Truncation is symmetric about zero, unlike Euclidean division. */
  lemma JavaDivSymmetric(a: int, b: int)
    requires b > 0
    ensures JavaDiv(-a, b) == -JavaDiv(a, b)
  {
  }

  /** An android.graphics.Rect: left, top, right, bottom. */
  datatype Rect = Rect(left: int, top: int, right: int, bottom: int)

  /** The three complication bounds `onSurfaceChanged` sets. */
  datatype Layout = Layout(left: Rect, right: Rect, background: Rect)

  /** The bounds for a surface of `width` by `height` (only the width sizes the circles). */
  function ComplicationLayout(width: int, height: int): (l: Layout)
    ensures l.left.right - l.left.left == l.left.bottom - l.left.top == JavaDiv(width, 4)
    ensures l.right == Rect(l.left.left + JavaDiv(width, 2), l.left.top, l.left.right + JavaDiv(width, 2), l.left.bottom)
    ensures l.background == Rect(0, 0, width, height)
  {
    var size := JavaDiv(width, 4);
    var mid := JavaDiv(width, 2);
    var horizontal := JavaDiv(mid - size, 2);
    var vertical := mid - JavaDiv(size, 2);
    Layout(Rect(horizontal, vertical, horizontal + size, vertical + size),
           Rect(mid + horizontal, vertical, mid + horizontal + size, vertical + size),
           Rect(0, 0, width, height))
  }

  /**
   * On a real surface the two circles sit side by side without overlapping, each
   * centred (to the pixel) in its half of the width and on the horizontal midline,
   * and inside the screen when it is square.
   */
  lemma LayoutFitsScreen(width: int, height: int)
    requires width >= 0
    ensures var l := ComplicationLayout(width, height);
      && 0 <= l.left.left <= l.left.right <= l.right.left <= l.right.right <= width
      && width / 2 - 1 <= l.left.left + l.left.right <= width / 2
      && 2 * (width / 2) <= l.left.top + l.left.bottom <= 2 * (width / 2) + 1
      && (height == width ==> 0 <= l.left.top <= l.left.bottom <= height)
  {
  }

  /** The hour, minute and second hands' alpha. */
  datatype HandAlphas = HandAlphas(hour: int, minute: int, second: int)

  /** `onInterruptionFilterChanged`'s dimming: 100, 100 and 80 when muted, opaque otherwise. */
  function MuteAlphas(muteMode: bool): (a: HandAlphas)
    ensures muteMode <==> a.hour < OpaqueAlpha
    ensures !muteMode ==> a == HandAlphas(OpaqueAlpha, OpaqueAlpha, OpaqueAlpha)
    ensures muteMode ==> a.second < a.minute == a.hour < OpaqueAlpha
    ensures muteMode ==> a == HandAlphas(100, 100, 80)
  {
    if muteMode then HandAlphas(100, 100, 80) else HandAlphas(OpaqueAlpha, OpaqueAlpha, OpaqueAlpha)
  }

  /** The first id in `order` whose complication takes the tap at (x, y). */
  function FirstAccepting(order: seq<int>, accepts: (int, int, int) -> bool, x: int, y: int): (r: Option<int>)
    ensures r.None? <==> forall k :: 0 <= k < |order| ==> !accepts(order[k], x, y)
    ensures r.Some? ==> r.value in order && accepts(r.value, x, y)
    decreases |order|
  {
    if order == [] then None
    else if accepts(order[0], x, y) then Some(order[0])
    else
      var r := FirstAccepting(order[1..], accepts, x, y);
      assert forall k :: 1 <= k < |order| ==> order[1..][k - 1] == order[k];
      r
  }

  /** The ids asked in turn: all of `order` up to and including the first that takes the tap. */
  function ProbedUntilAccepted(order: seq<int>, accepts: (int, int, int) -> bool, x: int, y: int): (p: seq<int>)
    ensures |p| <= |order| && p == order[..|p|]
    ensures forall k :: 0 <= k < |p| - 1 ==> !accepts(p[k], x, y)
    ensures FirstAccepting(order, accepts, x, y).None? ==> p == order
    ensures FirstAccepting(order, accepts, x, y).Some? ==> p != [] && p[|p| - 1] == FirstAccepting(order, accepts, x, y).value
    decreases |order|
  {
    if order == [] then []
    else if accepts(order[0], x, y) then [order[0]]
    else [order[0]] + ProbedUntilAccepted(order[1..], accepts, x, y)
  }

  /** If nothing before position n takes the tap and order[n] does, the scan stops at n. */
  lemma {:induction false} ScanStopsAt(order: seq<int>, n: int, accepts: (int, int, int) -> bool, x: int, y: int)
    requires 0 <= n < |order| && accepts(order[n], x, y)
    requires forall k :: 0 <= k < n ==> !accepts(order[k], x, y)
    ensures FirstAccepting(order, accepts, x, y) == Some(order[n])
    ensures ProbedUntilAccepted(order, accepts, x, y) == order[..n + 1]
    decreases n
  {
    if n > 0 {
      assert order[1..][n - 1] == order[n];
      forall k | 0 <= k < n - 1
        ensures !accepts(order[1..][k], x, y)
      {
        assert order[1..][k] == order[k + 1];
      }
      ScanStopsAt(order[1..], n - 1, accepts, x, y);
      assert order[..n + 1] == [order[0]] + order[1..][..n];
    }
  }

  /** The tap scan order: the slot ids from the last enum constant to the first. */
  function TapOrder(): (order: seq<int>)
    ensures order == [Right.Id(), Left.Id(), Background.Id()]
  {
    IdsOf(ValuesReverse())
  }

  /**
   * The background, which covers the screen, is asked last: it gets the tap only
   * when neither circle takes it, and a circle that takes it stops the scan.
   */
  lemma BackgroundAskedLast(accepts: (int, int, int) -> bool, x: int, y: int)
    ensures accepts(Right.Id(), x, y) ==> FirstAccepting(TapOrder(), accepts, x, y) == Some(Right.Id())
    ensures FirstAccepting(TapOrder(), accepts, x, y) == Some(Background.Id())
        <==> !accepts(Right.Id(), x, y) && !accepts(Left.Id(), x, y) && accepts(Background.Id(), x, y)
    ensures Background.Id() in ProbedUntilAccepted(TapOrder(), accepts, x, y)
        <==> !accepts(Right.Id(), x, y) && !accepts(Left.Id(), x, y)
  {
    var order := TapOrder();
    if accepts(Right.Id(), x, y) {
      ScanStopsAt(order, 0, accepts, x, y);
    } else if accepts(Left.Id(), x, y) {
      ScanStopsAt(order, 1, accepts, x, y);
    } else if accepts(Background.Id(), x, y) {
      ScanStopsAt(order, 2, accepts, x, y);
    }
  }

  /** The Engine's fields this model keeps, as one value. */
  datatype EngineState = EngineState(
    preferences: WatchFaceSettings,
    registeredTimeZoneReceiver: bool,
    systemRegistrations: int,
    muteMode: bool,
    alphas: HandAlphas,
    watchHandAndComplicationsColor: int,
    watchHandShadowColor: int,
    ambient: bool,
    lowBitAmbient: bool,
    burnInProtection: bool,
    visible: bool,
    numberOfUnreadNotifications: int,
    bounds: Option<Layout>,
    timerRunning: bool)

  /** The system holds a registration exactly while the engine's flag says so. */
  ghost predicate ReceiverConsistent(s: EngineState)
  {
    s.systemRegistrations == (if s.registeredTimeZoneReceiver then 1 else 0)
  }

  /** The relations every callback keeps. */
  ghost predicate ValidState(s: EngineState)
  {
    && s.alphas == MuteAlphas(s.muteMode)
    && ReceiverConsistent(s)
    && s.timerRunning == (s.visible && !s.ambient)
  }

  /** The Engine's state for the logic above; colours and flags only, no drawing. */
  class Engine {
    var watchFacePreferences: WatchFaceSettings
    var registeredTimeZoneReceiver: bool
    /** How many registrations of the time-zone receiver the system holds. */
    var systemRegistrations: int
    var muteMode: bool
    var alphas: HandAlphas
    var watchHandAndComplicationsColor: int
    var watchHandShadowColor: int
    var ambient: bool
    var lowBitAmbient: bool
    var burnInProtection: bool
    /** `isVisible()`, as last reported to `onVisibilityChanged`. */
    var visible: bool
    var numberOfUnreadNotifications: int
    var bounds: Option<Layout>
    /** Whether an update-time message is queued (the timer runs). */
    var timerRunning: bool

    function State(): EngineState
      reads this
    {
      EngineState(watchFacePreferences, registeredTimeZoneReceiver, systemRegistrations, muteMode, alphas,
                  watchHandAndComplicationsColor, watchHandShadowColor, ambient, lowBitAmbient, burnInProtection,
                  visible, numberOfUnreadNotifications, bounds, timerRunning)
    }

    ghost predicate Valid()
      reads this
    {
      ValidState(State())
    }

    /** `shouldTimerBeRunning`: only while visible and interactive. */
    predicate ShouldTimerBeRunning()
      reads this
    {
      visible && !ambient
    }

    /** `onCreate`, with the preferences file's contents `store`. */
    constructor (store: Store)
      ensures Valid()
      ensures fresh(watchFacePreferences) && watchFacePreferences.Snapshot() == Loaded(store)
      ensures !registeredTimeZoneReceiver && !muteMode && !ambient && !visible && !timerRunning
      ensures !lowBitAmbient && !burnInProtection
      ensures numberOfUnreadNotifications == 0 && bounds == None
      ensures watchHandAndComplicationsColor == HandColorFor(Loaded(store).backgroundColor)
      ensures watchHandShadowColor == ShadowColorFor(Loaded(store).backgroundColor)
    {
      watchFacePreferences := new WatchFaceSettings();
      registeredTimeZoneReceiver := false;
      systemRegistrations := 0;
      muteMode := false;
      alphas := HandAlphas(OpaqueAlpha, OpaqueAlpha, OpaqueAlpha);
      watchHandAndComplicationsColor := 0;
      watchHandShadowColor := 0;
      ambient := false;
      lowBitAmbient := false;
      burnInProtection := false;
      visible := false;
      numberOfUnreadNotifications := 0;
      bounds := None;
      timerRunning := false;
      new;
      LoadSavedPreferences(store);
    }

    /** `loadSavedPreferences`: fresh preferences loaded from `store`, hand colours derived from them. */
    method LoadSavedPreferences(store: Store)
      modifies this
      ensures fresh(watchFacePreferences) && watchFacePreferences.Snapshot() == Loaded(store)
      ensures State() == old(State()).(preferences := watchFacePreferences,
                                       watchHandAndComplicationsColor := HandColorFor(Loaded(store).backgroundColor),
                                       watchHandShadowColor := ShadowColorFor(Loaded(store).backgroundColor))
      ensures watchHandAndComplicationsColor == watchFacePreferences.watchHandAndComplicationsColor
      ensures watchHandShadowColor == watchFacePreferences.watchHandShadowColor
    {
      var preferences := new WatchFaceSettings();
      preferences.ReloadSavedPreferences(store);
      watchFacePreferences := preferences;
      if watchFacePreferences.backgroundColor == White {
        watchHandAndComplicationsColor := Black;
        watchHandShadowColor := White;
      } else {
        watchHandAndComplicationsColor := White;
        watchHandShadowColor := Black;
      }
    }

    /** `onPropertiesChanged`: the two screen properties, false when absent. */
    method OnPropertiesChanged(lowBitProperty: Option<bool>, burnInProperty: Option<bool>)
      requires Valid()
      modifies this
      ensures Valid()
      ensures State() == old(State()).(lowBitAmbient := lowBitProperty == Some(true),
                                       burnInProtection := burnInProperty == Some(true))
    {
      lowBitAmbient := if lowBitProperty.Some? then lowBitProperty.value else false;
      burnInProtection := if burnInProperty.Some? then burnInProperty.value else false;
    }

    /** `onAmbientModeChanged`: records the mode and re-checks the timer. */
    method OnAmbientModeChanged(inAmbientMode: bool)
      requires Valid()
      modifies this
      ensures Valid()
      ensures State() == old(State()).(ambient := inAmbientMode, timerRunning := visible && !inAmbientMode)
    {
      ambient := inAmbientMode;
      UpdateTimer();
    }

    /**
     * `onInterruptionFilterChanged`: mute mode is "filter is NONE"; mode, alphas and
     * a redraw change only when mute mode flips.
     */
    method OnInterruptionFilterChanged(interruptionFilter: int) returns (invalidated: bool)
      requires Valid()
      modifies this
      ensures Valid()
      ensures invalidated <==> old(muteMode) != (interruptionFilter == InterruptionFilterNone)
      ensures State() == old(State()).(muteMode := interruptionFilter == InterruptionFilterNone,
                                       alphas := MuteAlphas(interruptionFilter == InterruptionFilterNone))
      ensures !invalidated ==> State() == old(State())
    {
      var inMuteMode := interruptionFilter == InterruptionFilterNone;
      invalidated := false;
      if muteMode != inMuteMode {
        muteMode := inMuteMode;
        alphas := HandAlphas(if inMuteMode then 100 else 255, if inMuteMode then 100 else 255,
                             if inMuteMode then 80 else 255);
        invalidated := true;
      }
    }

    /** `onSurfaceChanged`, integer bounds only. */
    method OnSurfaceChanged(width: int, height: int)
      requires Valid()
      modifies this
      ensures Valid()
      ensures State() == old(State()).(bounds := Some(ComplicationLayout(width, height)))
    {
      var sizeOfComplication := JavaDiv(width, 4);
      var midpointOfScreen := JavaDiv(width, 2);
      var horizontalOffset := JavaDiv(midpointOfScreen - sizeOfComplication, 2);
      var verticalOffset := midpointOfScreen - JavaDiv(sizeOfComplication, 2);
      var leftBounds := Rect(horizontalOffset, verticalOffset,
                             horizontalOffset + sizeOfComplication, verticalOffset + sizeOfComplication);
      var rightBounds := Rect(midpointOfScreen + horizontalOffset, verticalOffset,
                              midpointOfScreen + horizontalOffset + sizeOfComplication, verticalOffset + sizeOfComplication);
      var screenForBackgroundBound := Rect(0, 0, width, height);
      bounds := Some(Layout(leftBounds, rightBounds, screenForBackgroundBound));
    }

    /**
     * `onTapCommand`: for a plain tap, ask the slots from the last enum constant to
     * the first whether they take the tap at (x, y), stopping at the first that does.
     * `accepts(id, x, y)` is the slot's ComplicationDrawable.onTap; `probed` lists
     * the ids asked, in order, and `taken` the one that took the tap.
     */
    method OnTapCommand(tapType: int, x: int, y: int, accepts: (int, int, int) -> bool)
      returns (taken: Option<int>, probed: seq<int>)
      ensures tapType != TapTypeTap ==> taken == None && probed == []
      ensures tapType == TapTypeTap ==> taken == FirstAccepting(TapOrder(), accepts, x, y)
      ensures tapType == TapTypeTap ==> probed == ProbedUntilAccepted(TapOrder(), accepts, x, y)
    {
      taken := None;
      probed := [];
      if tapType == TapTypeTap {
        ghost var order := TapOrder();
        assert order == [Values[2].Id(), Values[1].Id(), Values[0].Id()];
        var i := |Values| - 1;
        while i >= 0
          invariant -1 <= i < |Values|
          invariant probed == order[..|Values| - 1 - i]
          invariant forall k :: 0 <= k < |Values| - 1 - i ==> !accepts(order[k], x, y)
        {
          var complicationId := Values[i].Id();
          ghost var n := |Values| - 1 - i;
          assert complicationId == order[n];
          assert order[..n + 1] == order[..n] + [complicationId];
          probed := probed + [complicationId];
          if accepts(complicationId, x, y) {
            ScanStopsAt(order, n, accepts, x, y);
            taken := Some(complicationId);
            return;
          }
          i := i - 1;
        }
        assert probed == order;
      }
    }

    /** `onUnreadCountChanged`: the count is taken (with a redraw) only while the preference is on and it differs. */
    method OnUnreadCountChanged(count: int) returns (invalidated: bool)
      requires Valid()
      modifies this
      ensures Valid()
      ensures invalidated <==> watchFacePreferences.unreadNotifications && old(numberOfUnreadNotifications) != count
      ensures watchFacePreferences.unreadNotifications ==> State() == old(State()).(numberOfUnreadNotifications := count)
      ensures !watchFacePreferences.unreadNotifications ==> State() == old(State())
    {
      invalidated := false;
      if watchFacePreferences.unreadNotifications {
        if numberOfUnreadNotifications != count {
          numberOfUnreadNotifications := count;
          invalidated := true;
        }
      }
    }

    /** `registerReceiver`: registers once; a second call does nothing. */
    method RegisterReceiver()
      requires ReceiverConsistent(State())
      modifies this
      ensures ReceiverConsistent(State())
      ensures State() == old(State()).(registeredTimeZoneReceiver := true, systemRegistrations := 1)
      ensures old(registeredTimeZoneReceiver) ==> State() == old(State())
    {
      if registeredTimeZoneReceiver {
        return;
      }
      registeredTimeZoneReceiver := true;
      systemRegistrations := systemRegistrations + 1;
    }

    /** `unregisterReceiver`: unregisters once; a second call does nothing. */
    method UnregisterReceiver()
      requires ReceiverConsistent(State())
      modifies this
      ensures ReceiverConsistent(State())
      ensures State() == old(State()).(registeredTimeZoneReceiver := false, systemRegistrations := 0)
      ensures !old(registeredTimeZoneReceiver) ==> State() == old(State())
    {
      if !registeredTimeZoneReceiver {
        return;
      }
      registeredTimeZoneReceiver := false;
      systemRegistrations := systemRegistrations - 1;
    }

    /** `updateTimer`: drop the queued message, queue one again when the timer should run. */
    method UpdateTimer()
      modifies this
      ensures State() == old(State()).(timerRunning := old(visible) && !old(ambient))
    {
      timerRunning := ShouldTimerBeRunning();
    }

    /**
     * `onVisibilityChanged`: when shown, reload the preferences from `store` and
     * register the receiver; when hidden, unregister it; then re-check the timer.
     * The engine's own hand colours are not re-derived here.
     */
    method OnVisibilityChanged(isVisible: bool, store: Store)
      requires Valid()
      modifies this, watchFacePreferences
      ensures Valid()
      ensures State() == old(State()).(visible := isVisible, registeredTimeZoneReceiver := isVisible,
                                       systemRegistrations := if isVisible then 1 else 0,
                                       timerRunning := isVisible && !old(ambient))
      ensures isVisible ==> watchFacePreferences.Snapshot() == Loaded(store)
      ensures !isVisible ==> unchanged(watchFacePreferences)
    {
      visible := isVisible;
      if isVisible {
        watchFacePreferences.ReloadSavedPreferences(store);
        RegisterReceiver();
      } else {
        UnregisterReceiver();
      }
      UpdateTimer();
    }

    /** `drawBackground`'s colour: BLACK in ambient mode on a low-bit or burn-in screen, else the preference. */
    function BackgroundDrawColor(): (c: int)
      reads this, watchFacePreferences
      ensures ambient && (lowBitAmbient || burnInProtection) ==> c == Black
      ensures !(ambient && (lowBitAmbient || burnInProtection)) ==> c == watchFacePreferences.backgroundColor
    {
      if ambient && (lowBitAmbient || burnInProtection) then Black else watchFacePreferences.backgroundColor
    }

    /** `drawUnreadNotificationIcon`: the outer ring, and the inner dot only when interactive. */
    function UnreadIndicator(): (shown: (bool, bool))
      reads this, watchFacePreferences
      ensures shown.0 <==> watchFacePreferences.unreadNotifications && numberOfUnreadNotifications > 0
      ensures shown.1 <==> shown.0 && !ambient
    {
      var ring := watchFacePreferences.unreadNotifications && numberOfUnreadNotifications > 0;
      (ring, ring && !ambient)
    }
  }

  /** Hidden, the timer never runs; visible and interactive, it always does. */
  lemma TimerOnlyWhenVisibleAndInteractive(e: Engine)
    requires e.Valid()
    ensures e.timerRunning <==> e.visible && !e.ambient
    ensures !e.visible ==> !e.timerRunning
  {
  }

  /**
   * Ambient mode on a low-bit or burn-in screen: the frame is drawn on BLACK
   * whatever the preference, without the solid highlight dot, and the per-second
   * timer is stopped, so it is repainted only on the system's ambient ticks.
   */
  lemma AmbientProtectionForcesBlack(e: Engine)
    requires e.Valid()
    requires e.ambient && (e.lowBitAmbient || e.burnInProtection)
    ensures e.BackgroundDrawColor() == Black
    ensures !e.UnreadIndicator().1
    ensures !e.timerRunning
  {
  }
}
