/**
 * android.graphics.Color words as the watch face uses them: a colour is a Java
 * `int` holding 32-bit ARGB (alpha in the top byte), so opaque colours are negative.
 */
module Colors {

  /** The unsigned 32-bit word of a Java colour int. */
  function Unsigned(c: int): (u: int)
    requires -0x8000_0000 <= c < 0x8000_0000
    ensures 0 <= u < 0x1_0000_0000
    ensures u % 0x1_0000_0000 == c % 0x1_0000_0000
  {
    if c < 0 then c + 0x1_0000_0000 else c
  }

  /** The alpha byte of a colour. */
  function Alpha(c: int): (a: int)
    requires -0x8000_0000 <= c < 0x8000_0000
    ensures 0 <= a < 0x100
  {
    Unsigned(c) / 0x100_0000
  }

  /** `Color.parseColor("#RRGGBB")`: the 24-bit rgb under an alpha of 0xFF. */
  function Opaque(rgb: int): (c: int)
    requires 0 <= rgb < 0x100_0000
    ensures -0x8000_0000 <= c < 0
    ensures Alpha(c) == 0xFF
    ensures Unsigned(c) % 0x100_0000 == rgb
  {
    rgb - 0x100_0000
  }

  const Black: int := -0x100_0000
  const White: int := -1
  const Red: int := -0x1_0000
  const Gray: int := -0x77_7778

  /** The Color constants are the opaque words #000000, #FFFFFF, #FF0000 and #888888. */
  lemma ColorConstants()
    ensures Black == Opaque(0x000000) && White == Opaque(0xFFFFFF)
    ensures Red == Opaque(0xFF0000) && Gray == Opaque(0x888888)
  {
  }
}

/**
 * WatchFaceSettings: the appearance preferences (background colour, highlight
 * colour, unread-notification indicator) and the hand colours derived from the
 * background, loaded from and saved to one SharedPreferences file, which the
 * model represents as a key-to-value map.
 */
module Settings {
  import opened Colors

  /** A value stored under a preference key. */
  datatype PrefValue = IntPref(i: int) | BoolPref(b: bool)

  /** The contents of the preference file PreferenceFileKey. */
  type Store = map<string, PrefValue>

  const PreferenceFileKey: string := "com.deviantdev.wearable.watchface.PREFERENCE_FILE_KEY"
  const SavedBackgroundColor: string := "saved_background_color"
  const SavedMarkersColor: string := "saved_markers_color"
  const SavedUnreadNotifications: string := "saved_unread_notifications"

  /** The keys `commitChangedPreferences` writes. */
  const PreferenceKeys: set<string> := {SavedBackgroundColor, SavedMarkersColor, SavedUnreadNotifications}

  /** The three preference keys are pairwise distinct. */
  lemma PreferenceKeysDistinct()
    ensures SavedBackgroundColor != SavedMarkersColor
    ensures SavedBackgroundColor != SavedUnreadNotifications
    ensures SavedMarkersColor != SavedUnreadNotifications
    ensures |PreferenceKeys| == 3
  {
  }

  /** `getInt(key, default)`. */
  function GetInt(store: Store, key: string, default: int): (v: int)
    ensures key !in store ==> v == default
    ensures key in store && store[key].IntPref? ==> v == store[key].i
  {
    if key in store && store[key].IntPref? then store[key].i else default
  }

  /** `getBoolean(key, default)`. */
  function GetBoolean(store: Store, key: string, default: bool): (v: bool)
    ensures key !in store ==> v == default
    ensures key in store && store[key].BoolPref? ==> v == store[key].b
  {
    if key in store && store[key].BoolPref? then store[key].b else default
  }

  /** The five fields of a settings object. */
  datatype Appearance = Appearance(
    backgroundColor: int,
    watchHandHighlightColor: int,
    watchHandAndComplicationsColor: int,
    watchHandShadowColor: int,
    unreadNotifications: bool)

  /** The field initialisers of a fresh settings object. */
  const Defaults: Appearance := Appearance(Black, Red, Black, White, true)

  /** The hand colour for a background: dark hands on white, light hands otherwise. */
  function HandColorFor(background: int): (hands: int)
    ensures hands == Black || hands == White
    ensures hands == Black <==> background == White
  {
    if background == White then Black else White
  }

  /** The hand-shadow colour for a background. */
  function ShadowColorFor(background: int): (shadow: int)
    ensures shadow == Black || shadow == White
    ensures shadow != HandColorFor(background)
  {
    if background == White then White else Black
  }

  /** What `reloadSavedPreferences` leaves in the fields for a given store. */
  function Loaded(store: Store): (a: Appearance)
    ensures a.backgroundColor == GetInt(store, SavedBackgroundColor, Black)
    ensures a.watchHandHighlightColor == GetInt(store, SavedMarkersColor, Red)
    ensures a.unreadNotifications == GetBoolean(store, SavedUnreadNotifications, true)
    ensures a.backgroundColor == White ==> a.watchHandAndComplicationsColor == Black && a.watchHandShadowColor == White
    ensures a.backgroundColor != White ==> a.watchHandAndComplicationsColor == White && a.watchHandShadowColor == Black
  {
    var background := GetInt(store, SavedBackgroundColor, Black);
    Appearance(background, GetInt(store, SavedMarkersColor, Red),
               HandColorFor(background), ShadowColorFor(background),
               GetBoolean(store, SavedUnreadNotifications, true))
  }

  /** The store after `commitChangedPreferences` with the fields `a`. */
  function Committed(store: Store, a: Appearance): (saved: Store)
    ensures saved.Keys == store.Keys + PreferenceKeys
    ensures forall k :: k in store && k !in PreferenceKeys ==> saved[k] == store[k]
  {
    store[SavedBackgroundColor := IntPref(a.backgroundColor)]
         [SavedMarkersColor := IntPref(a.watchHandHighlightColor)]
         [SavedUnreadNotifications := BoolPref(a.unreadNotifications)]
  }

  /** The fields `a` with the hand and shadow colours re-derived from its background. */
  function Rederived(a: Appearance): Appearance
  {
    a.(watchHandAndComplicationsColor := HandColorFor(a.backgroundColor),
       watchHandShadowColor := ShadowColorFor(a.backgroundColor))
  }

  /** With none of the keys present, reload gives BLACK, RED, white hands, a black shadow and unread on. */
  lemma ReloadWithMissingKeys(store: Store)
    requires store.Keys !! PreferenceKeys
    ensures Loaded(store) == Appearance(Black, Red, White, Black, true)
  {
  }

  /** A fresh object's hand colours are not the ones reload derives from its own background. */
  lemma FreshDefaultsNotDerived()
    ensures Defaults.backgroundColor == Black && Defaults.watchHandAndComplicationsColor == Black
    ensures Rederived(Defaults) != Defaults
  {
  }

  /** Commit then reload gives back background, highlight and unread, with the hand colours re-derived. */
  lemma CommitReloadRoundTrip(store: Store, a: Appearance)
    ensures Loaded(Committed(store, a)) == Rederived(a)
  {
    PreferenceKeysDistinct();
  }

  /** Reload, commit, reload reads back the first reload: saving what was loaded loses nothing. */
  lemma ReloadCommitReload(store: Store)
    ensures Loaded(Committed(store, Loaded(store))) == Loaded(store)
  {
    CommitReloadRoundTrip(store, Loaded(store));
  }

  /** Committing the same fields twice is the same as committing once. */
  lemma CommitIdempotent(store: Store, a: Appearance)
    ensures Committed(Committed(store, a), a) == Committed(store, a)
  {
  }

  /**
   * The settings object. The named constructor FromContext stands for
   * `WatchFacePreferences(context)`, which loads the saved preferences as it is
   * made; the anonymous constructor is a fresh `WatchFaceSettings()`.
   */
  class WatchFaceSettings {
    var backgroundColor: int
    var watchHandHighlightColor: int
    var watchHandAndComplicationsColor: int
    var watchHandShadowColor: int
    var unreadNotifications: bool

    function Snapshot(): Appearance
      reads this
    {
      Appearance(backgroundColor, watchHandHighlightColor, watchHandAndComplicationsColor,
                 watchHandShadowColor, unreadNotifications)
    }

    constructor ()
      ensures Snapshot() == Defaults
    {
      backgroundColor := Black;
      watchHandHighlightColor := Red;
      watchHandAndComplicationsColor := Black;
      watchHandShadowColor := White;
      unreadNotifications := true;
    }

    constructor FromContext(store: Store)
      ensures Snapshot() == Loaded(store)
    {
      new;
      ReloadSavedPreferences(store);
    }

    method ReloadSavedPreferences(store: Store)
      modifies this
      ensures Snapshot() == Loaded(store)
    {
      backgroundColor := GetInt(store, SavedBackgroundColor, Black);
      watchHandHighlightColor := GetInt(store, SavedMarkersColor, Red);
      if backgroundColor == White {
        watchHandAndComplicationsColor := Black;
        watchHandShadowColor := White;
      } else {
        watchHandAndComplicationsColor := White;
        watchHandShadowColor := Black;
      }
      unreadNotifications := GetBoolean(store, SavedUnreadNotifications, true);
    }

    /** Puts the three preference fields into the store; the object itself is unchanged. */
    method CommitChangedPreferences(store: Store) returns (saved: Store)
      ensures saved == Committed(store, Snapshot())
      ensures saved[SavedBackgroundColor] == IntPref(backgroundColor)
      ensures saved[SavedMarkersColor] == IntPref(watchHandHighlightColor)
      ensures saved[SavedUnreadNotifications] == BoolPref(unreadNotifications)
    {
      PreferenceKeysDistinct();
      var edit := store;
      edit := edit[SavedBackgroundColor := IntPref(backgroundColor)];
      edit := edit[SavedMarkersColor := IntPref(watchHandHighlightColor)];
      edit := edit[SavedUnreadNotifications := BoolPref(unreadNotifications)];
      saved := edit;
    }
  }
}
