/**
 * AnalogComplicationConfigData: the colour palette offered by the colour picker
 * and the static list of rows of the configuration screen.
 */
module ConfigData {
  import opened Colors
  import opened ViewTypes

  /** The R.drawable resources the rows name. */
  datatype Drawable =
    | AddComplication
    | IcExpandMoreWhite18dp
    | IcnStyles
    | IcNotificationsWhite24dp
    | IcNotificationsOffWhite24dp
    | IcLandscapeWhite

  /** The R.string resources the rows' names are read from. */
  datatype Label =
    | ConfigMarkerColorLabel
    | ConfigBackgroundColorLabel
    | ConfigUnreadNotificationsLabel
    | ConfigBackgroundImageComplicationLabel

  /** Activity classes a row can launch. */
  datatype ActivityClass = ColorSelectionActivity

  /** The five ConfigItemType classes, with their constructor arguments. */
  datatype ConfigItem =
    | PreviewAndComplicationsConfigItem(defaultComplicationResourceId: Drawable)
    | MoreOptionsConfigItem(iconResourceId: Drawable)
    | ColorConfigItem(name: Label, iconResourceId: Drawable, activityToChoosePreference: ActivityClass)
    | UnreadNotificationConfigItem(name: Label, iconEnabledResourceId: Drawable, iconDisabledResourceId: Drawable)
    | BackgroundComplicationConfigItem(name: Label, iconResourceId: Drawable)
  {
    /** `configType`: one constant per item class, whatever the item's arguments. */
    function ConfigType(): (t: int)
      ensures IsViewType(t)
    {
      match this
      case PreviewAndComplicationsConfigItem(_) => TypePreviewAndComplicationsConfig
      case MoreOptionsConfigItem(_) => TypeMoreOptions
      case ColorConfigItem(_, _, _) => TypeColorConfig
      case UnreadNotificationConfigItem(_, _, _) => TypeUnreadNotificationConfig
      case BackgroundComplicationConfigItem(_, _) => TypeBackgroundComplicationImageConfig
    }
  }

  /** Items of the same class have the same configType, and items of different classes different ones. */
  lemma ConfigTypeByClassOnly(a: ConfigItem, b: ConfigItem)
    ensures a.ConfigType() == b.ConfigType() <==>
      (a.PreviewAndComplicationsConfigItem? && b.PreviewAndComplicationsConfigItem?) ||
      (a.MoreOptionsConfigItem? && b.MoreOptionsConfigItem?) ||
      (a.ColorConfigItem? && b.ColorConfigItem?) ||
      (a.UnreadNotificationConfigItem? && b.UnreadNotificationConfigItem?) ||
      (a.BackgroundComplicationConfigItem? && b.BackgroundComplicationConfigItem?)
  {
    ViewTypesDistinct();
  }

  /** `colorOptionsDataSet`: the 21 Material Design colours, white first and black last. */
  function ColorOptionsDataSet(): (palette: seq<int>)
    ensures |palette| == 21
    ensures palette[0] == White && palette[20] == Black
    ensures forall i :: 0 <= i < |palette| ==> -0x8000_0000 <= palette[i] < 0 && Alpha(palette[i]) == 0xFF
  {
    [Opaque(0xFFFFFF),                                                          // White
     Opaque(0xFFEB3B), Opaque(0xFFC107), Opaque(0xFF9800), Opaque(0xFF5722),      // Yellow .. Deep Orange
     Opaque(0xF44336), Opaque(0xE91E63),                                          // Red, Pink
     Opaque(0x9C27B0), Opaque(0x673AB7), Opaque(0x3F51B5), Opaque(0x2196F3), Opaque(0x03A9F4), // Purple .. Light Blue
     Opaque(0x00BCD4), Opaque(0x009688), Opaque(0x4CAF50), Opaque(0x8BC34A), Opaque(0xCDDC39), // Cyan .. Lime
     Opaque(0x607D8B), Opaque(0x9E9E9E), Opaque(0x795548), Opaque(0x000000)]      // Blue Grey .. Black
  }

  /** The configType of each row, in row order. */
  function ConfigTypes(rows: seq<ConfigItem>): (types: seq<int>)
    ensures |types| == |rows|
    ensures forall i :: 0 <= i < |rows| ==> types[i] == rows[i].ConfigType()
  {
    seq(|rows|, i requires 0 <= i < |rows| => rows[i].ConfigType())
  }

  /**
   * `getDataToPopulateAdapter`: the six rows in their fixed order: preview, more
   * options, marker colour, background colour, unread notifications, background image.
   */
  function GetDataToPopulateAdapter(): (rows: seq<ConfigItem>)
    ensures |rows| == 6
    ensures rows[0].PreviewAndComplicationsConfigItem? && rows[1].MoreOptionsConfigItem?
    ensures rows[2].ColorConfigItem? && rows[2].name == ConfigMarkerColorLabel
    ensures rows[3].ColorConfigItem? && rows[3].name == ConfigBackgroundColorLabel
    ensures rows[4].UnreadNotificationConfigItem? && rows[5].BackgroundComplicationConfigItem?
    ensures ConfigTypes(rows) == [0, 1, 2, 2, 3, 4]
    ensures rows[2].activityToChoosePreference == rows[3].activityToChoosePreference == ColorSelectionActivity
  {
    [PreviewAndComplicationsConfigItem(AddComplication),
     MoreOptionsConfigItem(IcExpandMoreWhite18dp),
     ColorConfigItem(ConfigMarkerColorLabel, IcnStyles, ColorSelectionActivity),
     ColorConfigItem(ConfigBackgroundColorLabel, IcnStyles, ColorSelectionActivity),
     UnreadNotificationConfigItem(ConfigUnreadNotificationsLabel, IcNotificationsWhite24dp, IcNotificationsOffWhite24dp),
     BackgroundComplicationConfigItem(ConfigBackgroundImageComplicationLabel, IcLandscapeWhite)]
  }

  /** The two colour rows are the only rows sharing a configType. */
  lemma OnlyColorRowsShareType()
    ensures forall i, j :: 0 <= i < j < 6 && ConfigTypes(GetDataToPopulateAdapter())[i] == ConfigTypes(GetDataToPopulateAdapter())[j] ==> i == 2 && j == 3
  {
    var types := ConfigTypes(GetDataToPopulateAdapter());
    assert types == [0, 1, 2, 2, 3, 4];
  }
}
