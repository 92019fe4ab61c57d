/**
 * The complication slot catalog of the watch face
 * (WatchFaceComplicationConfiguration.Complication): three fixed slots, each with
 * the id the provider chooser is called with and the data types it accepts.
 */
module Complications {

  /** The ComplicationData.TYPE_* kinds the slots name. */
  datatype DataType = RangedValue | Icon | ShortText | SmallImage | LargeImage

  /** The enum constants, in declaration order. */
  datatype Complication = Background | Left | Right
  {
    /** The slot id; the provider chooser requires ids >= 0. */
    function Id(): int
    {
      match this
      case Background => 0
      case Left => 100
      case Right => 101
    }

    function SupportedTypes(): seq<DataType>
    {
      match this
      case Background => [LargeImage]
      case Left => [RangedValue, Icon, ShortText, SmallImage]
      case Right => [RangedValue, Icon, ShortText, SmallImage]
    }
  }

  /** `values()`: the enum constants in declaration order. */
  const Values: seq<Complication> := [Background, Left, Right]

  /** The ids of `cs`, element by element (Kotlin's `map { it.id }`). */
  function IdsOf(cs: seq<Complication>): (ids: seq<int>)
    ensures |ids| == |cs|
    ensures forall i :: 0 <= i < |cs| ==> ids[i] == cs[i].Id()
  {
    if cs == [] then [] else [cs[0].Id()] + IdsOf(cs[1..])
  }

  /** `getAllIds()`: the slot ids in declaration order, one per enum constant. */
  function GetAllIds(): (ids: seq<int>)
    ensures |ids| == |Values|
    ensures ids == [0, 100, 101]
  {
    IdsOf(Values)
  }

  /** A sequence in reverse order (`reversedArray()`). */
  function Reversed<T>(s: seq<T>): (r: seq<T>)
    ensures |r| == |s|
    ensures forall i :: 0 <= i < |s| ==> r[i] == s[|s| - 1 - i]
  {
    if s == [] then [] else Reversed(s[1..]) + [s[0]]
  }

  /** `valuesReverse()`: the enum constants from last to first. */
  function ValuesReverse(): (r: seq<Complication>)
    ensures r == [Right, Left, Background]
  {
    Reversed(Values)
  }

  /** The three ids are 0, 100 and 101, pairwise distinct and non-negative. */
  lemma SlotIdsDistinctNonNegative()
    ensures Background.Id() == 0 && Left.Id() == 100 && Right.Id() == 101
    ensures forall c: Complication :: c.Id() >= 0
    ensures forall c: Complication, d: Complication :: c != d ==> c.Id() != d.Id()
  {
  }

  /** BACKGROUND takes exactly one data type; LEFT and RIGHT take the same four. */
  lemma SupportedTypesTable()
    ensures Background.SupportedTypes() == [LargeImage]
    ensures Left.SupportedTypes() == Right.SupportedTypes()
    ensures Left.SupportedTypes() == [RangedValue, Icon, ShortText, SmallImage]
    ensures LargeImage !in Left.SupportedTypes()
  {
  }

  /** Reversing twice gives back the original order. */
  lemma {:induction false} ReversedTwice<T>(s: seq<T>)
    ensures Reversed(Reversed(s)) == s
  {
    var r := Reversed(Reversed(s));
    assert |r| == |s|;
    forall i | 0 <= i < |s|
      ensures r[i] == s[i]
    {
      assert r[i] == Reversed(s)[|s| - 1 - i];
    }
  }

  /** `valuesReverse()` reversed again is `values()`. */
  lemma ValuesReverseTwice()
    ensures Reversed(ValuesReverse()) == Values
  {
    ReversedTwice(Values);
  }
}
