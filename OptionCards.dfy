/** A group of selectable cards: which card shows as selected and what a press selects. */
module OptionCards {
  import opened Common

  /** One option: the value it selects, its label (`caption`) and an optional description. */
  datatype CardOption = CardOption(value: string, caption: string, description: Option<string>)

  /** One rendered card. */
  datatype Card = Card(caption: string, description: Option<string>, selected: bool)

  /** The value `handlePress(value)` passes to `onSelect`. */
  function HandlePress(selectedValue: string, value: string, allowClear: bool := false): (r: string)
    ensures !allowClear ==> r == value
    ensures allowClear ==> (r == "" <==> selectedValue == value || value == "")
    ensures allowClear && selectedValue != value ==> r == value
  {
    if allowClear && selectedValue == value then "" else value
  }

  /** `option.value === selectedValue`. */
  predicate IsSelected(option: CardOption, selectedValue: string) {
    option.value == selectedValue
  }

  /** The cards, in the order of the options. */
  function Cards(options: seq<CardOption>, selectedValue: string): (r: seq<Card>)
    ensures |r| == |options|
    ensures forall i :: 0 <= i < |r| ==>
      r[i].caption == options[i].caption && r[i].description == options[i].description
      && (r[i].selected <==> IsSelected(options[i], selectedValue))
  {
    if options == [] then []
    else
      var o := options[0];
      [Card(o.caption, o.description, IsSelected(o, selectedValue))] + Cards(options[1..], selectedValue)
  }

  /** Without `allowClear`, pressing a card twice is the same as pressing it once. */
  lemma PressIdempotent(selectedValue: string, value: string)
    ensures HandlePress(HandlePress(selectedValue, value), value) == HandlePress(selectedValue, value)
  {
  }

  /** With `allowClear`, pressing a non-empty card flips between it and nothing. */
  lemma PressToggles(value: string)
    requires value != ""
    ensures HandlePress(value, value, true) == ""
    ensures HandlePress("", value, true) == value
    ensures HandlePress(HandlePress(value, value, true), value, true) == value
  {
  }

  /** When option values are distinct, after a press without `allowClear` exactly the pressed card is selected. */
  lemma PressSelectsOnlyThatCard(options: seq<CardOption>, selectedValue: string, k: int)
    requires 0 <= k < |options|
    requires forall i, j :: 0 <= i < j < |options| ==> options[i].value != options[j].value
    ensures var cards := Cards(options, HandlePress(selectedValue, options[k].value));
      forall i :: 0 <= i < |cards| ==> (cards[i].selected <==> i == k)
  {
  }
}
