/**
 * The "Colors" screen (Shared/Easy/Colors.swift): the recognised text is
 * searched for a colour word, and the colour of a word found in it tints the
 * text and the record button.
 */
module ColorsScreen {
  import opened Common

  /** The SwiftUI colours the dictionary maps to. */
  datatype Color = Black | White | Blue | Gray | Green | Orange | Pink | Purple | Red | Yellow

  /** `Colors.colorDictionary`: colour words and their colours. */
  const ColorDictionary: map<string, Color> := map[
    "black" := Black,
    "white" := White,
    "blue" := Blue,
    "gray" := Gray,
    "green" := Green,
    "orange" := Orange,
    "pink" := Pink,
    "purple" := Purple,
    "red" := Red,
    "yellow" := Yellow
  ]

  /** Lower-casing of one character, over ASCII letters. */
  function LowercasedChar(c: char): char {
    if 'A' <= c <= 'Z' then (c as int + 32) as char else c
  }

  /** Upper-casing of one character, over ASCII letters. */
  function UppercasedChar(c: char): char {
    if 'a' <= c <= 'z' then (c as int - 32) as char else c
  }

  /** `String.lowercased()`, character by character. */
  function Lowercased(s: string): string {
    seq(|s|, i requires 0 <= i < |s| => LowercasedChar(s[i]))
  }

  /** `String.uppercased()`, character by character. */
  function Uppercased(s: string): string {
    seq(|s|, i requires 0 <= i < |s| => UppercasedChar(s[i]))
  }

  /** `key` occurs in `text` starting at position `i`. */
  predicate OccursAt(text: string, key: string, i: nat) {
    i + |key| <= |text| && text[i..i + |key|] == key
  }

  /**
   * `String.contains(_:)`, taken character by character: `key` occurs in
   * `text` as a contiguous run of code points.
   */
  predicate Contains(text: string, key: string) {
    exists i: nat :: i <= |text| && OccursAt(text, key, i)
  }

  /**
   * Swift leaves the iteration order of a dictionary unspecified; `order` is
   * one such order: every key of the dictionary exactly once.
   */
  predicate IsIterationOrder(order: seq<string>) {
    && (forall k :: k in order ==> k in ColorDictionary)
    && (forall k :: k in ColorDictionary ==> k in order)
    && (forall i, j :: 0 <= i < j < |order| ==> order[i] != order[j])
  }

  /** `first { pair in text.contains(pair.key) }`, walking the keys along `order`. */
  function FirstMatch(order: seq<string>, text: string): (r: Option<string>)
    ensures r.Some? ==> exists i :: 0 <= i < |order| && order[i] == r.value && Contains(text, r.value)
                                    && forall j :: 0 <= j < i ==> !Contains(text, order[j])
    ensures r.None? <==> forall k :: k in order ==> !Contains(text, k)
  {
    if order == [] then None
    else if Contains(text, order[0]) then Some(order[0])
    else FirstMatch(order[1..], text)
  }

  /** The `color` property: the colour of a dictionary key found in the lower-cased text. */
  function ColorOf(order: seq<string>, text: string): (c: Option<Color>)
    requires IsIterationOrder(order)
    ensures c.None? <==> forall k :: k in ColorDictionary ==> !Contains(Lowercased(text), k)
    ensures c.Some? ==> exists k :: k in ColorDictionary && Contains(Lowercased(text), k) && ColorDictionary[k] == c.value
  {
    match FirstMatch(order, Lowercased(text))
    case None => None
    case Some(k) => Some(ColorDictionary[k])
  }

  /** The dictionary holds ten distinct words. */
  lemma DictionarySize()
    ensures |ColorDictionary| == 10
  {
  }

  /** Every word of the dictionary is non-empty and already lower-case. */
  lemma DictionaryLowercase()
    ensures forall k :: k in ColorDictionary ==> |k| > 0 && Lowercased(k) == k
  {
  }

  lemma LowercasedIdempotent(s: string)
    ensures Lowercased(Lowercased(s)) == Lowercased(s)
  {
  }

  lemma LowercasedOfUppercased(s: string)
    ensures Lowercased(Uppercased(s)) == Lowercased(s)
  {
  }

  /** Matching ignores case: the lower-cased and upper-cased variants of a text get its colour. */
  lemma CaseInsensitive(order: seq<string>, text: string)
    requires IsIterationOrder(order)
    ensures ColorOf(order, Lowercased(text)) == ColorOf(order, text)
    ensures ColorOf(order, Uppercased(text)) == ColorOf(order, text)
  {
    LowercasedIdempotent(text);
    LowercasedOfUppercased(text);
  }

  /** Whether some colour is found does not depend on the dictionary's iteration order. */
  lemma FoundIndependentOfOrder(order1: seq<string>, order2: seq<string>, text: string)
    requires IsIterationOrder(order1) && IsIterationOrder(order2)
    ensures ColorOf(order1, text).None? <==> ColorOf(order2, text).None?
  {
  }

  /** When exactly one colour word occurs in the text, every iteration order picks its colour. */
  lemma SingleWordDetermined(order: seq<string>, text: string, k: string)
    requires IsIterationOrder(order)
    requires k in ColorDictionary && Contains(Lowercased(text), k)
    requires forall k' :: k' in ColorDictionary && Contains(Lowercased(text), k') ==> k' == k
    ensures ColorOf(order, text) == Some(ColorDictionary[k])
  {
  }

  /** Saying "Red" tints the text red, whatever the iteration order. */
  lemma SayingRed(order: seq<string>)
    requires IsIterationOrder(order)
    ensures ColorOf(order, "Red") == Some(Red)
  {
    var text := Lowercased("Red");
    assert text == "red";
    assert OccursAt(text, "red", 0);
    forall k | k in ColorDictionary && Contains(text, k)
      ensures k == "red"
    {
      assert |k| <= 3;
    }
    SingleWordDetermined(order, "Red", "red");
  }
}
