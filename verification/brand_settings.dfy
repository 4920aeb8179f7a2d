/** The brand-profile editor of frontend/src/pages/BrandSettings.js: the
    mood and style pickers capped at three choices, the colour editor and
    the brand-name guard on the first step and on save. */
module BrandSettings {
  import Lists
  import Text

  /** At most this many moods, and this many styles, can be picked. */
  const MAX_PICKS: nat := 3

  /** `toggleMood(moodId)` and `toggleStyle(styleId)`: a picked id is
      removed; an unpicked one is appended and the list cut to three. */
  function ToggleCapped(picked: seq<string>, id: string): (r: seq<string>)
    // a picked id is always removed, and nothing else is
    ensures id in picked ==> id !in r && forall e | e in picked && e != id :: e in r
    ensures forall e | e in r && e != id :: e in picked
    // an unpicked id is added exactly when there is room
    ensures id !in picked && |picked| < MAX_PICKS ==> r == picked + [id]
    // with three already picked, the click changes nothing
    ensures id !in picked && |picked| >= MAX_PICKS ==> r == Lists.Take(picked, MAX_PICKS) && id !in r
    // the cap holds for every list the editor itself produced
    ensures id !in picked ==> |r| <= MAX_PICKS
    ensures |picked| <= MAX_PICKS ==> |r| <= MAX_PICKS
  {
    if id in picked then Lists.RemoveAll(picked, id)
    else
      var grown := picked + [id];
      assert |picked| >= MAX_PICKS ==> grown[..MAX_PICKS] == picked[..MAX_PICKS];
      Lists.Take(grown, MAX_PICKS)
  }

  /** Below the cap a toggle is undone by toggling again. */
  lemma {:induction false} ToggleCappedTwice(picked: seq<string>, id: string)
    requires id !in picked && |picked| < MAX_PICKS
    ensures ToggleCapped(ToggleCapped(picked, id), id) == picked
  {
    Lists.RemoveAllAppend(picked, [id], id);
    Lists.RemoveAbsent(picked, id);
    assert Lists.RemoveAll([id], id) == [];
  }

  /** Any run of clicks starting from at most three picks never shows more
      than three. */
  lemma {:induction false} CapHoldsForEveryClickSequence(picked: seq<string>, clicks: seq<string>)
    requires |picked| <= MAX_PICKS
    ensures |ApplyClicks(picked, clicks)| <= MAX_PICKS
    decreases |clicks|
  {
    if |clicks| > 0 {
      CapHoldsForEveryClickSequence(ToggleCapped(picked, clicks[0]), clicks[1..]);
    }
  }

  function ApplyClicks(picked: seq<string>, clicks: seq<string>): seq<string>
    decreases |clicks|
  {
    if |clicks| == 0 then picked else ApplyClicks(ToggleCapped(picked, clicks[0]), clicks[1..])
  }

  /** `updateColor(type, index, color)`: the colour at `index` is replaced;
      an index outside the list changes nothing. */
  function UpdateColor(colors: seq<string>, index: int, color: string): (r: seq<string>)
    ensures |r| == |colors|
    ensures 0 <= index < |colors| ==> r[index] == color
    ensures forall i | 0 <= i < |colors| && i != index :: r[i] == colors[i]
  {
    seq(|colors|, i requires 0 <= i < |colors| => if i == index then color else colors[i])
  }

  /** Repainting a colour with the value it already has changes nothing. */
  lemma UpdateColorSameIsIdentity(colors: seq<string>, index: int)
    requires 0 <= index < |colors|
    ensures UpdateColor(colors, index, colors[index]) == colors
  {
  }

  /** `canGoNext`: only the first step (the brand name) is guarded. */
  predicate CanGoNext(step: nat, brandName: string) {
    step == 0 ==> !Text.IsBlank(brandName)
  }

  datatype SaveOutcome =
    | BackToNameStep      // the error toast and `setStep(0)`; no request
    | Submitted           // the profile is posted

  /** `handleSave`: a blank brand name sends the editor back to step 0. */
  function HandleSave(brandName: string): (r: SaveOutcome)
    ensures r == BackToNameStep <==> Text.IsBlank(brandName)
  {
    if Text.IsBlank(brandName) then BackToNameStep else Submitted
  }

  /** Save and the first step agree: a name that lets the editor leave
      step 0 is a name save accepts, and conversely. */
  lemma SaveAgreesWithFirstStep(brandName: string)
    ensures CanGoNext(0, brandName) <==> HandleSave(brandName) == Submitted
  {
  }
}
