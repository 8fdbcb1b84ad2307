/** Searching a text for another one. */
module Search {
  import opened Options

  predicate OccursAt(text: string, needle: string, i: nat) {
    i + |needle| <= |text| && text[i..i + |needle|] == needle
  }

  /** String.prototype.indexOf: the first place at or after `from`. */
  function IndexOf(text: string, needle: string, from: nat): (r: Option<nat>)
    ensures r.Some? ==> from <= r.value <= |text| && OccursAt(text, needle, r.value)
    ensures forall i :: from <= i < (if r.Some? then r.value else |text| + 1) ==> !OccursAt(text, needle, i)
    decreases |text| - from
  {
    if from + |needle| > |text| then None
    else if OccursAt(text, needle, from) then Some(from)
    else IndexOf(text, needle, from + 1)
  }
}
