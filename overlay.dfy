/**
  The rule both environment records use to take a value from a list of
  key/value pairs: a non-empty value is set, an empty or missing one clears
  the field only when clearing is allowed, and otherwise the field keeps
  what it had.
 */
module Overlay {
  import opened Wrappers
  import opened Paths

  /** The path a value names: none for a missing or empty value. */
  function PathValue(value: Option<string>): (r: Option<Path>)
    ensures r.Some? <==> value.Some? && value.value != []
    ensures r.Some? ==> r.value == ParsePath(value.value)
  {
    match value
    case Some(s) => if s != [] then Some(ParsePath(s)) else None
    case None => None
  }

  /** The field after one pair naming it. */
  function Overlaid(current: Option<Path>, value: Option<string>, allowClearing: bool): Option<Path> {
    if allowClearing || PathValue(value).Some? then PathValue(value) else current
  }

  /** Set on a non-empty value; on an empty or missing one, clear when allowed and keep otherwise. */
  lemma OverlaidRules(current: Option<Path>, value: Option<string>, allowClearing: bool)
    ensures value.Some? && value.value != [] ==> Overlaid(current, value, allowClearing) == Some(ParsePath(value.value))
    ensures (value.None? || value.value == []) && allowClearing ==> Overlaid(current, value, allowClearing) == None
    ensures (value.None? || value.value == []) && !allowClearing ==> Overlaid(current, value, allowClearing) == current
  {
  }

  /** The values of the pairs whose key is `key`, in order. */
  function ValuesFor(pairs: seq<(string, Option<string>)>, key: string): seq<Option<string>>
    decreases |pairs|
  {
    if pairs == [] then []
    else
      var last := pairs[|pairs| - 1];
      ValuesFor(pairs[..|pairs| - 1], key) + (if last.0 == key then [last.1] else [])
  }

  /** The field after a run of values, applied in order. */
  function OverlaidAll(current: Option<Path>, values: seq<Option<string>>, allowClearing: bool): Option<Path>
    decreases |values|
  {
    if values == [] then current
    else Overlaid(OverlaidAll(current, values[..|values| - 1], allowClearing), values[|values| - 1], allowClearing)
  }

  /** With clearing allowed the last value decides alone. */
  lemma OverlaidAllClearing(current: Option<Path>, values: seq<Option<string>>)
    requires values != []
    ensures OverlaidAll(current, values, true) == PathValue(values[|values| - 1])
  {
  }

  /** Without clearing, a run of missing or empty values leaves the field as it was. */
  lemma {:induction false} OverlaidAllKeeps(current: Option<Path>, values: seq<Option<string>>)
    requires forall i :: 0 <= i < |values| ==> PathValue(values[i]).None?
    ensures OverlaidAll(current, values, false) == current
    decreases |values|
  {
    if values != [] {
      OverlaidAllKeeps(current, values[..|values| - 1]);
    }
  }

  /** Without clearing, the field ends at the last non-empty value. */
  lemma {:induction false} OverlaidAllLastSet(current: Option<Path>, values: seq<Option<string>>, i: nat)
    requires i < |values| && PathValue(values[i]).Some?
    requires forall j :: i < j < |values| ==> PathValue(values[j]).None?
    ensures OverlaidAll(current, values, false) == PathValue(values[i])
    decreases |values|
  {
    if i < |values| - 1 {
      OverlaidAllLastSet(current, values[..|values| - 1], i);
    }
  }

  /** Appending a pair adds its value to its own key's run and to no other. */
  lemma FieldStep(current: Option<Path>, init: seq<(string, Option<string>)>, last: (string, Option<string>),
                  key: string, allowClearing: bool)
    ensures OverlaidAll(current, ValuesFor(init + [last], key), allowClearing)
         == if last.0 == key then Overlaid(OverlaidAll(current, ValuesFor(init, key), allowClearing), last.1, allowClearing)
            else OverlaidAll(current, ValuesFor(init, key), allowClearing)
  {
    assert (init + [last])[..|init|] == init;
    var values := ValuesFor(init, key);
    assert (values + [last.1])[..|values|] == values;
    assert values + [] == values;
  }
}
