/**
 * Positional addressing of chapters and tracks.
 *
 * The commands receive chapter and track positions as JavaScript numbers produced by `parseInt`, so a
 * position is an integer or NaN.  Looking one up with `array[index]` yields `undefined` outside the
 * array, and removing one uses `Array.prototype.splice(index, 1)`.
 */
module Positions {
  import opened Wrappers

  /** A position argument as `parseInt` yields it: an integer, or NaN for text that is not a number. */
  datatype IndexArg = Int(value: int) | NaN

  /** `array[index]` finds an element exactly when the index is an integer inside the array. */
  predicate InRange(index: IndexArg, length: nat) {
    index.Int? && 0 <= index.value < length
  }

  /** `array[index]`, with `undefined` as None. */
  function Lookup<T>(s: seq<T>, index: IndexArg): (r: Option<T>)
    ensures r.Some? <==> InRange(index, |s|)
    ensures r.Some? ==> r.value == s[index.value]
  {
    if InRange(index, |s|) then Some(s[index.value]) else None
  }

  /** The sequence without its element at position `i`: what `splice(i, 1)` leaves for an in-range `i`. */
  function RemoveAt<T>(s: seq<T>, i: nat): (r: seq<T>)
    requires i < |s|
    ensures |r| == |s| - 1
    ensures forall j :: 0 <= j < i ==> r[j] == s[j]
    ensures forall j :: i <= j < |r| ==> r[j] == s[j + 1]
    ensures multiset(r) + multiset{s[i]} == multiset(s)
  {
    assert s == s[..i] + [s[i]] + s[i + 1..];
    s[..i] + s[i + 1..]
  }

  // ---------------------------------------------------------------------------------------------
  // The delete commands as written: `if (i < 0 || i >= s.length) exit; s.splice(i, 1)`.
  // ---------------------------------------------------------------------------------------------

  /** The guard `i < 0 || i >= length`; every comparison with NaN is false, so NaN is never rejected. */
  predicate RejectedAsWritten(index: IndexArg, length: nat) {
    index.Int? && (index.value < 0 || index.value >= length)
  }

  /**
   * The start position `splice` computes from its first argument: ToIntegerOrInfinity turns NaN into 0,
   * a negative start counts back from the end, and the result is clamped to [0, length].
   */
  function SpliceStart(index: IndexArg, length: nat): (r: nat)
    ensures r <= length
    ensures index.Int? && 0 <= index.value < length ==> r == index.value
  {
    match index
    case NaN => 0
    case Int(n) =>
      if n < 0 then (if length + n < 0 then 0 else length + n)
      else if n > length then length
      else n
  }

  /** `splice(start, 1)` on a start already clamped to [0, |s|]. */
  function SpliceOne<T>(s: seq<T>, start: nat): seq<T>
    requires start <= |s|
  {
    if start < |s| then RemoveAt(s, start) else s
  }

  /** The delete commands as written: None is the "not found" exit, Some is the spliced sequence. */
  function DeleteAsWritten<T>(s: seq<T>, index: IndexArg): Option<seq<T>> {
    if RejectedAsWritten(index, |s|) then None else Some(SpliceOne(s, SpliceStart(index, |s|)))
  }

  /** A non-numeric position passes the guard and `splice(NaN, 1)` removes the FIRST element. */
  lemma NaNIndexDeletesFirst<T>(s: seq<T>)
    requires |s| > 0
    ensures Lookup(s, NaN) == None
    ensures DeleteAsWritten(s, NaN) == Some(s[1..])
  {
    assert RemoveAt(s, 0) == s[1..];
  }

  /**
   * The delete commands as evidently intended: a position is accepted exactly when `s[index]` would
   * find an element (as every other command treats positions), and then exactly that element goes.
   */
  function DeleteChecked<T>(s: seq<T>, index: IndexArg): (r: Option<seq<T>>)
    ensures r.Some? <==> Lookup(s, index).Some?
    ensures r.Some? ==> |r.value| == |s| - 1
    ensures r.Some? ==> multiset(r.value) + multiset{Lookup(s, index).value} == multiset(s)
    ensures r.Some? ==> r.value == s[..index.value] + s[index.value + 1..]
  {
    if InRange(index, |s|) then Some(RemoveAt(s, index.value)) else None
  }

  /** On integer positions the code as written and the corrected delete agree; they differ only at NaN. */
  lemma CheckedAgreesOnIntegers<T>(s: seq<T>, index: IndexArg)
    requires index.Int?
    ensures DeleteAsWritten(s, index) == DeleteChecked(s, index)
  {
  }
}
