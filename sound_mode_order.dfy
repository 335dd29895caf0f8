/**
 * The order of the sound-mode tile's modes: read from the `sound_mode_order`
 * preference as a comma-joined string, reordered by drag moves, and written back after
 * each move.
 */
module SoundModeOrder {
  import opened Wrappers
  import Text

  const SOUND_MODE_ORDER_KEY := "sound_mode_order"
  const DEFAULT_ORDER: seq<string> := ["Sound", "Vibrate", "Silent"]

  /** No mode name contains the separator. */
  predicate CommaFree(modes: seq<string>) {
    forall k :: 0 <= k < |modes| ==> ',' !in modes[k]
  }

  /** `removeAt(i)`: drops the element at `i`. */
  function RemoveAt<T>(s: seq<T>, i: nat): (r: seq<T>)
    requires i < |s|
    ensures |r| == |s| - 1
    ensures forall k :: 0 <= k < i ==> r[k] == s[k]
    ensures forall k :: i <= k < |r| ==> r[k] == s[k + 1]
    ensures multiset(r) + multiset{s[i]} == multiset(s)
  {
    assert s == s[..i] + [s[i]] + s[i + 1..];
    s[..i] + s[i + 1..]
  }

  /** `add(i, x)`: inserts `x` so that it lands at index `i`. */
  function InsertAt<T>(s: seq<T>, i: nat, x: T): (r: seq<T>)
    requires i <= |s|
    ensures |r| == |s| + 1 && r[i] == x
    ensures forall k :: 0 <= k < i ==> r[k] == s[k]
    ensures forall k :: i < k < |r| ==> r[k] == s[k - 1]
    ensures multiset(r) == multiset(s) + multiset{x}
  {
    assert s == s[..i] + s[i..];
    s[..i] + [x] + s[i..]
  }

  /**
   * `add(to, removeAt(from))` on a copy of `modes`: a permutation of the same length
   * with the element at `from` now at `to`.
   */
  function Moved<T>(modes: seq<T>, from: nat, to: nat): (r: seq<T>)
    requires from < |modes| && to < |modes|
    ensures |r| == |modes| && multiset(r) == multiset(modes)
    ensures r[to] == modes[from]
  {
    InsertAt(RemoveAt(modes, from), to, modes[from])
  }

  /**
   * Outside the range between `from` and `to` every element keeps its index; inside it
   * the elements shift by one towards `from`.
   */
  lemma MovedPositions<T>(modes: seq<T>, from: nat, to: nat)
    requires from < |modes| && to < |modes|
    ensures forall i :: 0 <= i < |modes| && i < from && i < to ==> Moved(modes, from, to)[i] == modes[i]
    ensures forall i :: 0 <= i < |modes| && i > from && i > to ==> Moved(modes, from, to)[i] == modes[i]
    ensures forall i :: from <= i < to ==> Moved(modes, from, to)[i] == modes[i + 1]
    ensures forall i :: to < i <= from ==> Moved(modes, from, to)[i] == modes[i - 1]
  {
    var rest := RemoveAt(modes, from);
    assert Moved(modes, from, to) == InsertAt(rest, to, modes[from]);
  }

  /** Moving an element onto its own index changes nothing. */
  lemma MoveToSelf<T>(modes: seq<T>, i: nat)
    requires i < |modes|
    ensures Moved(modes, i, i) == modes
  {
  }

  /** The index in the old list of the element a move puts at index `i`. */
  function SourceIndex(from: nat, to: nat, i: nat): nat {
    if i == to then from
    else if from <= i < to then i + 1
    else if to < i <= from then i - 1
    else i
  }

  /** The source index of a move back is undone by the forward move's. */
  lemma SourceIndexInverse(from: nat, to: nat, i: nat)
    ensures SourceIndex(from, to, SourceIndex(to, from, i)) == i
  {
  }

  /** Index `i` of the moved list holds the old element at `SourceIndex(from, to, i)`. */
  lemma MovedAt<T>(modes: seq<T>, from: nat, to: nat, i: nat)
    requires from < |modes| && to < |modes| && i < |modes|
    ensures SourceIndex(from, to, i) < |modes| && Moved(modes, from, to)[i] == modes[SourceIndex(from, to, i)]
  {
    MovedPositions(modes, from, to);
  }

  /** Moving back undoes a move. */
  lemma MoveBack<T>(modes: seq<T>, from: nat, to: nat)
    requires from < |modes| && to < |modes|
    ensures Moved(Moved(modes, from, to), to, from) == modes
  {
    var once := Moved(modes, from, to);
    var twice := Moved(once, to, from);
    forall i | 0 <= i < |modes|
      ensures twice[i] == modes[i]
    {
      MovedAt(once, to, from, i);
      var j := SourceIndex(to, from, i);
      MovedAt(modes, from, to, j);
      SourceIndexInverse(from, to, i);
    }
  }

  /** A move keeps the names comma-free, so the written string splits back into the modes. */
  lemma MovedRoundTrips(modes: seq<string>, from: nat, to: nat)
    requires from < |modes| && to < |modes| && CommaFree(modes)
    ensures Text.Split(Text.Join(Moved(modes, from, to), ','), ',') == Moved(modes, from, to)
  {
    var r := Moved(modes, from, to);
    forall k | 0 <= k < |r|
      ensures ',' !in r[k]
    {
      assert r[k] in multiset(modes);
    }
    Text.SplitJoin(r, ',');
  }

  /** The modes a stored order (or its absence) decodes to. */
  function StoredModes(stored: Option<string>): seq<string> {
    Text.Split(stored.GetOr(Text.Join(DEFAULT_ORDER, ',')), ',')
  }

  /** With nothing stored the order is Sound, Vibrate, Silent. */
  lemma DefaultOrder()
    ensures StoredModes(None) == ["Sound", "Vibrate", "Silent"]
  {
    assert CommaFree(DEFAULT_ORDER);
    Text.SplitJoin(DEFAULT_ORDER, ',');
  }

  /** The settings screen's reorderable list and the preference it persists to. */
  class SoundModeOrderEditor {
    var modes: seq<string>
    /** The `sound_mode_order` preference. */
    var storedOrder: Option<string>

    /** Reads the preference, falling back to the default order. */
    constructor (stored: Option<string>)
      ensures storedOrder == stored
      ensures modes == StoredModes(stored)
    {
      storedOrder := stored;
      var orderString := stored.GetOr(Text.Join(DEFAULT_ORDER, ','));
      modes := Text.Split(orderString, ',');
    }

    /** The reorder callback: move, then persist the joined list. */
    method Move(from: nat, to: nat)
      requires from < |modes| && to < |modes|
      modifies this
      ensures modes == Moved(old(modes), from, to)
      ensures storedOrder == Some(Text.Join(modes, ','))
    {
      var list := modes;
      var moved := list[from];
      list := list[..from] + list[from + 1..];
      assert list == RemoveAt(modes, from);
      list := list[..to] + [moved] + list[to..];
      modes := list;
      storedOrder := Some(Text.Join(modes, ','));
    }
  }
}
