/**
 * The on-screen keyboard's key layer and shift state machine: the letters/symbols
 * layer, the OFF/ON/LOCKED shift state, what each key types and how each key changes
 * the two.
 */
module Keyboard {
  import opened Wrappers
  import Text

  datatype ShiftState = OFF | ON | LOCKED

  /** Android key codes sent through `onKeyPress`. */
  const KEYCODE_ENTER := 66
  const KEYCODE_DEL := 67

  const NUMBER_ROW: seq<string> := ["1", "2", "3", "4", "5", "6", "7", "8", "9", "0"]

  const ROW1_LETTERS: seq<string> := ["q", "w", "e", "r", "t", "y", "u", "i", "o", "p"]
  const ROW2_LETTERS: seq<string> := ["a", "s", "d", "f", "g", "h", "j", "k", "l"]
  const ROW3_LETTERS: seq<string> := ["z", "x", "c", "v", "b", "n", "m"]

  const ROW1_SYMBOLS: seq<string> := ["!", "@", "#", "$", "%", "^", "&", "*", "(", ")"]
  const ROW2_SYMBOLS: seq<string> := ["-", "_", "+", "=", "[", "]", "{", "}", "\\", "|"]
  const ROW3_SYMBOLS: seq<string> := [";", ":", "'", "\"", ",", ".", "<", ">"]

  /** The character keys of row 1, 2 or 3 in the current layer. */
  function CurrentRow(isSymbols: bool, row: nat): seq<string>
    requires 1 <= row <= 3
  {
    if row == 1 then (if isSymbols then ROW1_SYMBOLS else ROW1_LETTERS)
    else if row == 2 then (if isSymbols then ROW2_SYMBOLS else ROW2_LETTERS)
    else (if isSymbols then ROW3_SYMBOLS else ROW3_LETTERS)
  }

  /** The letter rows hold 10, 9 and 7 keys; the symbol rows 10, 10 and 8. */
  lemma RowSizes()
    ensures |CurrentRow(false, 1)| == 10 && |CurrentRow(false, 2)| == 9 && |CurrentRow(false, 3)| == 7
    ensures |CurrentRow(true, 1)| == 10 && |CurrentRow(true, 2)| == 10 && |CurrentRow(true, 3)| == 8
  {
  }

  /** A one-character label that is a lower-case ASCII letter. */
  predicate IsLowerLetter(text: string) {
    |text| == 1 && 'a' <= text[0] <= 'z'
  }

  /** Every key of the letter rows is a single lower-case letter. */
  lemma LetterKeysAreLowercase(row: nat, i: nat)
    requires 1 <= row <= 3 && i < |CurrentRow(false, row)|
    ensures IsLowerLetter(CurrentRow(false, row)[i])
  {
    if row == 1 {
      assert forall k :: 0 <= k < |ROW1_LETTERS| ==> IsLowerLetter(ROW1_LETTERS[k]);
    } else if row == 2 {
      assert forall k :: 0 <= k < |ROW2_LETTERS| ==> IsLowerLetter(ROW2_LETTERS[k]);
    } else {
      assert forall k :: 0 <= k < |ROW3_LETTERS| ==> IsLowerLetter(ROW3_LETTERS[k]);
    }
  }

  /** The keys of the keyboard; `CharKey(row, index)` is a key of row 1, 2 or 3. */
  datatype Key =
    | NumberKey(index: nat)
    | CharKey(row: nat, index: nat)
    | ShiftTap
    | ShiftLongPress
    | SymbolsToggle
    | CommaKey
    | DotKey
    | SpaceKey
    | ReturnKey
    | BackspaceTap

  /** What a key sends to the editor: text through `onType`, a key code through `onKeyPress`. */
  datatype Output = Typed(text: string) | Pressed(code: int)

  /** The remembered state of the view. */
  datatype KeyState = KeyState(isSymbols: bool, shift: ShiftState)

  const INITIAL := KeyState(false, OFF)

  /** The key is on screen in this state: the shift key exists only in the letters layer. */
  predicate Shown(s: KeyState, key: Key) {
    match key
    case NumberKey(i) => i < |NUMBER_ROW|
    case CharKey(row, i) => 1 <= row <= 3 && i < |CurrentRow(s.isSymbols, row)|
    case ShiftTap => !s.isSymbols
    case ShiftLongPress => !s.isSymbols
    case _ => true
  }

  /** The label of a character key, which is also what it types. */
  function DisplayLabel(c: string, s: KeyState): string {
    if s.shift != OFF && !s.isSymbols then Text.Uppercase(c) else c
  }

  /** The state after `key` is pressed. */
  function Next(s: KeyState, key: Key): KeyState
    requires Shown(s, key)
  {
    match key
    case CharKey(_, _) => if s.shift == ON then s.(shift := OFF) else s
    case ShiftTap => s.(shift := if s.shift == OFF then ON else OFF)
    case ShiftLongPress => s.(shift := LOCKED)
    case SymbolsToggle => s.(isSymbols := !s.isSymbols)
    case _ => s
  }

  /** What pressing `key` sends, if anything. */
  function Emitted(s: KeyState, key: Key): Option<Output>
    requires Shown(s, key)
  {
    match key
    case NumberKey(i) => Some(Typed(NUMBER_ROW[i]))
    case CharKey(row, i) => Some(Typed(DisplayLabel(CurrentRow(s.isSymbols, row)[i], s)))
    case CommaKey => Some(Typed(","))
    case DotKey => Some(Typed("."))
    case SpaceKey => Some(Typed(" "))
    case ReturnKey => Some(Pressed(KEYCODE_ENTER))
    case BackspaceTap => Some(Pressed(KEYCODE_DEL))
    case _ => None
  }

  /** A shift tap from OFF or ON, tapped again, returns to where it started; from LOCKED it unlocks. */
  lemma ShiftTapTwice(s: KeyState)
    requires !s.isSymbols
    ensures s.shift != LOCKED ==> Next(Next(s, ShiftTap), ShiftTap) == s
    ensures s.shift == LOCKED ==> Next(s, ShiftTap).shift == OFF
    ensures Next(s, ShiftTap).shift == ON <==> s.shift == OFF
  {
  }

  /** A long press locks shift from any state; the lock survives character keys. */
  lemma LongPressLocks(s: KeyState, row: nat, i: nat)
    requires !s.isSymbols && 1 <= row <= 3 && i < |CurrentRow(false, row)|
    ensures Next(s, ShiftLongPress).shift == LOCKED
    ensures Next(Next(s, ShiftLongPress), CharKey(row, i)).shift == LOCKED
  {
  }

  /**
   * A character key types its upper-case form exactly when shift is not OFF and the
   * letters layer is active, and its own label otherwise.
   */
  lemma CharKeyTypesLabel(s: KeyState, row: nat, i: nat)
    requires Shown(s, CharKey(row, i))
    ensures var c := CurrentRow(s.isSymbols, row)[i];
      Emitted(s, CharKey(row, i)) == Some(Typed(c)) <==> s.shift == OFF || s.isSymbols
    ensures var c := CurrentRow(s.isSymbols, row)[i];
      s.shift != OFF && !s.isSymbols ==> Emitted(s, CharKey(row, i)) == Some(Typed([Text.UpperChar(c[0])]))
  {
    var c := CurrentRow(s.isSymbols, row)[i];
    if !s.isSymbols {
      LetterKeysAreLowercase(row, i);
      if s.shift != OFF {
        var u := Text.Uppercase(c);
        assert u[0] != c[0];
        assert u == [Text.UpperChar(c[0])];
      }
    }
  }

  /** After a character key, ON falls back to OFF while OFF and LOCKED stay; the layer stays. */
  lemma CharKeyReleasesOneShotShift(s: KeyState, row: nat, i: nat)
    requires Shown(s, CharKey(row, i))
    ensures Next(s, CharKey(row, i)).isSymbols == s.isSymbols
    ensures Next(s, CharKey(row, i)).shift == (if s.shift == LOCKED then LOCKED else OFF)
  {
  }

  /** Number, comma, dot, space, return and backspace keys change neither shift nor layer. */
  lemma PassiveKeysKeepState(s: KeyState, key: Key)
    requires Shown(s, key)
    requires key.NumberKey? || key.CommaKey? || key.DotKey? || key.SpaceKey? || key.ReturnKey? || key.BackspaceTap?
    ensures Next(s, key) == s && Emitted(s, key).Some?
  {
  }

  /** The symbols key flips the layer and keeps the shift state; pressing it twice is a no-op. */
  lemma SymbolsToggleKeepsShift(s: KeyState)
    ensures Next(s, SymbolsToggle).shift == s.shift && Next(s, SymbolsToggle).isSymbols != s.isSymbols
    ensures Next(Next(s, SymbolsToggle), SymbolsToggle) == s
    ensures Next(s, SymbolsToggle).isSymbols ==> !Shown(Next(s, SymbolsToggle), ShiftTap)
  {
  }

  /** Presses `keys` in turn from `s`; `None` when some key is not on screen when pressed. */
  function Run(s: KeyState, keys: seq<Key>): Option<(KeyState, seq<Option<Output>>)>
    decreases |keys|
  {
    if keys == [] then Some((s, []))
    else if !Shown(s, keys[0]) then None
    else
      var rest := Run(Next(s, keys[0]), keys[1..]);
      if rest.None? then None else Some((rest.value.0, [Emitted(s, keys[0])] + rest.value.1))
  }

  /** In the letters layer with shift LOCKED, any run of character keys types upper case throughout. */
  lemma {:induction false} LockedTypesUppercase(s: KeyState, keys: seq<Key>)
    requires s.shift == LOCKED && !s.isSymbols
    requires forall k :: 0 <= k < |keys| ==> keys[k].CharKey? && Shown(s, keys[k])
    ensures Run(s, keys).Some? && Run(s, keys).value.0 == s
    ensures forall k :: 0 <= k < |Run(s, keys).value.1| ==>
      Run(s, keys).value.1[k].Some? && Run(s, keys).value.1[k].value.Typed?
      && Run(s, keys).value.1[k].value.text == Text.Uppercase(Run(s, keys).value.1[k].value.text)
  {
    if keys != [] {
      var key := keys[0];
      assert Next(s, key) == s;
      LockedTypesUppercase(s, keys[1..]);
      var c := CurrentRow(false, key.row)[key.index];
      LetterKeysAreLowercase(key.row, key.index);
      var u := Text.Uppercase(c);
      assert Text.Uppercase(u) == u by {
        assert |u| == 1 && Text.UpperChar(u[0]) == u[0];
      }
      var outs := Run(s, keys).value.1;
      assert outs == [Some(Typed(u))] + Run(s, keys[1..]).value.1;
      forall k | 0 <= k < |outs|
        ensures outs[k].Some? && outs[k].value.Typed? && outs[k].value.text == Text.Uppercase(outs[k].value.text)
      {
        if k > 0 {
          assert outs[k] == Run(s, keys[1..]).value.1[k - 1];
        }
      }
    }
  }

  /**
   * One shift tap capitalises exactly the next letter: after tap, `a`, `b` from OFF the
   * first letter is upper case, the second lower case, and shift is OFF again.
   */
  lemma OneShotShift(s: KeyState, first: nat, second: nat)
    requires s == INITIAL && first < |ROW2_LETTERS| && second < |ROW2_LETTERS|
    ensures var r := Run(s, [ShiftTap, CharKey(2, first), CharKey(2, second)]);
      r.Some? && r.value.0 == INITIAL
      && r.value.1 == [None, Some(Typed(Text.Uppercase(ROW2_LETTERS[first]))), Some(Typed(ROW2_LETTERS[second]))]
  {
    var on := KeyState(false, ON);
    var k1, k2 := CharKey(2, first), CharKey(2, second);
    var upper, lower := Some(Typed(Text.Uppercase(ROW2_LETTERS[first]))), Some(Typed(ROW2_LETTERS[second]));
    assert Next(INITIAL, k2) == INITIAL && Emitted(INITIAL, k2) == lower;
    assert Next(on, k1) == INITIAL && Emitted(on, k1) == upper;
    assert [k2][0] == k2 && [k2][1..] == [];
    assert Run(INITIAL, []) == Some((INITIAL, []));
    assert Run(INITIAL, [k2]).Some? && Run(INITIAL, [k2]).value.1 == [lower] + [] == [lower];
    assert [k1, k2][0] == k1 && [k1, k2][1..] == [k2];
    assert Run(on, [k1, k2]).Some? && Run(on, [k1, k2]).value.1 == [upper] + [lower] == [upper, lower];
    assert [ShiftTap, k1, k2][1..] == [k1, k2];
  }

  /** The keyboard view: its two remembered variables. */
  class KeyboardInputView {
    var isSymbols: bool
    var shiftState: ShiftState

    function State(): KeyState
      reads this
    {
      KeyState(isSymbols, shiftState)
    }

    /** The letters layer, shift OFF. */
    constructor ()
      ensures State() == INITIAL
    {
      isSymbols := false;
      shiftState := OFF;
    }

    /** The click or long-click handler of `key`. */
    method Press(key: Key) returns (output: Option<Output>)
      requires Shown(State(), key)
      modifies this
      ensures State() == Next(old(State()), key)
      ensures output == Emitted(old(State()), key)
    {
      match key {
        case NumberKey(i) =>
          output := Some(Typed(NUMBER_ROW[i]));
        case CharKey(row, i) =>
          var typed := DisplayLabel(CurrentRow(isSymbols, row)[i], State());
          output := Some(Typed(typed));
          if shiftState == ON {
            shiftState := OFF;
          }
        case ShiftTap =>
          output := None;
          shiftState := if shiftState == OFF then ON else OFF;
        case ShiftLongPress =>
          output := None;
          shiftState := LOCKED;
        case SymbolsToggle =>
          output := None;
          isSymbols := !isSymbols;
        case CommaKey =>
          output := Some(Typed(","));
        case DotKey =>
          output := Some(Typed("."));
        case SpaceKey =>
          output := Some(Typed(" "));
        case ReturnKey =>
          output := Some(Pressed(KEYCODE_ENTER));
        case BackspaceTap =>
          output := Some(Pressed(KEYCODE_DEL));
      }
    }
  }
}
