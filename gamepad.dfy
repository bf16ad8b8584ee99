/**
 * The joypad register P1 (0xFF00) of sources/gamepad.cpp.  The register is
 * active-low: a 0 written to bit 5 selects the button row and a 0 written to
 * bit 4 selects the direction row; the low nibble read back has a 0 for
 * every pressed key of a selected row.
 */
module Gamepad {
  import opened Common

  /** gamepad_state: which keys are held down. */
  datatype Buttons = Buttons(start: bool, select: bool, a: bool, b: bool,
                             up: bool, down: bool, left: bool, right: bool)

  /** No key held. */
  const NonePressed: Buttons := Buttons(false, false, false, false, false, false, false, false)

  /** gamepad_context: the two selection flags (as written, not inverted) and the keys. */
  datatype PadState = PadState(buttonSelected: bool, dirSelected: bool, controller: Buttons)

  /** The button row's key on output bit k: A, B, Select, Start for bits 0-3. */
  predicate ButtonAt(c: Buttons, k: u8)
    requires k < 4
  {
    if k == 0 then c.a else if k == 1 then c.b else if k == 2 then c.select else c.start
  }

  /** The direction row's key on output bit k: Right, Left, Up, Down for bits 0-3. */
  predicate DirAt(c: Buttons, k: u8)
    requires k < 4
  {
    if k == 0 then c.right else if k == 1 then c.left else if k == 2 then c.up else c.down
  }

  /** Whether output bit k reads as pressed: a held key on that bit of a row whose select bit was written 0. */
  predicate Pressed(s: PadState, k: u8)
    requires k < 4
  {
    (!s.buttonSelected && ButtonAt(s.controller, k)) || (!s.dirSelected && DirAt(s.controller, k))
  }

  /** The value of one low output bit: 1 when not pressed. */
  function Released(s: PadState, k: u8): u8
    requires k < 4
  {
    if Pressed(s, k) then 0 else 1 << k
  }

  /**
   * The P1 value read back: bits 7 and 6 set, bits 5 and 4 clear, and low
   * bit k set exactly when key k is not pressed.
   */
  function Output(s: PadState): u8
  {
    0xC0 | Released(s, 0) | Released(s, 1) | Released(s, 2) | Released(s, 3)
  }

  /** gamepad_set_selected: bit 5 selects buttons, bit 4 directions, both as written. */
  function Selected(s: PadState, v: u8): (s': PadState)
    ensures s'.controller == s.controller
  {
    s.(buttonSelected := v & 0x20 != 0, dirSelected := v & 0x10 != 0)
  }

  // ---------------------------------------------------------------------
  // The context, updated in place

  class Controller {
    var buttonSelected: bool
    var dirSelected: bool
    var controller: Buttons

    function State(): PadState
      reads this
    {
      PadState(buttonSelected, dirSelected, controller)
    }

    /** The zero-initialised static context: both flags false, nothing held. */
    constructor()
      ensures State() == PadState(false, false, NonePressed)
    {
      buttonSelected, dirSelected, controller := false, false, NonePressed;
    }

    /** gamepad_button_selected. */
    function ButtonSelected(): (r: bool)
      reads this
      ensures r == State().buttonSelected
    {
      buttonSelected
    }

    /** gamepad_dir_selected. */
    function DirSelected(): (r: bool)
      reads this
      ensures r == State().dirSelected
    {
      dirSelected
    }

    /** gamepad_set_selected. */
    method SetSelected(v: u8)
      modifies this
      ensures State() == Selected(old(State()), v)
    {
      buttonSelected := v & 0x20 != 0;
      dirSelected := v & 0x10 != 0;
    }

    /** A store of the keys through the address gamepad_get_state hands out. */
    method SetButtons(keys: Buttons)
      modifies this
      ensures State() == old(State()).(controller := keys)
    {
      controller := keys;
    }

    /**
     * gamepad_get_output: start from 0xCF and clear the bit of every held
     * key of each selected row; the context is only read.
     */
    method GetOutput() returns (out: u8)
      ensures out == Output(State())
    {
      out := 0xCF;
      if !ButtonSelected() {
        out := ButtonRow(out, controller);
      }
      if !DirSelected() {
        out := DirRow(out, controller);
      }
      OutputOfRows(State());
    }
  }

  /** The button half of gamepad_get_output. */
  method ButtonRow(x: u8, c: Buttons) returns (out: u8)
    ensures out == x & RowMask(c.start, c.select, c.b, c.a)
  {
    out := x;
    if c.start {
      out := out & !(1 << 3);
    }
    if c.select {
      out := out & !(1 << 2);
    }
    if c.a {
      out := out & !(1 << 0);
    }
    if c.b {
      out := out & !(1 << 1);
    }
  }

  /** The direction half of gamepad_get_output. */
  method DirRow(x: u8, c: Buttons) returns (out: u8)
    ensures out == x & RowMask(c.down, c.up, c.left, c.right)
  {
    out := x;
    if c.left {
      out := out & !(1 << 1);
    }
    if c.right {
      out := out & !(1 << 0);
    }
    if c.up {
      out := out & !(1 << 2);
    }
    if c.down {
      out := out & !(1 << 3);
    }
  }

  /** The mask a row applies: bit 3..0 clear for each of the four keys held. */
  function RowMask(k3: bool, k2: bool, k1: bool, k0: bool): u8
  {
    !((if k3 then 8 else 0) | (if k2 then 4 else 0) | (if k1 then 2 else 0) | (if k0 then 1 else 0))
  }

  /** The row masks applied to 0xCF give the reference output. */
  lemma OutputOfRows(s: PadState)
    ensures var c := s.controller;
      var b := if s.buttonSelected then 0xCF else 0xCF & RowMask(c.start, c.select, c.b, c.a);
      Output(s) == if s.dirSelected then b else b & RowMask(c.down, c.up, c.left, c.right)
  {
  }

  // ---------------------------------------------------------------------
  // What the register promises

  /** gamepad_set_selected takes bit 5 for the button row and bit 4 for the direction row. */
  lemma SelectedBits(s: PadState, v: u8)
    ensures Selected(s, v).buttonSelected <==> Bit(v, 5)
    ensures Selected(s, v).dirSelected <==> Bit(v, 4)
  {
  }

  /** Bits 7 and 6 always read 1 and bits 5 and 4 always read 0. */
  lemma OutputHighBits(s: PadState)
    ensures Bit(Output(s), 7) && Bit(Output(s), 6)
    ensures !Bit(Output(s), 5) && !Bit(Output(s), 4)
  {
  }

  /** Low bit k reads 0 exactly when the key on that bit of a selected row is held. */
  lemma OutputLowBit(s: PadState, k: u8)
    requires k < 4
    ensures Bit(Output(s), k) <==> !Pressed(s, k)
  {
  }

  /** With the button row selected (bit 5 written 0), Start, Select, B and A clear bits 3, 2, 1 and 0. */
  lemma ButtonRowBits(s: PadState)
    requires !s.buttonSelected
    ensures s.controller.start ==> !Bit(Output(s), 3)
    ensures s.controller.select ==> !Bit(Output(s), 2)
    ensures s.controller.b ==> !Bit(Output(s), 1)
    ensures s.controller.a ==> !Bit(Output(s), 0)
  {
    OutputLowBit(s, 3);
    OutputLowBit(s, 2);
    OutputLowBit(s, 1);
    OutputLowBit(s, 0);
  }

  /** With the direction row selected (bit 4 written 0), Down, Up, Left and Right clear bits 3, 2, 1 and 0. */
  lemma DirRowBits(s: PadState)
    requires !s.dirSelected
    ensures s.controller.down ==> !Bit(Output(s), 3)
    ensures s.controller.up ==> !Bit(Output(s), 2)
    ensures s.controller.left ==> !Bit(Output(s), 1)
    ensures s.controller.right ==> !Bit(Output(s), 0)
  {
    OutputLowBit(s, 3);
    OutputLowBit(s, 2);
    OutputLowBit(s, 1);
    OutputLowBit(s, 0);
  }

  /** A deselected row's keys do not show. */
  lemma DeselectedRowsHidden(s: PadState)
    requires s.buttonSelected && s.dirSelected
    ensures Output(s) == 0xCF
  {
  }

  /** The output is 0xCF exactly when no key of a selected row is held. */
  lemma IdleOutput(s: PadState)
    ensures Output(s) == 0xCF <==> forall k: u8 :: k < 4 ==> !Pressed(s, k)
  {
    OutputLowBit(s, 0);
    OutputLowBit(s, 1);
    OutputLowBit(s, 2);
    OutputLowBit(s, 3);
  }

  /** With nothing held, the output is 0xCF whatever was selected. */
  lemma NothingPressed(s: PadState)
    requires s.controller == NonePressed
    ensures Output(s) == 0xCF
  {
  }
}
