/**
 * The arithmetic and string helpers of sources/ui.cpp: the integer
 * letterbox of the 160x144 screen in a window, the background picked from
 * the ROM name, the ROM basename, and the selection of the ROM picker.
 * Strings are std::string byte strings: each char stands for one byte.
 */
module Ui {

  const GbWidth: int := 160
  const GbHeight: int := 144

  // ---------------------------------------------------------------------
  // get_display_rect

  /** C's int division, which truncates toward zero. */
  function TruncDiv(a: int, b: int): (q: int)
    requires b > 0
    ensures a >= 0 ==> q == a / b
    ensures a < 0 ==> q == -((-a) / b)
  {
    if a >= 0 then a / b else -((-a) / b)
  }

  /** The largest whole scale at which the screen fits the window, at least 1. */
  function Scale(winW: int, winH: int): int
  {
    var sw := TruncDiv(winW, GbWidth);
    var sh := TruncDiv(winH, GbHeight);
    var s := if sw < sh then sw else sh;
    if s < 1 then 1 else s
  }

  /** SDL_Rect. */
  datatype Rect = Rect(x: int, y: int, w: int, h: int)

  /** The screen at Scale, centred with C's division of the margins. */
  function DisplayRect(winW: int, winH: int): Rect
  {
    var s := Scale(winW, winH);
    Rect(TruncDiv(winW - GbWidth * s, 2), TruncDiv(winH - GbHeight * s, 2), GbWidth * s, GbHeight * s)
  }

  /** The SDL_Rect get_display_rect fills in. */
  class DestRect {
    var x: int
    var y: int
    var w: int
    var h: int

    function Value(): Rect
      reads this
    {
      Rect(x, y, w, h)
    }

    constructor()
      ensures Value() == Rect(0, 0, 0, 0)
    {
      x, y, w, h := 0, 0, 0, 0;
    }
  }

  /** get_display_rect. */
  method GetDisplayRect(dest: DestRect, winW: int, winH: int)
    modifies dest
    ensures dest.Value() == DisplayRect(winW, winH)
  {
    var scaleW := TruncDiv(winW, GbWidth);
    var scaleH := TruncDiv(winH, GbHeight);
    var scale := if scaleW < scaleH then scaleW else scaleH;
    if scale < 1 {
      scale := 1;
    }
    var drawW := GbWidth * scale;
    var drawH := GbHeight * scale;
    dest.w := drawW;
    dest.h := drawH;
    dest.x := TruncDiv(winW - drawW, 2);
    dest.y := TruncDiv(winH - drawH, 2);
  }

  /** The scale is at least 1, and the rectangle is the screen at that scale. */
  lemma RectSize(winW: int, winH: int)
    ensures Scale(winW, winH) >= 1
    ensures DisplayRect(winW, winH).w == GbWidth * Scale(winW, winH)
    ensures DisplayRect(winW, winH).h == GbHeight * Scale(winW, winH)
  {
  }

  /** In a window of at least 160x144 the screen fits, and one more step of scale would not. */
  lemma ScaleIsLargest(winW: int, winH: int)
    requires winW >= GbWidth && winH >= GbHeight
    ensures GbWidth * Scale(winW, winH) <= winW && GbHeight * Scale(winW, winH) <= winH
    ensures GbWidth * (Scale(winW, winH) + 1) > winW || GbHeight * (Scale(winW, winH) + 1) > winH
  {
    var s := Scale(winW, winH);
    assert s == winW / GbWidth || s == winH / GbHeight;
    assert s <= winW / GbWidth && s <= winH / GbHeight;
    MulDivBounds(winW, GbWidth, s);
    MulDivBounds(winH, GbHeight, s);
  }

  /** q <= a / b exactly when b * q <= a; and b * (a / b + 1) > a. */
  lemma MulDivBounds(a: int, b: int, q: int)
    requires a >= 0 && b > 0 && q >= 0
    ensures q <= a / b ==> b * q <= a
    ensures q == a / b ==> b * (q + 1) > a
  {
    if q <= a / b {
      assert b * q <= b * (a / b);
    }
  }

  /** In a window of at least 160x144 the rectangle lies inside it, centred to within one pixel. */
  lemma RectInside(winW: int, winH: int)
    requires winW >= GbWidth && winH >= GbHeight
    ensures var r := DisplayRect(winW, winH);
      0 <= r.x && r.x + r.w <= winW && 0 <= r.y && r.y + r.h <= winH
    ensures var r := DisplayRect(winW, winH);
      0 <= (winW - r.w) - 2 * r.x <= 1 && 0 <= (winH - r.h) - 2 * r.y <= 1
  {
    ScaleIsLargest(winW, winH);
  }

  /** A window narrower than the screen gets scale 1 and a margin truncated toward zero. */
  lemma NarrowWindow(winW: int, winH: int)
    requires 0 <= winW < GbWidth
    ensures Scale(winW, winH) == 1
    ensures DisplayRect(winW, winH).x == -((GbWidth - winW) / 2)
  {
  }

  // ---------------------------------------------------------------------
  // to_lower and pick_background

  /** std::tolower in the C locale: only A-Z change. */
  function LowerChar(c: char): char
  {
    if 'A' <= c <= 'Z' then (c as int + 32) as char else c
  }

  /** to_lower. */
  function ToLower(s: string): (r: string)
    ensures |r| == |s|
  {
    seq(|s|, i requires 0 <= i < |s| => LowerChar(s[i]))
  }

  /** Lowering twice is lowering once, and nothing upper-case is left. */
  lemma ToLowerIdempotent(s: string)
    ensures ToLower(ToLower(s)) == ToLower(s)
    ensures forall i :: 0 <= i < |s| ==> !('A' <= ToLower(s)[i] <= 'Z')
  {
  }

  /** Whether `needle` occurs in `s`: std::string::find does not return npos. */
  predicate Occurs(needle: string, s: string)
    decreases |s|
  {
    if |s| < |needle| then false
    else s[..|needle|] == needle || Occurs(needle, s[1..])
  }

  /** The |needle| characters of s from position i are the needle. */
  predicate At(needle: string, s: string, i: int)
  {
    0 <= i <= |s| - |needle| && s[i..i + |needle|] == needle
  }

  /** Occurs means: the needle is at some position of s. */
  lemma {:induction false} OccursAt(needle: string, s: string)
    ensures Occurs(needle, s) <==> exists i :: At(needle, s, i)
    decreases |s|
  {
    if |s| >= |needle| && s[..|needle|] != needle {
      OccursAt(needle, s[1..]);
      if Occurs(needle, s[1..]) {
        var i :| At(needle, s[1..], i);
        assert At(needle, s, i + 1);
      }
      if exists i :: At(needle, s, i) {
        var i :| At(needle, s, i);
        assert i > 0;
        assert At(needle, s[1..], i - 1);
      }
    } else if |s| >= |needle| {
      assert At(needle, s, 0);
    }
  }

  /**
   * The second spelling the code looks for, byte by byte as the source file
   * holds it: "pok", E2 88 9A C2 A9, "mon".
   */
  const PokemonAccented: string := "pok" + ['\U{E2}', '\U{88}', '\U{9A}', '\U{C2}', '\U{A9}'] + "mon"

  /** The background images, by theme. */
  const PokemonImage: string := "../assets/pokemon.jpg"
  const MarioImage: string := "../assets/mario.jpg"
  const TetrisImage: string := "../assets/tetris.jpg"
  const MetroidImage: string := "../assets/metroid.jpg"
  const ZeldaImage: string := "../assets/zelda.jpg"
  const DefaultImage: string := "../assets/default.jpg"

  predicate PokemonTitle(low: string)
  {
    Occurs("pokemon", low) || Occurs(PokemonAccented, low) || Occurs("pkmn", low)
  }

  predicate ZeldaTitle(low: string)
  {
    Occurs("zelda", low) || Occurs("link", low)
  }

  /** pick_background: the first theme, in this order, whose name occurs in the lowered title. */
  function PickBackground(title: string): string
  {
    var low := ToLower(title);
    if PokemonTitle(low) then PokemonImage
    else if Occurs("mario", low) then MarioImage
    else if Occurs("tetris", low) then TetrisImage
    else if Occurs("metroid", low) then MetroidImage
    else if ZeldaTitle(low) then ZeldaImage
    else DefaultImage
  }

  /** The choice ignores case: titles equal once lowered get the same background. */
  lemma PickIgnoresCase(t1: string, t2: string)
    requires ToLower(t1) == ToLower(t2)
    ensures PickBackground(t1) == PickBackground(t2)
  {
  }

  /** Lowering the title first changes nothing. */
  lemma PickOfLowered(title: string)
    ensures PickBackground(ToLower(title)) == PickBackground(title)
  {
    ToLowerIdempotent(title);
  }

  /** The default image exactly when no theme name occurs. */
  lemma PickDefault(title: string)
    ensures var low := ToLower(title);
      PickBackground(title) == DefaultImage <==>
      !PokemonTitle(low) && !Occurs("mario", low) && !Occurs("tetris", low)
      && !Occurs("metroid", low) && !ZeldaTitle(low)
  {
  }

  /** A Pokemon title wins over every later theme. */
  lemma PokemonFirst(title: string)
    requires Occurs("pokemon", ToLower(title))
    ensures PickBackground(title) == PokemonImage
  {
  }

  /** The Mario theme, for a title that names no Pokemon. */
  lemma MarioSecond(title: string)
    requires Occurs("mario", ToLower(title)) && !PokemonTitle(ToLower(title))
    ensures PickBackground(title) == MarioImage
  {
  }

  // ---------------------------------------------------------------------
  // The ROM basename in ui_init

  /** std::string::find_last_of: the last position holding one of `chars`, or None for npos. */
  function LastOf(s: string, chars: set<char>): (r: Option<nat>)
    ensures r.Some? ==> r.value < |s| && s[r.value] in chars
    ensures r.Some? ==> forall j :: r.value < j < |s| ==> s[j] !in chars
    ensures r.None? ==> forall j :: 0 <= j < |s| ==> s[j] !in chars
  {
    if |s| == 0 then None
    else if s[|s| - 1] in chars then Some(|s| - 1)
    else LastOf(s[..|s| - 1], chars)
  }

  datatype Option<T> = None | Some(value: T)

  const Separators: set<char> := {'/', '\\'}

  /**
   * The basename ui_init derives: everything after the last '/' or '\\';
   * then, only when there was a separator and the last '.' follows it,
   * the extension is cut off.  Without a separator the comparison with
   * npos fails and the extension stays.
   */
  function Basename(path: string): (base: string)
  {
    var slash := LastOf(path, Separators);
    var dot := LastOf(path, {'.'});
    var name := if slash.None? then path else path[slash.value + 1..];
    if dot.Some? && slash.Some? && dot.value > slash.value then name[..dot.value - slash.value - 1]
    else name
  }

  /** The basename holds no separator. */
  lemma BasenameHasNoSeparator(path: string)
    ensures forall i :: 0 <= i < |Basename(path)| ==> Basename(path)[i] !in Separators
  {
    var slash := LastOf(path, Separators);
    if slash.Some? {
      var name := path[slash.value + 1..];
      assert forall i :: 0 <= i < |name| ==> name[i] == path[slash.value + 1 + i];
    }
  }

  /** Without a separator the path is kept whole, extension and all. */
  lemma BasenameWithoutSeparator(path: string)
    requires LastOf(path, Separators).None?
    ensures Basename(path) == path
  {
  }

  /** With a separator, the basename followed by the extension from the last '.' is the file name. */
  lemma BasenameDropsExtension(path: string)
    requires LastOf(path, Separators).Some? && LastOf(path, {'.'}).Some?
    requires LastOf(path, {'.'}).value > LastOf(path, Separators).value
    ensures Basename(path) + path[LastOf(path, {'.'}).value..] == path[LastOf(path, Separators).value + 1..]
  {
    var slash := LastOf(path, Separators).value;
    var dot := LastOf(path, {'.'}).value;
    assert Basename(path) == path[slash + 1..][..dot - slash - 1];
    SplitName(path, slash, dot);
  }

  /** The text after a separator is the stem before a later '.' followed by the rest. */
  lemma SplitName(path: string, slash: nat, dot: nat)
    requires slash < dot < |path|
    ensures path[slash + 1..][..dot - slash - 1] + path[dot..] == path[slash + 1..]
  {
    assert path[slash + 1..][..dot - slash - 1] == path[slash + 1..dot];
  }

  // ---------------------------------------------------------------------
  // The ROM picker's selection

  /** (280 - 60) / 28 lines of 28 pixels fit under the title. */
  const VisibleLines: int := (280 - 60) / 28

  /** `selected` and `scroll_offset` of rom_picker_sdl2. */
  datatype Selection = Selection(selected: int, scroll: int)

  /** Inside the list, and the scroll offset not negative. */
  predicate InList(p: Selection, n: int)
  {
    0 <= p.selected < n && 0 <= p.scroll
  }

  /** The DOWN key as written: next entry with wraparound; scroll one line when it would leave the bottom. */
  function Down(p: Selection, n: int): (q: Selection)
    requires n > 0
  {
    var sel := (p.selected + 1) % n;
    Selection(sel, if sel - p.scroll >= VisibleLines then p.scroll + 1 else p.scroll)
  }

  /** The UP key as written: previous entry with wraparound; scroll up to it when it is above the top. */
  function Up(p: Selection, n: int): (q: Selection)
    requires n > 0
  {
    var sel := (p.selected - 1 + n) % n;
    Selection(sel, if sel < p.scroll then sel else p.scroll)
  }

  /** The picker's selection, updated by each key in place. */
  class Picker {
    var selected: int
    var scroll: int
    /** roms.size(); the picker returns before its loop when there are none. */
    const count: int

    function State(): Selection
      reads this
    {
      Selection(selected, scroll)
    }

    constructor(count: int)
      requires count > 0
      ensures State() == Selection(0, 0) && this.count == count
    {
      this.count := count;
      selected, scroll := 0, 0;
    }

    /** SDLK_DOWN. */
    method KeyDown()
      requires count > 0
      modifies this
      ensures State() == Down(old(State()), count)
    {
      selected := (selected + 1) % count;
      if selected - scroll >= VisibleLines {
        scroll := scroll + 1;
      }
    }

    /** SDLK_UP. */
    method KeyUp()
      requires count > 0
      modifies this
      ensures State() == Up(old(State()), count)
    {
      selected := (selected - 1 + count) % count;
      if selected < scroll {
        scroll := selected;
      }
    }

    /** SDLK_DOWN with the scroll offset following the selection across the wrap. */
    method FollowKeyDown()
      requires count > 0 && InList(State(), count)
      modifies this
      ensures State() == FollowDown(old(State()), count)
      ensures InList(State(), count) && OnScreen(State())
    {
      FollowKeepsOnScreen(State(), count);
      selected := (selected + 1) % count;
      scroll := Follow(selected, scroll);
    }

    /** SDLK_UP with the scroll offset following the selection across the wrap. */
    method FollowKeyUp()
      requires count > 0 && InList(State(), count)
      modifies this
      ensures State() == FollowUp(old(State()), count)
      ensures InList(State(), count) && OnScreen(State())
    {
      FollowKeepsOnScreen(State(), count);
      selected := (selected - 1 + count) % count;
      scroll := Follow(selected, scroll);
    }
  }

  /** The entry after `sel`, wrapping past the last. */
  lemma NextIndex(sel: int, n: int)
    requires 0 <= sel < n
    ensures (sel + 1) % n == if sel + 1 == n then 0 else sel + 1
  {
  }

  /** The entry before `sel`, wrapping past the first. */
  lemma PrevIndex(sel: int, n: int)
    requires 0 <= sel < n
    ensures (sel - 1 + n) % n == if sel == 0 then n - 1 else sel - 1
  {
    if sel > 0 {
      assert n <= sel - 1 + n < 2 * n;
    }
  }

  /** Both keys keep the selection inside the list. */
  lemma KeysStayInList(p: Selection, n: int)
    requires n > 0 && InList(p, n)
    ensures InList(Down(p, n), n) && InList(Up(p, n), n)
  {
  }

  /** UP undoes DOWN and DOWN undoes UP, as far as the selected entry goes. */
  lemma UpDownInverse(p: Selection, n: int)
    requires n > 0 && InList(p, n)
    ensures Up(Down(p, n), n).selected == p.selected
    ensures Down(Up(p, n), n).selected == p.selected
  {
    NextIndex(p.selected, n);
    PrevIndex(p.selected, n);
    NextIndex(Up(p, n).selected, n);
    PrevIndex(Down(p, n).selected, n);
  }

  /** DOWN from the last entry wraps to the first, and UP from the first to the last. */
  lemma Wraparound(p: Selection, n: int)
    requires n > 0
    ensures p.selected == n - 1 ==> Down(p, n).selected == 0
    ensures p.selected == 0 ==> Up(p, n).selected == n - 1
  {
  }

  /** The highlighted entry is among the VisibleLines rows drawn from `scroll`. */
  predicate OnScreen(p: Selection)
  {
    p.scroll <= p.selected < p.scroll + VisibleLines
  }

  /** Without wraparound the keys keep the highlighted entry on screen. */
  lemma KeysKeepOnScreen(p: Selection, n: int)
    requires n > 0 && InList(p, n) && OnScreen(p)
    ensures p.selected + 1 < n ==> OnScreen(Down(p, n))
    ensures p.selected > 0 ==> OnScreen(Up(p, n))
  {
    NextIndex(p.selected, n);
    PrevIndex(p.selected, n);
  }

  /** With 20 ROMs, UP from the first selects the last while rows 0-6 are drawn; DOWN back leaves 0 above rows 13-19. */
  lemma WrapLeavesScreen()
    ensures Up(Selection(0, 0), 20) == Selection(19, 0) && !OnScreen(Selection(19, 0))
    ensures Down(Selection(19, 13), 20) == Selection(0, 13) && !OnScreen(Selection(0, 13))
  {
  }

  /** The scroll offset that shows `sel`, moving `scroll` as little as possible. */
  function Follow(sel: int, scroll: int): int
  {
    if sel < scroll then sel
    else if sel - scroll >= VisibleLines then sel - VisibleLines + 1
    else scroll
  }

  /** DOWN with the scroll offset following the selection across the wrap. */
  function FollowDown(p: Selection, n: int): Selection
    requires n > 0
  {
    var sel := (p.selected + 1) % n;
    Selection(sel, Follow(sel, p.scroll))
  }

  /** UP with the scroll offset following the selection across the wrap. */
  function FollowUp(p: Selection, n: int): Selection
    requires n > 0
  {
    var sel := (p.selected - 1 + n) % n;
    Selection(sel, Follow(sel, p.scroll))
  }

  /** The following keys keep the highlighted entry on screen and inside the list, wrap or not. */
  lemma FollowKeepsOnScreen(p: Selection, n: int)
    requires n > 0 && InList(p, n)
    ensures OnScreen(FollowDown(p, n)) && InList(FollowDown(p, n), n)
    ensures OnScreen(FollowUp(p, n)) && InList(FollowUp(p, n), n)
  {
    NextIndex(p.selected, n);
    PrevIndex(p.selected, n);
  }

  /** Away from the wrap, the following keys do what the code does. */
  lemma FollowAgrees(p: Selection, n: int)
    requires n > 0 && InList(p, n) && OnScreen(p)
    ensures p.selected + 1 < n ==> FollowDown(p, n) == Down(p, n)
    ensures p.selected > 0 ==> FollowUp(p, n) == Up(p, n)
  {
    NextIndex(p.selected, n);
    PrevIndex(p.selected, n);
  }
}
