/** Windows keyboard constants (window messages and virtual-key codes) and the four modifier keys the
    hotkey engines track. Left, right and generic codes of one modifier collapse to one flag. */
module Keys {
  import opened Wrappers

  const WM_KEYDOWN: int := 0x0100
  const WM_KEYUP: int := 0x0101
  const WM_SYSKEYDOWN: int := 0x0104
  const WM_SYSKEYUP: int := 0x0105

  const VK_LWIN: int := 0x5B
  const VK_RWIN: int := 0x5C
  const VK_LCTRL: int := 0xA2
  const VK_RCTRL: int := 0xA3
  const VK_LSHIFT: int := 0xA0
  const VK_RSHIFT: int := 0xA1
  const VK_LALT: int := 0xA4
  const VK_RALT: int := 0xA5
  const VK_CTRL: int := 0x11
  const VK_SHIFT: int := 0x10
  const VK_ALT: int := 0x12

  const VK_SPACE: int := 0x20
  const VK_0: int := 0x30
  const VK_9: int := 0x39
  const VK_A: int := 0x41
  const VK_D: int := 0x44
  const VK_Z: int := 0x5A
  const VK_F1: int := 0x70
  const VK_F12: int := 0x7B
  const VK_F1_OFFSET: int := 0x6F

  /** What a low-level keyboard message says about its key. */
  datatype Transition = KeyDown | KeyUp | NoTransition

  /** `isKeyDown` is WM_KEYDOWN or WM_SYSKEYDOWN, `isKeyUp` is WM_KEYUP or WM_SYSKEYUP; any other
      message is neither. */
  function TransitionOf(msg: int): (t: Transition)
    ensures t == KeyDown <==> msg == WM_KEYDOWN || msg == WM_SYSKEYDOWN
    ensures t == KeyUp <==> msg == WM_KEYUP || msg == WM_SYSKEYUP
  {
    if msg == WM_KEYDOWN || msg == WM_SYSKEYDOWN then KeyDown
    else if msg == WM_KEYUP || msg == WM_SYSKEYUP then KeyUp
    else NoTransition
  }

  datatype Modifier = Ctrl | Shift | Alt | Win

  /** The codes of each modifier: left and right, and the generic code (Win has none). */
  predicate IsWinCode(vk: int) { vk == VK_LWIN || vk == VK_RWIN }
  predicate IsCtrlCode(vk: int) { vk == VK_LCTRL || vk == VK_RCTRL || vk == VK_CTRL }
  predicate IsShiftCode(vk: int) { vk == VK_LSHIFT || vk == VK_RSHIFT || vk == VK_SHIFT }
  predicate IsAltCode(vk: int) { vk == VK_LALT || vk == VK_RALT || vk == VK_ALT }

  /** The modifier flag a virtual-key code drives, if any. */
  function ModifierOf(vk: int): (k: Option<Modifier>)
    ensures k == Some(Win) <==> IsWinCode(vk)
    ensures k == Some(Ctrl) <==> IsCtrlCode(vk)
    ensures k == Some(Shift) <==> IsShiftCode(vk)
    ensures k == Some(Alt) <==> IsAltCode(vk)
  {
    if IsWinCode(vk) then Some(Win)
    else if IsCtrlCode(vk) then Some(Ctrl)
    else if IsShiftCode(vk) then Some(Shift)
    else if IsAltCode(vk) then Some(Alt)
    else None
  }

  /** One boolean per modifier, in the order Ctrl, Shift, Alt, Win. Used for the live (held) state,
      the required modifiers of a hotkey and the modifiers captured while recording. */
  datatype Mods = Mods(ctrl: bool, shift: bool, alt: bool, win: bool) {

    function Get(m: Modifier): bool
    {
      match m
      case Ctrl => ctrl
      case Shift => shift
      case Alt => alt
      case Win => win
    }

    function Set(m: Modifier, v: bool): (r: Mods)
      ensures r.Get(m) == v
      ensures forall other :: other != m ==> r.Get(other) == Get(other)
    {
      match m
      case Ctrl => this.(ctrl := v)
      case Shift => this.(shift := v)
      case Alt => this.(alt := v)
      case Win => this.(win := v)
    }

    predicate Any() { ctrl || shift || alt || win }

    predicate NoneHeld() { !ctrl && !shift && !alt && !win }

    function Count(): (n: nat)
      ensures n <= 4
      ensures n == 0 <==> !Any()
    {
      (if ctrl then 1 else 0) + (if shift then 1 else 0) + (if alt then 1 else 0) + (if win then 1 else 0)
    }
  }

  const NoMods := Mods(false, false, false, false)

  /** `ModifiersMatch`: every modifier in `required` is held. */
  predicate ModifiersMatch(required: Mods, held: Mods)
  {
    (!required.ctrl || held.ctrl) && (!required.shift || held.shift)
    && (!required.alt || held.alt) && (!required.win || held.win)
  }

  /** `ModifierMissing`: some modifier in `required` is not held. */
  predicate ModifierMissing(required: Mods, held: Mods)
  {
    (required.ctrl && !held.ctrl) || (required.shift && !held.shift)
    || (required.alt && !held.alt) || (required.win && !held.win)
  }

  /** The two predicates the engines use are exact complements, stated per modifier. */
  lemma MatchIsNotMissing(required: Mods, held: Mods)
    ensures ModifiersMatch(required, held) <==> forall m :: required.Get(m) ==> held.Get(m)
    ensures ModifierMissing(required, held) <==> !ModifiersMatch(required, held)
  {
    if !ModifiersMatch(required, held) {
      var m := if required.ctrl && !held.ctrl then Ctrl
               else if required.shift && !held.shift then Shift
               else if required.alt && !held.alt then Alt else Win;
      assert required.Get(m) && !held.Get(m);
    }
  }
}
