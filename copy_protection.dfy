/**
 * The page-wide copy protection: the context menu is always suppressed, and
 * the keyboard shortcuts that open the browser's developer tools or page
 * source are swallowed.
 */
module CopyProtection {

  /** The fields of a key press the handler reads. */
  datatype KeyEvent = KeyEvent(key: string, ctrlKey: bool, shiftKey: bool)

  /** A right click; where it happened does not matter to the handler. */
  datatype MouseEvent = MouseEvent(clientX: real, clientY: real)

  /**
   * Upper-casing of one character, ASCII letters only: no lower-case letter
   * is left, a letter stays a letter, and anything else is unchanged.
   */
  function UpperChar(c: char): (u: char)
    ensures !('a' <= u <= 'z')
    ensures 'A' <= u <= 'Z' <==> 'A' <= c <= 'Z' || 'a' <= c <= 'z'
    ensures 'a' <= c <= 'z' ==> u as int == c as int - 32
    ensures !('a' <= c <= 'z') ==> u == c
  {
    if 'a' <= c <= 'z' then (c as int - 32) as char else c
  }

  /** `toUpperCase` on a key name: same length, no lower-case letter left. */
  function ToUpper(s: string): (u: string)
    ensures |u| == |s|
    ensures forall i :: 0 <= i < |u| ==> !('a' <= u[i] <= 'z')
    ensures forall i :: 0 <= i < |s| ==> u[i] == UpperChar(s[i])
  {
    seq(|s|, i requires 0 <= i < |s| => UpperChar(s[i]))
  }

  /** Upper-casing an upper-cased key name changes nothing. */
  lemma ToUpperIdempotent(s: string)
    ensures ToUpper(ToUpper(s)) == ToUpper(s)
  {
    var u := ToUpper(s);
    assert forall i :: 0 <= i < |u| ==> UpperChar(u[i]) == u[i];
  }

  /**
   * `handleKeyDown`: whether the default action of a key press is prevented.
   * Listed key by key: F12 with any modifiers; with Ctrl, `u` in either
   * case; with Ctrl and Shift, also `i`, `j` and `c` in either case; nothing
   * else.
   */
  function KeyDownPrevented(e: KeyEvent): (prevent: bool)
    ensures prevent <==>
      e.key == "F12" ||
      (e.ctrlKey && e.key in ["U", "u"]) ||
      (e.ctrlKey && e.shiftKey && e.key in ["I", "i", "J", "j", "C", "c"])
  {
    UpperIsLetter(e.key, 'U');
    UpperIsLetter(e.key, 'I');
    UpperIsLetter(e.key, 'J');
    UpperIsLetter(e.key, 'C');
    e.key == "F12" ||
    (e.ctrlKey && e.shiftKey && ToUpper(e.key) in ["I", "J", "C"]) ||
    (e.ctrlKey && ToUpper(e.key) == "U")
  }

  /** `handleContextMenu`: whether the context menu is suppressed. */
  function ContextMenuPrevented(e: MouseEvent): (prevent: bool)
    ensures prevent
  {
    true
  }

  /** The one-letter key names whose upper case is `letter`. */
  lemma UpperIsLetter(key: string, letter: char)
    requires 'A' <= letter <= 'Z'
    ensures ToUpper(key) == [letter] <==>
      key == [letter] || key == [(letter as int + 32) as char]
  {
    if ToUpper(key) == [letter] {
      assert |key| == 1;
      assert UpperChar(key[0]) == letter;
      assert key == [key[0]];
    }
  }


  /** Without Ctrl only F12 is blocked. */
  lemma WithoutCtrlOnlyF12(e: KeyEvent)
    requires !e.ctrlKey
    ensures KeyDownPrevented(e) <==> e.key == "F12"
  {
  }

  /** With Ctrl and Shift held, a letter other than I, J, C or U passes, in either case. */
  lemma OtherLettersPass(letter: char, lower: bool)
    requires 'A' <= letter <= 'Z' && letter !in "IJCU"
    ensures !KeyDownPrevented(KeyEvent([if lower then (letter as int + 32) as char else letter], true, true))
  {
    var key := [if lower then (letter as int + 32) as char else letter];
    assert ToUpper(key) == [letter];
  }

  /** Ctrl+U is blocked whether or not Shift is held. */
  lemma CtrlUBlocked(key: string, shift: bool)
    requires key in ["U", "u"]
    ensures KeyDownPrevented(KeyEvent(key, true, shift))
  {
    assert ToUpper(key) == "U";
  }
}
