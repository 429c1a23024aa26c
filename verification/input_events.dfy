/**
 * Model of src/d2rso/input_events.py: the normalisation of raw keyboard, mouse and
 * gamepad identifiers to one canonical code per device family, the inference of the
 * family from a code's shape, and the construction of an InputEvent.
 *
 * The keyboard alias table exists in two versions. `AsWritten` is the table of the
 * source, and the program (`NormalizeKeyboardCode`, the tracker engine) runs with it.
 * `WithShiftKeys` adds the two aliases `lshiftkey` and `rshiftkey`, without which the
 * codes `LShiftKey` and `RShiftKey` (produced by this very normaliser and offered by the
 * key catalog) do not normalise again; it is the corrected table, and the functions that
 * depend on the table take it as a parameter so that both behaviours can be stated.
 */
module InputEvents {
  import opened Wrappers
  import opened Text

  datatype InputSource = Keyboard | Mouse | Gamepad

  /** A raw code as an adapter hands it over: an integer (virtual key, button index) or a string. */
  datatype RawCode = IntCode(n: int) | TextCode(text: string)

  /** The source argument: already an `InputSource`, or a name to resolve through the alias table. */
  datatype SourceArg = Known(source: InputSource) | Named(name: string)

  datatype EventError =
    | EmptySource                                   // "Input source cannot be empty."
    | UnsupportedSource(name: string)               // "Unsupported input source: ..."
    | NotNormalizable(code: RawCode, source: InputSource)  // "Could not normalize input code ..."

  datatype AliasTable = AsWritten | WithShiftKeys

  // ---------------------------------------------------------------------------
  // Lookup tables

  function PunctuationAlias(text: string): Option<string> {
    match text
    case "," => Some("OemComma")
    case "~" => Some("OemTilde")
    case "[" => Some("OemOpenBrackets")
    case "]" => Some("OemCloseBrackets")
    case ":" => Some("OemSemicolon")
    case ";" => Some("OemSemicolon")
    case "'" => Some("OemQuotes")
    case "+" => Some("Add")
    case "-" => Some("Subtract")
    case _ => None
  }

  /*
   * The keyboard alias table of the source (`_KEYBOARD_ALIASES`), keyed by simplified token.
   * It is written as six smaller tables, one per group of keys, in the source's order; their
   * keys are disjoint, so looking a token up in each in turn is looking it up in the whole.
   */

  /** Escape, Return, Tab and Back. */
  function EditingKeyAlias(token: string): Option<string> {
    match token
    case "esc" => Some("Escape")
    case "escape" => Some("Escape")
    case "enter" => Some("Return")
    case "return" => Some("Return")
    case "tab" => Some("Tab")
    case "back" => Some("Back")
    case "backspace" => Some("Back")
    case _ => None
  }

  /** The two shift keys. */
  function ShiftKeyAlias(token: string): Option<string> {
    match token
    case "lshift" => Some("LShiftKey")
    case "leftshift" => Some("LShiftKey")
    case "shiftl" => Some("LShiftKey")
    case "shiftleft" => Some("LShiftKey")
    case "shiftlkey" => Some("LShiftKey")
    case "rshift" => Some("RShiftKey")
    case "rightshift" => Some("RShiftKey")
    case "shiftr" => Some("RShiftKey")
    case "shiftright" => Some("RShiftKey")
    case "shiftrkey" => Some("RShiftKey")
    case _ => None
  }

  /** The two alt keys (`LMenu`, `RMenu`). */
  function AltKeyAlias(token: string): Option<string> {
    match token
    case "lalt" => Some("LMenu")
    case "leftalt" => Some("LMenu")
    case "altleft" => Some("LMenu")
    case "altl" => Some("LMenu")
    case "lmenu" => Some("LMenu")
    case "ralt" => Some("RMenu")
    case "rightalt" => Some("RMenu")
    case "altright" => Some("RMenu")
    case "altr" => Some("RMenu")
    case "rmenu" => Some("RMenu")
    case _ => None
  }

  /** The two control keys. */
  function ControlKeyAlias(token: string): Option<string> {
    match token
    case "lcontrol" => Some("LControlKey")
    case "leftcontrol" => Some("LControlKey")
    case "controlleft" => Some("LControlKey")
    case "lctrl" => Some("LControlKey")
    case "ctrll" => Some("LControlKey")
    case "lcontrolkey" => Some("LControlKey")
    case "rcontrol" => Some("RControlKey")
    case "rightcontrol" => Some("RControlKey")
    case "controlright" => Some("RControlKey")
    case "rctrl" => Some("RControlKey")
    case "ctrlr" => Some("RControlKey")
    case "rcontrolkey" => Some("RControlKey")
    case _ => None
  }

  /** Punctuation keys spelled out. */
  function OemKeyAlias(token: string): Option<string> {
    match token
    case "comma" => Some("OemComma")
    case "oemcomma" => Some("OemComma")
    case "tilde" => Some("OemTilde")
    case "oemtilde" => Some("OemTilde")
    case "openbracket" => Some("OemOpenBrackets")
    case "leftbracket" => Some("OemOpenBrackets")
    case "oemopenbrackets" => Some("OemOpenBrackets")
    case "closebracket" => Some("OemCloseBrackets")
    case "rightbracket" => Some("OemCloseBrackets")
    case "oemclosebrackets" => Some("OemCloseBrackets")
    case "semicolon" => Some("OemSemicolon")
    case "oemsemicolon" => Some("OemSemicolon")
    case "quote" => Some("OemQuotes")
    case "apostrophe" => Some("OemQuotes")
    case "oemquotes" => Some("OemQuotes")
    case _ => None
  }

  /** Keypad add and subtract. */
  function ArithmeticKeyAlias(token: string): Option<string> {
    match token
    case "add" => Some("Add")
    case "plus" => Some("Add")
    case "subtract" => Some("Subtract")
    case "minus" => Some("Subtract")
    case _ => None
  }

  function KeyboardAlias(token: string): Option<string> {
    if EditingKeyAlias(token).Some? then EditingKeyAlias(token)
    else if ShiftKeyAlias(token).Some? then ShiftKeyAlias(token)
    else if AltKeyAlias(token).Some? then AltKeyAlias(token)
    else if ControlKeyAlias(token).Some? then ControlKeyAlias(token)
    else if OemKeyAlias(token).Some? then OemKeyAlias(token)
    else ArithmeticKeyAlias(token)
  }

  function KeyboardAliasIn(table: AliasTable, token: string): Option<string> {
    match table
    case AsWritten => KeyboardAlias(token)
    case WithShiftKeys =>
      if token == "lshiftkey" then Some("LShiftKey")
      else if token == "rshiftkey" then Some("RShiftKey")
      else KeyboardAlias(token)
  }

  function MouseIndexCode(index: int): Option<string> {
    match index
    case 0 => Some("MOUSE1")
    case 1 => Some("MOUSE2")
    case 2 => Some("MOUSE3")
    case 3 => Some("MOUSEX1")
    case 4 => Some("MOUSEX2")
    case _ => None
  }

  /*
   * The mouse alias table of the source (`_MOUSE_ALIASES`), written as one small table per
   * button; the keys are disjoint.
   */

  predicate LeftButtonAlias(token: string) {
    match token
    case "mouse1" => true
    case "left" => true
    case "lbutton" => true
    case "buttonleft" => true
    case "button1" => true
    case _ => false
  }

  predicate RightButtonAlias(token: string) {
    match token
    case "mouse2" => true
    case "right" => true
    case "rbutton" => true
    case "buttonright" => true
    case "button2" => true
    case _ => false
  }

  predicate MiddleButtonAlias(token: string) {
    match token
    case "mouse3" => true
    case "middle" => true
    case "mbutton" => true
    case "buttonmiddle" => true
    case "button3" => true
    case _ => false
  }

  predicate FirstSideButtonAlias(token: string) {
    match token
    case "mousex1" => true
    case "x1" => true
    case "xbutton1" => true
    case "buttonx1" => true
    case "button4" => true
    case _ => false
  }

  predicate SecondSideButtonAlias(token: string) {
    match token
    case "mousex2" => true
    case "x2" => true
    case "xbutton2" => true
    case "buttonx2" => true
    case "button5" => true
    case _ => false
  }

  function MouseAlias(token: string): Option<string> {
    if LeftButtonAlias(token) then Some("MOUSE1")
    else if RightButtonAlias(token) then Some("MOUSE2")
    else if MiddleButtonAlias(token) then Some("MOUSE3")
    else if FirstSideButtonAlias(token) then Some("MOUSEX1")
    else if SecondSideButtonAlias(token) then Some("MOUSEX2")
    else None
  }

  function SourceAlias(token: string): Option<InputSource> {
    match token
    case "keyboard" => Some(Keyboard)
    case "key" => Some(Keyboard)
    case "keys" => Some(Keyboard)
    case "kbd" => Some(Keyboard)
    case "mouse" => Some(Mouse)
    case "gamepad" => Some(Gamepad)
    case "controller" => Some(Gamepad)
    case "joystick" => Some(Gamepad)
    case "pad" => Some(Gamepad)
    case _ => None
  }

  // ---------------------------------------------------------------------------
  // Tokens and the shapes the regular expressions of the source accept

  predicate IsTokenChar(c: char) { IsLowerLetter(c) || IsDigit(c) }

  predicate IsToken(t: string) { forall i | 0 <= i < |t| :: IsTokenChar(t[i]) }

  function KeepTokenChars(s: string): (t: string)
    ensures IsToken(t)
  {
    if s == [] then [] else (if IsTokenChar(s[0]) then [s[0]] else []) + KeepTokenChars(s[1..])
  }

  /** `_simplify_token`: trim, lowercase, and drop every character outside a-z and 0-9. */
  function SimplifyToken(s: string): (t: string)
    ensures IsToken(t)
  {
    KeepTokenChars(Lower(Strip(s)))
  }

  /** The digits after `prefix` when `token` is `prefix` followed by one or more digits. */
  function DigitSuffix(token: string, prefix: string): Option<string> {
    if StartsWith(token, prefix) && IsDigits(token[|prefix|..]) then Some(token[|prefix|..]) else None
  }

  /** `^buttons(\d+)$` */
  function ButtonsDigits(token: string): Option<string> { DigitSuffix(token, "buttons") }

  /** `^(?:gamepad)?button(\d+)$` */
  function GamepadButtonDigits(token: string): Option<string> {
    if DigitSuffix(token, "gamepadbutton").Some? then DigitSuffix(token, "gamepadbutton")
    else DigitSuffix(token, "button")
  }

  /** `^joystickoffsetbuttons(\d+)$` */
  function DirectInputDigits(token: string): Option<string> { DigitSuffix(token, "joystickoffsetbuttons") }

  /** `^f(\d{1,2})$` */
  function FunctionKeyDigits(token: string): Option<string> {
    if DigitSuffix(token, "f").Some? && |token| <= 3 then DigitSuffix(token, "f") else None
  }

  /** `^(?:numpad|num)(\d)$` */
  function NumpadDigit(token: string): Option<string> {
    if DigitSuffix(token, "numpad").Some? && |token| == 7 then DigitSuffix(token, "numpad")
    else if DigitSuffix(token, "num").Some? && |token| == 4 then DigitSuffix(token, "num")
    else None
  }

  /** `^d(\d)$` */
  function DKeyDigit(token: string): Option<string> {
    if DigitSuffix(token, "d").Some? && |token| == 2 then DigitSuffix(token, "d") else None
  }

  predicate IsQuote(c: char) { c == '\'' || c == '"' }

  /** `^keycode\(char=['"](.)['"]\)$`, matched against the lowered text. */
  function KeycodeChar(lowered: string): Option<char> {
    if |lowered| == 17 && lowered[..13] == "keycode(char=" && IsQuote(lowered[13])
       && lowered[14] != '\n' && IsQuote(lowered[15]) && lowered[16] == ')'
    then Some(lowered[14])
    else None
  }

  /** `^keycode\(vk=(\d+)\)$`, matched against the lowered text. */
  function KeycodeVkDigits(lowered: string): Option<string> {
    if |lowered| >= 12 && lowered[|lowered| - 1] == ')'
    then DigitSuffix(lowered[..|lowered| - 1], "keycode(vk=")
    else None
  }

  function RemovePrefix(s: string, prefix: string): string {
    if StartsWith(s, prefix) then s[|prefix|..] else s
  }

  // ---------------------------------------------------------------------------
  // Normalisation

  /** `normalize_input_source` */
  function NormalizeInputSource(arg: SourceArg): Result<InputSource, EventError> {
    match arg
    case Known(s) => Ok(s)
    case Named(name) =>
      var key := SimplifyToken(name);
      if key == [] then Err(EmptySource)
      else match SourceAlias(key)
        case Some(s) => Ok(s)
        case None => Err(UnsupportedSource(name))
  }

  /** `_normalize_buttons_index`: the legacy range 48..57 stands for buttons 0..9. */
  function NormalizeButtonsIndex(v: int): Option<string> {
    if 48 <= v <= 57 then Some("Buttons" + NatToString(v - 48))
    else if v >= 0 then Some("Buttons" + NatToString(v))
    else None
  }

  /** `infer_input_source_from_code` */
  function InferInputSource(raw: RawCode): Option<InputSource> {
    match raw
    case IntCode(n) =>
      if MouseIndexCode(n).Some? then Some(Mouse)
      else if NormalizeButtonsIndex(n).Some? then Some(Gamepad)
      else None
    case TextCode(s) =>
      var text := Strip(s);
      if text == [] then None
      else
        Some(InferFromToken(SimplifyToken(RemovePrefix(RemovePrefix(text, "Key."), "key."))))
  }

  /** The family a non-blank string code is given, from its simplified token. */
  function InferFromToken(token: string): InputSource {
    if MouseAlias(token).Some? || StartsWith(token, "mouse") then Mouse
    else if ButtonsDigits(token).Some? || GamepadButtonDigits(token).Some? || DirectInputDigits(token).Some? then Gamepad
    else if StartsWith(token, "joystickoffsetbuttons") then Gamepad
    else Keyboard
  }

  /** The integer branch of `normalize_keyboard_code`: virtual-key codes of letters and digits. */
  function NormalizeKeyboardInt(v: int): Option<string> {
    if 65 <= v <= 90 then Some([v as char])
    else if 48 <= v <= 57 then Some("D" + NatToString(v - 48))
    else None
  }

  /** The part of `normalize_keyboard_code` that works on the simplified token. */
  function KeyboardFromToken(token: string, table: AliasTable): Option<string> {
    if token == [] then None
    else if KeyboardAliasIn(table, token).Some? then KeyboardAliasIn(table, token)
    else if FunctionKeyDigits(token).Some? then Some("F" + NatToString(DigitsValue(FunctionKeyDigits(token).value)))
    else if NumpadDigit(token).Some? then Some("NumPad" + NatToString(DigitsValue(NumpadDigit(token).value)))
    else if DKeyDigit(token).Some? then Some("D" + NatToString(DigitsValue(DKeyDigit(token).value)))
    else if |token| == 1 && IsLowerLetter(token[0]) then Some([UpperChar(token[0])])
    else if |token| == 1 && IsDigit(token[0]) then Some("D" + token)
    else if DigitSuffix(token, "vk").Some? then NormalizeKeyboardInt(DigitsValue(DigitSuffix(token, "vk").value))
    else None
  }

  /** Drops one leading `key.`, `keys.` or `keyboard.` (any case). */
  function StripKeyPrefix(text: string): string {
    var lowered := Lower(text);
    if StartsWith(lowered, "key.") then text[4..]
    else if StartsWith(lowered, "keys.") then text[5..]
    else if StartsWith(lowered, "keyboard.") then text[9..]
    else text
  }

  /** What `normalize_keyboard_code` does once `keycode(...)` forms are unwrapped. */
  function KeyboardFromText(text: string, table: AliasTable): Option<string> {
    var unquoted := if |text| == 3 && text[0] == text[2] && IsQuote(text[0]) then [text[1]] else text;
    if PunctuationAlias(unquoted).Some? then PunctuationAlias(unquoted)
    else KeyboardFromToken(SimplifyToken(unquoted), table)
  }

  /** `normalize_keyboard_code` on a string. */
  function NormalizeKeyboardText(s: string, table: AliasTable): Option<string> {
    var text := Strip(s);
    if text == [] then None
    else if PunctuationAlias(text).Some? then PunctuationAlias(text)
    else
      var unprefixed := StripKeyPrefix(text);
      var lowered := Lower(unprefixed);
      match KeycodeChar(lowered)
      case Some(c) => KeyboardFromText([c], table)
      case None =>
        match KeycodeVkDigits(lowered)
        case Some(digits) => NormalizeKeyboardInt(DigitsValue(digits))
        case None => KeyboardFromText(unprefixed, table)
  }

  function NormalizeKeyboardWith(raw: RawCode, table: AliasTable): Option<string> {
    match raw
    case IntCode(v) => NormalizeKeyboardInt(v)
    case TextCode(s) => NormalizeKeyboardText(s, table)
  }

  /** `normalize_keyboard_code` exactly as the source has it. */
  function NormalizeKeyboardCode(raw: RawCode): Option<string> {
    NormalizeKeyboardWith(raw, AsWritten)
  }

  /** `normalize_keyboard_code` with the shift-key aliases added: the corrected normaliser. */
  function NormalizeKeyboardCodeCorrected(raw: RawCode): Option<string> {
    NormalizeKeyboardWith(raw, WithShiftKeys)
  }

  /** The two codes the table as written produces but does not accept back. */
  predicate IsShiftKeyCode(c: string) {
    c == "LShiftKey" || c == "RShiftKey"
  }

  /** `normalize_mouse_code` */
  function NormalizeMouseCode(raw: RawCode): Option<string> {
    match raw
    case IntCode(v) => MouseIndexCode(v)
    case TextCode(s) =>
      var token := SimplifyToken(s);
      if token == [] then None
      else if MouseAlias(token).Some? then MouseAlias(token)
      else if IsDigits(token) then MouseIndexCode(DigitsValue(token))
      else if DigitSuffix(token, "mousex").Some? && DigitsValue(DigitSuffix(token, "mousex").value) in {1, 2}
      then Some("MOUSEX" + NatToString(DigitsValue(DigitSuffix(token, "mousex").value)))
      else if DigitSuffix(token, "mouse").Some? then MouseIndexCode(DigitsValue(DigitSuffix(token, "mouse").value) - 1)
      else None
  }

  /**
   * `normalize_gamepad_code`. The source's later `button<digits>` test is left out here:
   * every token it accepts is already accepted by the `(gamepad)?button` pattern before it.
   */
  function NormalizeGamepadCode(raw: RawCode): Option<string> {
    match raw
    case IntCode(v) => NormalizeButtonsIndex(v)
    case TextCode(s) =>
      var simplified := SimplifyToken(s);
      if simplified == [] then None
      else
        var token := RemovePrefix(simplified, "joystickoffset");
        if ButtonsDigits(token).Some? then NormalizeButtonsIndex(DigitsValue(ButtonsDigits(token).value))
        else if GamepadButtonDigits(token).Some? then NormalizeButtonsIndex(DigitsValue(GamepadButtonDigits(token).value))
        else if DirectInputDigits(token).Some? then NormalizeButtonsIndex(DigitsValue(DirectInputDigits(token).value))
        else if IsDigits(token) then NormalizeButtonsIndex(DigitsValue(token))
        else None
  }

  /** The family dispatch at the end of `normalize_input_code`. */
  function NormalizeFor(raw: RawCode, source: InputSource, table: AliasTable): Option<string> {
    match source
    case Keyboard => NormalizeKeyboardWith(raw, table)
    case Mouse => NormalizeMouseCode(raw)
    case Gamepad => NormalizeGamepadCode(raw)
  }

  /**
   * `normalize_input_code`: resolves the family from the hint (raising for a bad name)
   * or, without a hint, infers it from the code's shape.
   */
  function NormalizeInputCode(raw: RawCode, hint: Option<SourceArg>, table: AliasTable): Result<Option<string>, EventError> {
    match hint
    case Some(arg) =>
      (match NormalizeInputSource(arg)
       case Ok(source) => Ok(NormalizeFor(raw, source, table))
       case Err(e) => Err(e))
    case None =>
      (match InferInputSource(raw)
       case Some(source) => Ok(NormalizeFor(raw, source, table))
       case None => Ok(None))
  }

  // ---------------------------------------------------------------------------
  // InputEvent

  /** A normalised event: the canonical code for its family, the family, a timestamp and press/release. */
  datatype InputEvent = InputEvent(code: string, source: InputSource, timestamp: real, pressed: bool)

  /**
   * `InputEvent(...)` with `__post_init__`: the source is resolved, the code is normalised
   * for it, and construction raises ValueError when either fails.
   * The program builds events with the table as written (`AsWritten`).
   */
  function MakeInputEvent(code: RawCode, source: SourceArg, timestamp: real, pressed: bool, table: AliasTable): (r: Result<InputEvent, EventError>)
    ensures NormalizeInputSource(source).Err? ==> r == Err(NormalizeInputSource(source).error)
    ensures NormalizeInputSource(source).Ok? ==>
      var family := NormalizeInputSource(source).value;
      match NormalizeFor(code, family, table)
      case None => r == Err(NotNormalizable(code, family))
      case Some(c) => r == Ok(InputEvent(c, family, timestamp, pressed))
  {
    match NormalizeInputSource(source)
    case Err(e) => Err(e)
    case Ok(family) =>
      match NormalizeInputCode(code, Some(Known(family)), table)
      case Err(e) => Err(e)
      case Ok(None) => Err(NotNormalizable(code, family))
      case Ok(Some(c)) => Ok(InputEvent(c, family, timestamp, pressed))
  }
}
