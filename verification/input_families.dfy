/**
 * Mouse and gamepad codes, the family inferred from a code's shape, and the events built
 * on them (src/d2rso/input_events.py): every code a normaliser returns is a fixed point of
 * normalisation, the family inferred from it is the family it came from, and the spellings
 * of one button agree.
 */
module InputFamilies {
  import opened Wrappers
  import opened Text
  import opened InputEvents
  import opened InputEventsLemmas

  // ---------------------------------------------------------------------------
  // Shapes of the mouse alias keys

  /**
   * The initials of every mouse alias key: `mouse…`, `x…`, `button…`, `left`/`lbutton`,
   * `right`/`rbutton`, `middle`/`mbutton`. No key is shorter than two characters, and the
   * `button…` keys never have an `s` where `buttons<n>` has one.
   */
  predicate MouseAliasInitials(t: string) {
    && |t| >= 2
    && (|| t[0] == 'm' || t[0] == 'x'
        || (t[0] == 'b' && |t| >= 7 && t[1] == 'u' && t[6] != 's')
        || (t[0] == 'l' && (t[1] == 'e' || t[1] == 'b'))
        || (t[0] == 'r' && (t[1] == 'i' || t[1] == 'b')))
  }

  lemma LeftRightAliasInitials(t: string)
    requires LeftButtonAlias(t) || RightButtonAlias(t)
    ensures MouseAliasInitials(t)
  {
  }

  lemma MiddleAliasInitials(t: string)
    requires MiddleButtonAlias(t)
    ensures MouseAliasInitials(t)
  {
  }

  lemma SideAliasInitials(t: string)
    requires FirstSideButtonAlias(t) || SecondSideButtonAlias(t)
    ensures MouseAliasInitials(t)
  {
  }

  lemma MouseAliasShape(t: string)
    requires MouseAlias(t).Some?
    ensures MouseAliasInitials(t)
  {
    if LeftButtonAlias(t) || RightButtonAlias(t) {
      LeftRightAliasInitials(t);
    } else if MiddleButtonAlias(t) {
      MiddleAliasInitials(t);
    } else {
      SideAliasInitials(t);
    }
  }

  // ---------------------------------------------------------------------------
  // Inference on keyboard codes

  /**
   * Initials no mouse alias and no gamepad pattern has: a single character, or two first
   * characters that rule out `mouse…`, `x…`, `gamepad…`, `joystick…`, `bu…`, `le…`, `lb…`,
   * `ri…` and `rb…`.
   */
  predicate KeyboardInitials(t: string) {
    || |t| == 1
    || (&& |t| >= 2 && t[0] != 'm' && t[0] != 'x' && t[0] != 'g' && t[0] != 'j'
        && !(t[0] == 'b' && t[1] == 'u')
        && !(t[0] == 'l' && (t[1] == 'e' || t[1] == 'b'))
        && !(t[0] == 'r' && (t[1] == 'i' || t[1] == 'b')))
  }

  /** Letters and digits carry no `Key.`/`key.` prefix, which ends in a dot. */
  lemma NoDottedPrefix(c: string)
    requires IsAlnumAscii(c)
    ensures RemovePrefix(RemovePrefix(c, "Key."), "key.") == c
  {
    if |c| >= 4 {
      NotPrefixAt(c, "Key.", 3);
      NotPrefixAt(c, "key.", 3);
    }
  }

  /** A token with keyboard initials is no mouse alias and starts with no mouse or gamepad prefix. */
  lemma KeyboardTokenNoMouse(t: string)
    requires KeyboardInitials(t)
    ensures MouseAlias(t) == None && !StartsWith(t, "mouse")
  {
    if MouseAlias(t).Some? {
      MouseAliasShape(t);
    }
    if |t| >= 5 {
      NotPrefixAt(t, "mouse", 0);
    }
  }

  lemma KeyboardTokenNoGamepad(t: string)
    requires KeyboardInitials(t)
    ensures ButtonsDigits(t) == None && GamepadButtonDigits(t) == None && DirectInputDigits(t) == None
    ensures !StartsWith(t, "joystickoffsetbuttons")
  {
    if |t| >= 2 && t[0] == 'b' {
      NotPrefixAt(t, "buttons", 1);
      NotPrefixAt(t, "button", 1);
    } else if |t| >= 2 {
      NotPrefixAt(t, "buttons", 0);
      NotPrefixAt(t, "button", 0);
    }
    if |t| >= 2 {
      NotPrefixAt(t, "gamepadbutton", 0);
      NotPrefixAt(t, "joystickoffsetbuttons", 0);
    }
  }

  /** A code of letters and digits is given the family of its lowercase form. */
  lemma AlnumInferred(c: string)
    requires c != [] && IsAlnumAscii(c)
    ensures InferInputSource(TextCode(c)) == Some(InferFromToken(Lower(c)))
  {
    StripAlnum(c);
    NoDottedPrefix(c);
    SimplifyAlnum(c);
  }

  /** A code of letters and digits whose lowercase form has keyboard initials is inferred to be a keyboard code. */
  lemma KeyboardShapeInferred(c: string)
    requires c != [] && IsAlnumAscii(c) && KeyboardInitials(Lower(c))
    ensures InferInputSource(TextCode(c)) == Some(Keyboard)
  {
    AlnumInferred(c);
    KeyboardTokenNoMouse(Lower(c));
    KeyboardTokenNoGamepad(Lower(c));
  }

  predicate IsKeyboardShaped(c: string) {
    c != [] && IsAlnumAscii(c) && KeyboardInitials(Lower(c))
  }

  lemma EditingCodeInitials(c: string)
    requires c == "Escape" || c == "Return" || c == "Tab" || c == "Back" || c == "Add" || c == "Subtract"
    ensures IsKeyboardShaped(c)
  {
  }

  lemma ModifierCodeInitials(c: string)
    requires c == "LShiftKey" || c == "RShiftKey" || c == "LMenu" || c == "RMenu" || c == "LControlKey" || c == "RControlKey"
    ensures IsKeyboardShaped(c)
  {
  }

  lemma OemCodeInitials(c: string)
    requires c == "OemComma" || c == "OemTilde" || c == "OemOpenBrackets" || c == "OemCloseBrackets" || c == "OemSemicolon" || c == "OemQuotes"
    ensures IsKeyboardShaped(c)
  {
  }

  /** The named keyboard codes are letters only, with keyboard initials. */
  lemma NamedCodeInitials(c: string)
    requires c in NamedKeyboardCodes
    ensures IsKeyboardShaped(c)
  {
    if c == "Escape" || c == "Return" || c == "Tab" || c == "Back" || c == "Add" || c == "Subtract" {
      EditingCodeInitials(c);
    } else if c == "LShiftKey" || c == "RShiftKey" || c == "LMenu" || c == "RMenu" || c == "LControlKey" || c == "RControlKey" {
      ModifierCodeInitials(c);
    } else {
      OemCodeInitials(c);
    }
  }

  /** Every canonical keyboard code is inferred to be a keyboard code. */
  lemma KeyboardCodeInferred(c: string)
    requires IsCanonicalKeyboardCode(c)
    ensures InferInputSource(TextCode(c)) == Some(Keyboard)
  {
    if c in NamedKeyboardCodes {
      NamedCodeInitials(c);
    } else {
      assert IsAlnumAscii(c);
      assert Lower(c)[0] == LowerChar(c[0]);
    }
    KeyboardShapeInferred(c);
  }

  // ---------------------------------------------------------------------------
  // Mouse codes

  /** The five codes `normalize_mouse_code` can return. */
  predicate IsMouseCode(c: string) {
    c == "MOUSE1" || c == "MOUSE2" || c == "MOUSE3" || c == "MOUSEX1" || c == "MOUSEX2"
  }

  lemma MouseIndexCanonical(i: int)
    ensures MouseIndexCode(i).Some? <==> 0 <= i <= 4
    ensures MouseIndexCode(i).Some? ==> IsMouseCode(MouseIndexCode(i).value)
  {
  }

  /** Whatever `normalize_mouse_code` returns is one of the five mouse codes. */
  lemma MouseOutputsCanonical(raw: RawCode)
    ensures NormalizeMouseCode(raw).Some? ==> IsMouseCode(NormalizeMouseCode(raw).value)
  {
    match raw
    case IntCode(v) =>
    case TextCode(s) =>
      var token := SimplifyToken(s);
      if token != [] && MouseAlias(token) == None && !IsDigits(token) {
        var x := DigitSuffix(token, "mousex");
        if x.Some? && DigitsValue(x.value) in {1, 2} {
          assert NatToString(1) == "1" && NatToString(2) == "2";
        }
      }
  }

  /**
   * A code whose lowercase form is a mouse alias of it is a fixed point of
   * `normalize_mouse_code` and is inferred to be a mouse code.
   */
  lemma MouseAliasedCode(c: string, token: string)
    requires c != [] && IsAlnumAscii(c) && Lower(c) == token && MouseAlias(token) == Some(c)
    ensures NormalizeMouseCode(TextCode(c)) == Some(c)
    ensures InferInputSource(TextCode(c)) == Some(Mouse)
  {
    SimplifyAlnum(c);
    AlnumInferred(c);
  }

  lemma Mouse1Code()
    ensures NormalizeMouseCode(TextCode("MOUSE1")) == Some("MOUSE1")
    ensures InferInputSource(TextCode("MOUSE1")) == Some(Mouse)
  {
    assert Lower("MOUSE1") == "mouse1";
    MouseAliasedCode("MOUSE1", "mouse1");
  }

  lemma Mouse2Code()
    ensures NormalizeMouseCode(TextCode("MOUSE2")) == Some("MOUSE2")
    ensures InferInputSource(TextCode("MOUSE2")) == Some(Mouse)
  {
    assert Lower("MOUSE2") == "mouse2";
    MouseAliasedCode("MOUSE2", "mouse2");
  }

  lemma Mouse3Code()
    ensures NormalizeMouseCode(TextCode("MOUSE3")) == Some("MOUSE3")
    ensures InferInputSource(TextCode("MOUSE3")) == Some(Mouse)
  {
    assert Lower("MOUSE3") == "mouse3";
    MouseAliasedCode("MOUSE3", "mouse3");
  }

  lemma MouseX1Code()
    ensures NormalizeMouseCode(TextCode("MOUSEX1")) == Some("MOUSEX1")
    ensures InferInputSource(TextCode("MOUSEX1")) == Some(Mouse)
  {
    assert Lower("MOUSEX1") == "mousex1";
    MouseAliasedCode("MOUSEX1", "mousex1");
  }

  lemma MouseX2Code()
    ensures NormalizeMouseCode(TextCode("MOUSEX2")) == Some("MOUSEX2")
    ensures InferInputSource(TextCode("MOUSEX2")) == Some(Mouse)
  {
    assert Lower("MOUSEX2") == "mousex2";
    MouseAliasedCode("MOUSEX2", "mousex2");
  }

  /** Each mouse code normalises to itself and is inferred to be a mouse code. */
  lemma MouseCodeFixed(c: string)
    requires IsMouseCode(c)
    ensures NormalizeMouseCode(TextCode(c)) == Some(c)
    ensures InferInputSource(TextCode(c)) == Some(Mouse)
  {
    if c == "MOUSE1" { Mouse1Code(); }
    else if c == "MOUSE2" { Mouse2Code(); }
    else if c == "MOUSE3" { Mouse3Code(); }
    else if c == "MOUSEX1" { MouseX1Code(); }
    else { MouseX2Code(); }
  }

  // ---------------------------------------------------------------------------
  // Gamepad codes

  /** `Buttons<k>` with `k` printed without leading zeros and outside the legacy range 48..57. */
  predicate IsButtonsCode(c: string) {
    && |c| > 7 && c[..7] == "Buttons" && IsDigits(c[7..])
    && NatToString(DigitsValue(c[7..])) == c[7..]
    && !(48 <= DigitsValue(c[7..]) <= 57)
  }

  /**
   * `_normalize_buttons_index` accepts exactly the non-negative integers; the button number
   * it prints is `v - 48` for the legacy range 48..57 and `v` otherwise, and the code is canonical.
   */
  lemma ButtonsIndexCanonical(v: int)
    ensures NormalizeButtonsIndex(v).Some? <==> v >= 0
    ensures NormalizeButtonsIndex(v).Some? ==>
      var c := NormalizeButtonsIndex(v).value;
      IsButtonsCode(c) && DigitsValue(c[7..]) == (if 48 <= v <= 57 then v - 48 else v)
  {
    if v >= 0 {
      var k: nat := if 48 <= v <= 57 then v - 48 else v;
      var c := "Buttons" + NatToString(k);
      assert c[..7] == "Buttons" && c[7..] == NatToString(k);
      NatToStringRoundTrip(k);
    }
  }

  /** Whatever `normalize_gamepad_code` returns is a canonical `Buttons<k>` code. */
  lemma GamepadOutputsCanonical(raw: RawCode)
    ensures NormalizeGamepadCode(raw).Some? ==> IsButtonsCode(NormalizeGamepadCode(raw).value)
  {
    match raw
    case IntCode(v) =>
      ButtonsIndexCanonical(v);
    case TextCode(s) =>
      var simplified := SimplifyToken(s);
      if simplified != [] {
        var token := RemovePrefix(simplified, "joystickoffset");
        if ButtonsDigits(token).Some? {
          ButtonsIndexCanonical(DigitsValue(ButtonsDigits(token).value));
        } else if GamepadButtonDigits(token).Some? {
          ButtonsIndexCanonical(DigitsValue(GamepadButtonDigits(token).value));
        } else if DirectInputDigits(token).Some? {
          ButtonsIndexCanonical(DigitsValue(DirectInputDigits(token).value));
        } else if IsDigits(token) {
          ButtonsIndexCanonical(DigitsValue(token));
        }
      }
  }

  lemma LowerButtonsCode(ds: string)
    requires IsDigits(ds)
    ensures IsAlnumAscii("Buttons" + ds)
    ensures Lower("Buttons" + ds) == "buttons" + ds
  {
    var c := "Buttons" + ds;
    assert Lower("Buttons") == "buttons";
    forall i | 0 <= i < |c|
      ensures Lower(c)[i] == ("buttons" + ds)[i]
    {
      if i < 7 {
        assert c[i] == "Buttons"[i];
        assert Lower(c)[i] == Lower("Buttons")[i];
      }
    }
  }

  /** `buttons<digits>` is a gamepad token that no mouse alias or prefix claims. */
  lemma ButtonsTokenShape(ds: string)
    requires IsDigits(ds)
    ensures IsToken("buttons" + ds)
    ensures RemovePrefix("buttons" + ds, "joystickoffset") == "buttons" + ds
    ensures ButtonsDigits("buttons" + ds) == Some(ds)
    ensures MouseAlias("buttons" + ds) == None && !StartsWith("buttons" + ds, "mouse")
  {
    var t := "buttons" + ds;
    assert t[..7] == "buttons" && t[7..] == ds;
    assert IsToken(t) by {
      forall i | 0 <= i < |t| ensures IsTokenChar(t[i]) {
        if i < 7 { assert t[i] == "buttons"[i]; } else { assert t[i] == ds[i - 7]; }
      }
    }
    NotPrefixAt(t, "joystickoffset", 0);
    NotPrefixAt(t, "mouse", 0);
    if MouseAlias(t).Some? {
      MouseAliasShape(t);
    }
  }

  /** Each canonical `Buttons<k>` normalises to itself and is inferred to be a gamepad code. */
  lemma GamepadCodeFixed(c: string)
    requires IsButtonsCode(c)
    ensures NormalizeGamepadCode(TextCode(c)) == Some(c)
    ensures InferInputSource(TextCode(c)) == Some(Gamepad)
  {
    var ds := c[7..];
    assert c == "Buttons" + ds;
    LowerButtonsCode(ds);
    SimplifyAlnum(c);
    AlnumInferred(c);
    ButtonsTokenShape(ds);
  }

  // ---------------------------------------------------------------------------
  // All families, and InputEvent

  /** The canonical codes of one family. */
  predicate IsCanonicalCode(c: string, source: InputSource) {
    match source
    case Keyboard => IsCanonicalKeyboardCode(c)
    case Mouse => IsMouseCode(c)
    case Gamepad => IsButtonsCode(c)
  }

  lemma NormalizeForCanonical(raw: RawCode, source: InputSource, table: AliasTable)
    ensures NormalizeFor(raw, source, table).Some? ==> IsCanonicalCode(NormalizeFor(raw, source, table).value, source)
  {
    match source
    case Keyboard => KeyboardOutputsCanonical(raw, table);
    case Mouse => MouseOutputsCanonical(raw);
    case Gamepad => GamepadOutputsCanonical(raw);
  }

  /**
   * With the corrected table a canonical code normalises to itself within its family, and
   * the family inferred from the code alone is that family.
   */
  lemma CanonicalCodeFixed(c: string, source: InputSource)
    requires IsCanonicalCode(c, source)
    ensures NormalizeFor(TextCode(c), source, WithShiftKeys) == Some(c)
    ensures InferInputSource(TextCode(c)) == Some(source)
  {
    match source
    case Keyboard =>
      CanonicalKeyboardFixed(c, WithShiftKeys);
      KeyboardCodeInferred(c);
    case Mouse => MouseCodeFixed(c);
    case Gamepad => GamepadCodeFixed(c);
  }

  /**
   * What the program does with a canonical code: the inferred family is the code's own,
   * and the code normalises to itself, except `LShiftKey` and `RShiftKey`, which normalise
   * to None.
   */
  lemma CanonicalCodeAsWritten(c: string, source: InputSource)
    requires IsCanonicalCode(c, source)
    ensures NormalizeFor(TextCode(c), source, AsWritten) == if IsShiftKeyCode(c) then None else Some(c)
    ensures IsShiftKeyCode(c) ==> source == Keyboard
    ensures InferInputSource(TextCode(c)) == Some(source)
  {
    match source
    case Keyboard =>
      CanonicalKeyboardAsWritten(c);
      KeyboardCodeInferred(c);
    case Mouse =>
      MouseCodeFixed(c);
      NoShiftKeyOutsideKeyboard(c);
    case Gamepad =>
      GamepadCodeFixed(c);
      NoShiftKeyOutsideKeyboard(c);
  }

  lemma NoShiftKeyOutsideKeyboard(c: string)
    requires IsMouseCode(c) || IsButtonsCode(c)
    ensures !IsShiftKeyCode(c)
  {
    if IsButtonsCode(c) {
      assert c[0] == c[..7][0] == 'B';
    }
  }

  /**
   * With the corrected table an event stores a canonical code of its family; rebuilding an
   * event from that code and family gives the same event, and normalising the code without
   * a family hint gives the code back.
   */
  lemma EventCodeRoundTrip(code: RawCode, source: SourceArg, timestamp: real, pressed: bool)
    requires MakeInputEvent(code, source, timestamp, pressed, WithShiftKeys).Ok?
    ensures var e := MakeInputEvent(code, source, timestamp, pressed, WithShiftKeys).value;
      && IsCanonicalCode(e.code, e.source)
      && MakeInputEvent(TextCode(e.code), Known(e.source), timestamp, pressed, WithShiftKeys) == Ok(e)
      && NormalizeInputCode(TextCode(e.code), None, WithShiftKeys) == Ok(Some(e.code))
  {
    var e := MakeInputEvent(code, source, timestamp, pressed, WithShiftKeys).value;
    NormalizeForCanonical(code, e.source, WithShiftKeys);
    CanonicalCodeFixed(e.code, e.source);
  }

  /**
   * What the program does when an event's code is fed back: the same event is rebuilt,
   * except when the code is `LShiftKey` or `RShiftKey`, where construction fails and
   * normalising without a hint gives None.
   */
  lemma EventCodeRoundTripAsWritten(code: RawCode, source: SourceArg, timestamp: real, pressed: bool)
    requires MakeInputEvent(code, source, timestamp, pressed, AsWritten).Ok?
    ensures var e := MakeInputEvent(code, source, timestamp, pressed, AsWritten).value;
      && IsCanonicalCode(e.code, e.source)
      && MakeInputEvent(TextCode(e.code), Known(e.source), timestamp, pressed, AsWritten) ==
           (if IsShiftKeyCode(e.code) then Err(NotNormalizable(TextCode(e.code), e.source)) else Ok(e))
      && NormalizeInputCode(TextCode(e.code), None, AsWritten) ==
           Ok(if IsShiftKeyCode(e.code) then None else Some(e.code))
  {
    var e := MakeInputEvent(code, source, timestamp, pressed, AsWritten).value;
    NormalizeForCanonical(code, e.source, AsWritten);
    CanonicalCodeAsWritten(e.code, e.source);
  }

  /**
   * A source name resolves by its simplified token alone: a name with no letters or digits
   * is the empty-source error, a token outside the alias table the unsupported-source error
   * naming the original, and a resolved name resolves the same when given as its token.
   */
  lemma SourceNameResolution(name: string)
    ensures SimplifyToken(name) == [] <==> NormalizeInputSource(Named(name)) == Err(EmptySource)
    ensures SimplifyToken(name) != [] && SourceAlias(SimplifyToken(name)).None? <==>
      NormalizeInputSource(Named(name)) == Err(UnsupportedSource(name))
    ensures NormalizeInputSource(Named(name)).Ok? ==>
      NormalizeInputSource(Named(SimplifyToken(name))) == NormalizeInputSource(Named(name))
  {
    SimplifyTokenIdempotent(name);
  }

  /** Every alias in the source table resolves to its family. */
  lemma SourceAliasResolves(token: string)
    requires SourceAlias(token).Some?
    ensures NormalizeInputSource(Named(token)) == Ok(SourceAlias(token).value)
  {
    assert IsToken(token);
    TokenIsSimplified(token);
  }

  /**
   * A hint naming the family the code would be inferred to have changes nothing, and a
   * code of no inferable family normalises to None without a hint.
   */
  lemma HintOfInferredFamily(raw: RawCode, table: AliasTable)
    ensures InferInputSource(raw).Some? ==>
      NormalizeInputCode(raw, Some(Known(InferInputSource(raw).value)), table) == NormalizeInputCode(raw, None, table)
    ensures InferInputSource(raw).None? ==> NormalizeInputCode(raw, None, table) == Ok(None)
    ensures NormalizeInputCode(raw, None, table).Ok?
  {
  }

  /** An event cannot be built from a code its family's normaliser rejects. */
  lemma EventRejectsUnknownCode(code: RawCode, source: InputSource, timestamp: real, pressed: bool, table: AliasTable)
    requires NormalizeFor(code, source, table) == None
    ensures MakeInputEvent(code, Known(source), timestamp, pressed, table) == Err(NotNormalizable(code, source))
  {
  }

  // ---------------------------------------------------------------------------
  // Spellings of the same key agree

  /** A lowercase word followed by digits is its own simplified token, and the digits are its suffix. */
  lemma PrefixedDigits(prefix: string, ds: string)
    requires IsToken(prefix) && IsDigits(ds)
    ensures IsToken(prefix + ds) && IsAlnumAscii(prefix + ds)
    ensures Lower(prefix + ds) == prefix + ds
    ensures SimplifyToken(prefix + ds) == prefix + ds
    ensures DigitSuffix(prefix + ds, prefix) == Some(ds)
  {
    var t := prefix + ds;
    assert t[..|prefix|] == prefix && t[|prefix|..] == ds;
    assert IsToken(t) by {
      forall i | 0 <= i < |t| ensures IsTokenChar(t[i]) {
        if i < |prefix| { assert t[i] == prefix[i]; } else { assert t[i] == ds[i - |prefix|]; }
      }
    }
    LowerOfToken(t);
    TokenIsSimplified(t);
  }

  /**
   * A virtual-key number and the character it stands for name the same key: the integer
   * code of an upper-case letter or a digit normalises like the one-character string.
   */
  lemma VirtualKeyMatchesCharacter(x: char)
    requires IsUpperLetter(x) || IsDigit(x)
    ensures NormalizeKeyboardCode(IntCode(x as int)).Some?
    ensures NormalizeKeyboardCode(IntCode(x as int)) == NormalizeKeyboardCode(TextCode([x]))
  {
    var token := Lower([x]);
    assert token == [LowerChar(x)];
    KeyboardTextOfAlnum([x], AsWritten);
    NoKeyboardAlias(AsWritten, token);
    assert token[1..] == [];
    assert FunctionKeyDigits(token) == None && NumpadDigit(token) == None && DKeyDigit(token) == None;
    if IsDigit(x) {
      assert NatToString(x as int - 48) == [x];
    }
  }

  /**
   * The integer branch of `normalize_keyboard_code`: exactly 65..90 and 48..57 map, to the
   * upper-case letter with that code and to `D0`..`D9`.
   */
  lemma KeyboardIntCodes(v: int)
    ensures NormalizeKeyboardCode(IntCode(v)).Some? <==> 65 <= v <= 90 || 48 <= v <= 57
    ensures 65 <= v <= 90 ==> IsUpperLetter(v as char) && NormalizeKeyboardCode(IntCode(v)) == Some([v as char])
    ensures 48 <= v <= 57 ==> IsDigit(v as char) && NormalizeKeyboardCode(IntCode(v)) == Some(['D', v as char])
  {
    if 48 <= v <= 57 {
      assert NatToString(v - 48) == [v as char];
      assert "D" + [v as char] == ['D', v as char];
    }
  }

  /**
   * An integer code is a mouse button for 0..4, a gamepad button for any other
   * non-negative value, and of no family when negative.
   */
  lemma IntSourceInferred(v: int)
    ensures InferInputSource(IntCode(v)) == if 0 <= v <= 4 then Some(Mouse) else if v >= 0 then Some(Gamepad) else None
  {
    MouseIndexCanonical(v);
    ButtonsIndexCanonical(v);
  }

  /** `vk<n>` names the same key as the virtual-key number n. */
  lemma VirtualKeySpelling(ds: string)
    requires IsDigits(ds)
    ensures NormalizeKeyboardCode(TextCode("vk" + ds)) == NormalizeKeyboardCode(IntCode(DigitsValue(ds)))
  {
    var t := "vk" + ds;
    PrefixedDigits("vk", ds);
    KeyboardTextOfAlnum(t, AsWritten);
    VirtualKeyToken(t, ds);
  }

  lemma VirtualKeyToken(t: string, ds: string)
    requires t == "vk" + ds && DigitSuffix(t, "vk") == Some(ds) && IsDigits(ds)
    ensures KeyboardFromToken(t, AsWritten) == NormalizeKeyboardInt(DigitsValue(ds))
  {
    NoKeyboardAlias(AsWritten, t);
    NotPrefixAt(t, "f", 0);
    NotPrefixAt(t, "numpad", 0);
    NotPrefixAt(t, "num", 0);
    NotPrefixAt(t, "d", 0);
    assert FunctionKeyDigits(t) == None && NumpadDigit(t) == None && DKeyDigit(t) == None;
  }

  /** `f<n>` with one or two digits is the function key `F<n>`, leading zeros dropped. */
  lemma FunctionKeySpelling(ds: string)
    requires IsDigits(ds) && |ds| <= 2
    ensures NormalizeKeyboardCode(TextCode("f" + ds)) == Some("F" + NatToString(DigitsValue(ds)))
  {
    var t := "f" + ds;
    PrefixedDigits("f", ds);
    KeyboardTextOfAlnum(t, AsWritten);
    NoKeyboardAlias(AsWritten, t);
  }

  /** `numpad<d>` and `num<d>` are both the key `NumPad<d>`. */
  lemma NumPadSpelling(d: char)
    requires IsDigit(d)
    ensures NormalizeKeyboardCode(TextCode("numpad" + [d])) == Some("NumPad" + [d])
    ensures NormalizeKeyboardCode(TextCode("num" + [d])) == Some("NumPad" + [d])
  {
    PrefixedDigits("numpad", [d]);
    PrefixedDigits("num", [d]);
    KeyboardTextOfAlnum("numpad" + [d], AsWritten);
    KeyboardTextOfAlnum("num" + [d], AsWritten);
    NoKeyboardAlias(AsWritten, "numpad" + [d]);
    NoKeyboardAlias(AsWritten, "num" + [d]);
    NotPrefixAt("numpad" + [d], "f", 0);
    NotPrefixAt("num" + [d], "f", 0);
    NotPrefixAt("num" + [d], "numpad", 3);
    SingleDigitCode("NumPad", d);
  }

  /** A single letter, in either case, is the upper-case letter key. */
  lemma LetterSpelling(x: char)
    requires IsLetter(x)
    ensures NormalizeKeyboardCode(TextCode([x])) == Some([UpperChar(LowerChar(x))])
  {
    var token := Lower([x]);
    assert token == [LowerChar(x)];
    KeyboardTextOfAlnum([x], AsWritten);
    NoKeyboardAlias(AsWritten, token);
    assert token[1..] == [];
  }

  /** A single digit d is the key `D<d>`. */
  lemma DigitSpelling(x: char)
    requires IsDigit(x)
    ensures NormalizeKeyboardCode(TextCode([x])) == Some("D" + [x])
  {
    VirtualKeyMatchesCharacter(x);
    assert NatToString(x as int - 48) == [x];
  }

  /** A string of digits names the same mouse button as the integer it spells. */
  lemma MouseDigitsSpelling(ds: string)
    requires IsDigits(ds)
    ensures NormalizeMouseCode(TextCode(ds)) == NormalizeMouseCode(IntCode(DigitsValue(ds)))
  {
    DigitsAreToken(ds);
    NoMouseAliasOf(ds);
  }

  lemma DigitsAreToken(ds: string)
    requires IsDigits(ds)
    ensures IsToken(ds) && SimplifyToken(ds) == ds
  {
    assert IsToken(ds);
    TokenIsSimplified(ds);
  }

  lemma NoMouseAliasOf(t: string)
    requires !MouseAliasInitials(t)
    ensures MouseAlias(t) == None
  {
    if MouseAlias(t).Some? {
      MouseAliasShape(t);
    }
  }

  /** The mouse alias keys of the form `mouse<digits>` are `mouse1` to `mouse3`, naming buttons 0 to 2. */
  lemma MouseNumberAlias(ds: string)
    requires IsDigits(ds)
    ensures MouseAlias("mouse" + ds).Some? ==> MouseAlias("mouse" + ds) == MouseIndexCode(DigitsValue(ds) - 1)
  {
    var t := "mouse" + ds;
    assert t[5] == ds[0];
    if |ds| == 1 {
      assert ds[..0] == [];
      if ds[0] == '1' {
        assert t == "mouse1";
      } else if ds[0] == '2' {
        assert t == "mouse2";
      } else if ds[0] == '3' {
        assert t == "mouse3";
      }
    }
  }

  /** `mouse<n>` names mouse button n - 1 (so `mouse1` is the first button), and is inferred to be a mouse code. */
  lemma MouseNumberSpelling(ds: string)
    requires IsDigits(ds)
    ensures NormalizeMouseCode(TextCode("mouse" + ds)) == MouseIndexCode(DigitsValue(ds) - 1)
    ensures InferInputSource(TextCode("mouse" + ds)) == Some(Mouse)
  {
    var t := "mouse" + ds;
    PrefixedDigits("mouse", ds);
    MouseNumberToken(t, ds);
    MouseNumberInferred(t);
  }

  lemma MouseNumberToken(t: string, ds: string)
    requires IsDigits(ds) && t == "mouse" + ds && SimplifyToken(t) == t && DigitSuffix(t, "mouse") == Some(ds)
    ensures NormalizeMouseCode(TextCode(t)) == MouseIndexCode(DigitsValue(ds) - 1)
  {
    MouseNumberAlias(ds);
    NotPrefixAt(t, "mousex", 5);
    assert !IsDigit(t[0]);
  }

  lemma MouseNumberInferred(t: string)
    requires IsAlnumAscii(t) && |t| >= 5 && t[..5] == "mouse" && Lower(t) == t
    ensures InferInputSource(TextCode(t)) == Some(Mouse)
  {
    AlnumInferred(t);
  }

  /** A token that is no mouse alias and matches a gamepad pattern is given the gamepad family. */
  lemma GamepadTokenInferred(t: string)
    requires |t| >= 1 && t[0] != 'm' && !MouseAliasInitials(t)
    requires ButtonsDigits(t).Some? || GamepadButtonDigits(t).Some?
    ensures InferFromToken(t) == Gamepad
  {
    NoMouseAliasOf(t);
  }

  /** `buttons<n>` is inferred to be a gamepad code. */
  lemma ButtonsInferred(ds: string)
    requires IsDigits(ds)
    ensures InferInputSource(TextCode("buttons" + ds)) == Some(Gamepad)
  {
    var t := "buttons" + ds;
    PrefixedDigits("buttons", ds);
    assert t[0] == 'b' && t[1] == 'u' && t[6] == 's';
    GamepadTokenInferred(t);
    AlnumInferred(t);
  }

  /**
   * `button<n>` is inferred to be a gamepad code, except where it is one of the mouse
   * aliases `button1` to `button5`: the mouse table is consulted first.
   */
  lemma ButtonNumberInferred(ds: string)
    requires IsDigits(ds)
    ensures InferInputSource(TextCode("button" + ds)) == Some(if MouseAlias("button" + ds).Some? then Mouse else Gamepad)
  {
    var t := "button" + ds;
    PrefixedDigits("button", ds);
    NotPrefixAt(t, "mouse", 0);
    NotPrefixAt(t, "gamepadbutton", 0);
    assert GamepadButtonDigits(t) == Some(ds);
    AlnumInferred(t);
  }

  /** `gamepadbutton<n>` is inferred to be a gamepad code. */
  lemma GamepadButtonInferred(ds: string)
    requires IsDigits(ds)
    ensures InferInputSource(TextCode("gamepadbutton" + ds)) == Some(Gamepad)
  {
    var t := "gamepadbutton" + ds;
    PrefixedDigits("gamepadbutton", ds);
    assert t[0] == 'g';
    assert GamepadButtonDigits(t) == Some(ds);
    GamepadTokenInferred(t);
    AlnumInferred(t);
  }

  /** `joystickoffsetbuttons<n>` is inferred to be a gamepad code. */
  lemma JoystickButtonsInferred(ds: string)
    requires IsDigits(ds)
    ensures InferInputSource(TextCode("joystickoffsetbuttons" + ds)) == Some(Gamepad)
  {
    var t := "joystickoffsetbuttons" + ds;
    PrefixedDigits("joystickoffsetbuttons", ds);
    assert t[0] == 'j' && t[..21] == "joystickoffsetbuttons";
    NoMouseAliasOf(t);
    NotPrefixAt(t, "mouse", 0);
    AlnumInferred(t);
  }

  /** `button<n>` and `gamepadbutton<n>` name the same gamepad button as the integer n. */
  lemma GamepadButtonSpelling(prefix: string, ds: string)
    requires IsDigits(ds) && (prefix == "button" || prefix == "gamepadbutton")
    ensures NormalizeGamepadCode(TextCode(prefix + ds)) == NormalizeGamepadCode(IntCode(DigitsValue(ds)))
  {
    var t := prefix + ds;
    PrefixedDigits(prefix, ds);
    NotPrefixAt(t, "joystickoffset", 0);
    if prefix == "button" {
      NotPrefixAt(t, "buttons", 6);
      NotPrefixAt(t, "gamepadbutton", 0);
    } else {
      NotPrefixAt(t, "buttons", 0);
    }
    assert GamepadButtonDigits(t) == Some(ds);
  }

  /** `buttons<n>` names the gamepad button n. */
  lemma ButtonsSpelling(ds: string)
    requires IsDigits(ds)
    ensures NormalizeGamepadCode(TextCode("buttons" + ds)) == NormalizeGamepadCode(IntCode(DigitsValue(ds)))
  {
    PrefixedDigits("buttons", ds);
    ButtonsTokenShape(ds);
  }

  /** `joystickoffsetbuttons<n>` (DirectInput's name) names the gamepad button n. */
  lemma JoystickButtonsSpelling(ds: string)
    requires IsDigits(ds)
    ensures NormalizeGamepadCode(TextCode("joystickoffsetbuttons" + ds)) == NormalizeGamepadCode(IntCode(DigitsValue(ds)))
  {
    JoystickButtonsSplit("joystickoffsetbuttons", "joystickoffset", "buttons", ds);
  }

  /** The spelling above with its three literals held as variables, so the solver does not unfold them. */
  lemma JoystickButtonsSplit(full: string, offset: string, buttons: string, ds: string)
    requires full == "joystickoffsetbuttons" && offset == "joystickoffset" && buttons == "buttons"
    requires IsDigits(ds)
    ensures NormalizeGamepadCode(TextCode(full + ds)) == NormalizeGamepadCode(IntCode(DigitsValue(ds)))
  {
    assert full == offset + buttons;
    var t := full + ds;
    PrefixedDigits(full, ds);
    assert t == offset + (buttons + ds);
    ButtonsTokenShape(ds);
    JoystickOffsetRemoved(t, buttons + ds, ds);
  }

  lemma JoystickOffsetRemoved(t: string, rest: string, ds: string)
    requires IsDigits(ds) && SimplifyToken(t) == t && t == "joystickoffset" + rest
    requires ButtonsDigits(rest) == Some(ds)
    ensures NormalizeGamepadCode(TextCode(t)) == NormalizeButtonsIndex(DigitsValue(ds))
  {
    assert t[..14] == "joystickoffset" && t[14..] == rest;
  }

  /** A string of digits names the same gamepad button as the integer it spells. */
  lemma GamepadDigitsSpelling(ds: string)
    requires IsDigits(ds)
    ensures NormalizeGamepadCode(TextCode(ds)) == NormalizeGamepadCode(IntCode(DigitsValue(ds)))
  {
    PrefixedDigits("", ds);
    assert "" + ds == ds;
    NotPrefixAt(ds, "joystickoffset", 0);
    NotPrefixAt(ds, "buttons", 0);
    NotPrefixAt(ds, "gamepadbutton", 0);
    NotPrefixAt(ds, "button", 0);
    NotPrefixAt(ds, "joystickoffsetbuttons", 0);
  }
}
