/**
 * Properties of the code normalisers of src/d2rso/input_events.py: the token alphabet,
 * the integer mappings, agreement between spellings of the same key, the canonical
 * codes of each family and the fact that they are fixed points of normalisation.
 */
module InputEventsLemmas {
  import opened Wrappers
  import opened Text
  import opened InputEvents

  /** Strings of ASCII letters and digits only, the shape of every canonical code. */
  predicate IsAlnumAscii(s: string) {
    forall i | 0 <= i < |s| :: IsLetter(s[i]) || IsDigit(s[i])
  }

  // ---------------------------------------------------------------------------
  // _simplify_token

  lemma AlnumNotSpace(c: char)
    requires IsLetter(c) || IsDigit(c)
    ensures !IsSpace(c)
  {
  }

  /** `strip()` leaves a string of letters and digits alone. */
  lemma StripAlnum(s: string)
    requires IsAlnumAscii(s)
    ensures Strip(s) == s
  {
    if s != [] {
      AlnumNotSpace(s[0]);
      AlnumNotSpace(s[|s| - 1]);
      assert TrimLeft(s) == s;
    }
  }

  lemma LowerOfToken(t: string)
    requires IsToken(t)
    ensures Lower(t) == t
  {
    assert forall i | 0 <= i < |t| :: Lower(t)[i] == t[i];
  }

  lemma LowerOfAlnum(s: string)
    requires IsAlnumAscii(s)
    ensures IsToken(Lower(s))
  {
    assert forall i | 0 <= i < |s| :: IsTokenChar(Lower(s)[i]);
  }

  lemma {:induction false} KeepTokenCharsOfToken(t: string)
    requires IsToken(t)
    ensures KeepTokenChars(t) == t
  {
    if t != [] {
      KeepTokenCharsOfToken(t[1..]);
    }
  }

  /** A token made only of a-z and 0-9 is left as it is. */
  lemma TokenIsSimplified(t: string)
    requires IsToken(t)
    ensures SimplifyToken(t) == t
  {
    assert IsAlnumAscii(t);
    StripAlnum(t);
    LowerOfToken(t);
    KeepTokenCharsOfToken(t);
  }

  /** `_simplify_token` yields only a-z and 0-9, and applying it twice equals applying it once. */
  lemma SimplifyTokenIdempotent(s: string)
    ensures IsToken(SimplifyToken(s))
    ensures SimplifyToken(SimplifyToken(s)) == SimplifyToken(s)
  {
    TokenIsSimplified(SimplifyToken(s));
  }

  /** On ASCII letters and digits, simplifying is lowercasing. */
  lemma SimplifyAlnum(s: string)
    requires IsAlnumAscii(s)
    ensures SimplifyToken(s) == Lower(s)
  {
    StripAlnum(s);
    LowerOfAlnum(s);
    KeepTokenCharsOfToken(Lower(s));
  }

  // ---------------------------------------------------------------------------
  // Shapes of prefixes and table keys

  /** Lowercase words separated by spaces. */
  predicate IsWords(t: string) {
    forall j | 0 <= j < |t| :: IsTokenChar(t[j]) || t[j] == ' '
  }

  /** Lowercase words cannot start with a prefix that has a symbol at position `i`. */
  lemma NoSymbolPrefix(t: string, prefix: string, i: nat)
    requires IsWords(t) && i < |prefix| && !IsTokenChar(prefix[i]) && prefix[i] != ' '
    ensures !StartsWith(t, prefix)
  {
  }

  /** A string cannot start with a prefix that differs from it at position `i`. */
  lemma NotPrefixAt(t: string, prefix: string, i: nat)
    requires i < |prefix| && i < |t| && t[i] != prefix[i]
    ensures !StartsWith(t, prefix)
  {
  }

  /** The codes the keyboard alias tables (and the punctuation table) map to. */
  const NamedKeyboardCodes: set<string> := {
    "Escape", "Return", "Tab", "Back", "LShiftKey", "RShiftKey", "LMenu", "RMenu",
    "LControlKey", "RControlKey", "OemComma", "OemTilde", "OemOpenBrackets",
    "OemCloseBrackets", "OemSemicolon", "OemQuotes", "Add", "Subtract"
  }

  /** A token shorter than three characters or ending in a digit is a key of no keyboard alias group. */
  predicate NoAliasShape(token: string) {
    |token| < 3 || IsDigit(token[|token| - 1])
  }

  lemma NoEditingOrShiftAlias(token: string)
    requires NoAliasShape(token)
    ensures EditingKeyAlias(token) == None && ShiftKeyAlias(token) == None
  {
  }

  lemma NoAltOrControlAlias(token: string)
    requires NoAliasShape(token)
    ensures AltKeyAlias(token) == None && ControlKeyAlias(token) == None
  {
  }

  lemma NoOemOrArithmeticAlias(token: string)
    requires NoAliasShape(token)
    ensures OemKeyAlias(token) == None && ArithmeticKeyAlias(token) == None
  {
  }

  /** Every keyboard alias key has at least three characters and does not end in a digit. */
  lemma NoKeyboardAlias(table: AliasTable, token: string)
    requires NoAliasShape(token)
    ensures KeyboardAliasIn(table, token) == None
  {
    NoEditingOrShiftAlias(token);
    NoAltOrControlAlias(token);
    NoOemOrArithmeticAlias(token);
  }

  /** Every keyboard alias maps to one of the named codes. */
  lemma KeyboardAliasValues(table: AliasTable, token: string)
    requires KeyboardAliasIn(table, token).Some?
    ensures KeyboardAliasIn(table, token).value in NamedKeyboardCodes
  {
  }

  lemma PunctuationValues(text: string)
    requires PunctuationAlias(text).Some?
    ensures |text| == 1 && !IsLetter(text[0]) && !IsDigit(text[0])
    ensures PunctuationAlias(text).value in NamedKeyboardCodes
  {
  }

  // ---------------------------------------------------------------------------
  // Keyboard: the path a string of letters and digits takes

  /**
   * A string of letters and digits is no punctuation mark, carries no `key.` prefix,
   * no `keycode(...)` wrapper and no quotes: `normalize_keyboard_code` goes straight to
   * its token rules with the lowercased string.
   */
  lemma KeyboardTextOfAlnum(s: string, table: AliasTable)
    requires s != [] && IsAlnumAscii(s)
    ensures NormalizeKeyboardText(s, table) == KeyboardFromToken(Lower(s), table)
  {
    StripAlnum(s);
    assert IsLetter(s[0]) || IsDigit(s[0]);
    if PunctuationAlias(s).Some? {
      PunctuationValues(s);
    }
    var lowered := Lower(s);
    LowerOfAlnum(s);
    NoSymbolPrefix(lowered, "key.", 3);
    NoSymbolPrefix(lowered, "keys.", 4);
    NoSymbolPrefix(lowered, "keyboard.", 8);
    assert StripKeyPrefix(s) == s;
    NoSymbolPrefix(lowered, "keycode(char=", 7);
    assert KeycodeChar(lowered) == None;
    assert KeycodeVkDigits(lowered) == None;
    SimplifyAlnum(s);
  }

  // ---------------------------------------------------------------------------
  // Canonical keyboard codes

  /** `F<n>` with `n` printed without leading zeros and at most two digits long. */
  predicate IsFunctionKeyCode(c: string) {
    2 <= |c| <= 3 && c[0] == 'F' && IsDigits(c[1..]) && NatToString(DigitsValue(c[1..])) == c[1..]
  }

  predicate IsLetterKeyCode(c: string) { |c| == 1 && IsUpperLetter(c[0]) }

  predicate IsDigitKeyCode(c: string) { |c| == 2 && c[0] == 'D' && IsDigit(c[1]) }

  predicate IsNumPadCode(c: string) { |c| == 7 && c[..6] == "NumPad" && IsDigit(c[6]) }

  /** The codes `normalize_keyboard_code` can return. */
  predicate IsCanonicalKeyboardCode(c: string) {
    c in NamedKeyboardCodes || IsFunctionKeyCode(c) || IsLetterKeyCode(c) || IsDigitKeyCode(c) || IsNumPadCode(c)
  }

  lemma TwoDigitsBelowHundred(ds: string)
    requires IsDigits(ds) && |ds| <= 2
    ensures DigitsValue(ds) < 100
  {
    if |ds| == 2 {
      assert ds[..1][..0] == [];
      assert DigitsValue(ds[..1]) == DigitValue(ds[0]);
      assert DigitsValue(ds) == DigitValue(ds[0]) * 10 + DigitValue(ds[1]);
    } else if |ds| == 1 {
      assert ds[..0] == [];
    }
  }

  lemma SmallNumberString(n: nat)
    requires n < 100
    ensures 1 <= |NatToString(n)| <= 2
  {
  }

  lemma FunctionKeyCodeOf(n: nat)
    requires n < 100
    ensures IsFunctionKeyCode("F" + NatToString(n))
  {
    var c := "F" + NatToString(n);
    SmallNumberString(n);
    assert c[1..] == NatToString(n);
    NatToStringRoundTrip(n);
  }

  lemma SingleDigitCode(prefix: string, x: char)
    requires IsDigit(x)
    ensures prefix + NatToString(DigitsValue([x])) == prefix + [x]
  {
    SingleDigitRoundTrip(x);
  }

  lemma KeyboardIntCanonical(v: int)
    ensures NormalizeKeyboardInt(v).Some? ==> IsCanonicalKeyboardCode(NormalizeKeyboardInt(v).value)
  {
    if 48 <= v <= 57 && !(65 <= v <= 90) {
      var c := "D" + NatToString(v - 48);
      assert |c| == 2 && c[1] == NatToString(v - 48)[0];
    }
  }

  lemma KeyboardFromTokenCanonical(token: string, table: AliasTable)
    ensures KeyboardFromToken(token, table).Some? ==> IsCanonicalKeyboardCode(KeyboardFromToken(token, table).value)
  {
    if token == [] {
    } else if KeyboardAliasIn(table, token).Some? {
      KeyboardAliasValues(table, token);
    } else if FunctionKeyDigits(token).Some? {
      var ds := FunctionKeyDigits(token).value;
      TwoDigitsBelowHundred(ds);
      FunctionKeyCodeOf(DigitsValue(ds));
    } else if NumpadDigit(token).Some? {
      var ds := NumpadDigit(token).value;
      assert ds == [ds[0]];
      SingleDigitCode("NumPad", ds[0]);
      assert ("NumPad" + [ds[0]])[..6] == "NumPad";
    } else if DKeyDigit(token).Some? {
      var ds := DKeyDigit(token).value;
      assert ds == [ds[0]];
      SingleDigitCode("D", ds[0]);
    } else if |token| == 1 && IsLowerLetter(token[0]) {
    } else if |token| == 1 && IsDigit(token[0]) {
    } else if DigitSuffix(token, "vk").Some? {
      KeyboardIntCanonical(DigitsValue(DigitSuffix(token, "vk").value));
    }
  }

  lemma KeyboardFromTextCanonical(text: string, table: AliasTable)
    ensures KeyboardFromText(text, table).Some? ==> IsCanonicalKeyboardCode(KeyboardFromText(text, table).value)
  {
    var unquoted := if |text| == 3 && text[0] == text[2] && IsQuote(text[0]) then [text[1]] else text;
    if PunctuationAlias(unquoted).Some? {
      PunctuationValues(unquoted);
    } else {
      KeyboardFromTokenCanonical(SimplifyToken(unquoted), table);
    }
  }

  /** Whatever `normalize_keyboard_code` returns is a canonical keyboard code (under either table). */
  lemma KeyboardOutputsCanonical(raw: RawCode, table: AliasTable)
    ensures NormalizeKeyboardWith(raw, table).Some? ==> IsCanonicalKeyboardCode(NormalizeKeyboardWith(raw, table).value)
  {
    match raw
    case IntCode(v) =>
      KeyboardIntCanonical(v);
    case TextCode(s) =>
      var text := Strip(s);
      if text != [] {
        if PunctuationAlias(text).Some? {
          PunctuationValues(text);
        } else {
          var unprefixed := StripKeyPrefix(text);
          var lowered := Lower(unprefixed);
          match KeycodeChar(lowered)
          case Some(c) => KeyboardFromTextCanonical([c], table);
          case None =>
            match KeycodeVkDigits(lowered)
            case Some(digits) => KeyboardIntCanonical(DigitsValue(digits));
            case None => KeyboardFromTextCanonical(unprefixed, table);
        }
      }
  }

  // ---------------------------------------------------------------------------
  // Canonical keyboard codes are fixed points

  /** What makes a named code a fixed point: letters only, and its lowercase form is an alias of it. */
  predicate IsSelfAliased(c: string) {
    c != [] && IsAlnumAscii(c) && KeyboardAliasIn(WithShiftKeys, Lower(c)) == Some(c)
  }

  lemma EscapeSelfAliased()
    ensures IsSelfAliased("Escape")
  {
    assert Lower("Escape") == "escape";
    assert EditingKeyAlias("escape") == Some("Escape");
  }

  lemma ReturnSelfAliased()
    ensures IsSelfAliased("Return")
  {
    assert Lower("Return") == "return";
    assert EditingKeyAlias("return") == Some("Return");
  }

  lemma TabSelfAliased()
    ensures IsSelfAliased("Tab")
  {
    assert Lower("Tab") == "tab";
    assert EditingKeyAlias("tab") == Some("Tab");
  }

  lemma BackSelfAliased()
    ensures IsSelfAliased("Back")
  {
    assert Lower("Back") == "back";
    assert EditingKeyAlias("back") == Some("Back");
  }

  lemma LShiftKeySelfAliased()
    ensures IsSelfAliased("LShiftKey")
  {
    LShiftKeyWord();
    assert KeyboardAliasIn(WithShiftKeys, "lshiftkey") == Some("LShiftKey");
  }

  lemma LShiftKeyWord()
    ensures IsAlnumAscii("LShiftKey") && Lower("LShiftKey") == "lshiftkey"
  {
  }

  lemma RShiftKeySelfAliased()
    ensures IsSelfAliased("RShiftKey")
  {
    RShiftKeyWord();
    assert KeyboardAliasIn(WithShiftKeys, "rshiftkey") == Some("RShiftKey");
  }

  lemma RShiftKeyWord()
    ensures IsAlnumAscii("RShiftKey") && Lower("RShiftKey") == "rshiftkey"
  {
  }

  lemma LMenuSelfAliased()
    ensures IsSelfAliased("LMenu")
  {
    assert Lower("LMenu") == "lmenu";
    assert AltKeyAlias("lmenu") == Some("LMenu");
  }

  lemma RMenuSelfAliased()
    ensures IsSelfAliased("RMenu")
  {
    assert Lower("RMenu") == "rmenu";
    assert AltKeyAlias("rmenu") == Some("RMenu");
  }

  lemma LControlKeySelfAliased()
    ensures IsSelfAliased("LControlKey")
  {
    LControlKeyWord();
    assert ControlKeyAlias("lcontrolkey") == Some("LControlKey");
  }

  lemma LControlKeyWord()
    ensures IsAlnumAscii("LControlKey") && Lower("LControlKey") == "lcontrolkey"
  {
  }

  lemma RControlKeySelfAliased()
    ensures IsSelfAliased("RControlKey")
  {
    RControlKeyWord();
    assert ControlKeyAlias("rcontrolkey") == Some("RControlKey");
  }

  lemma RControlKeyWord()
    ensures IsAlnumAscii("RControlKey") && Lower("RControlKey") == "rcontrolkey"
  {
  }

  lemma OemCommaSelfAliased()
    ensures IsSelfAliased("OemComma")
  {
    OemCommaWord();
    assert OemKeyAlias("oemcomma") == Some("OemComma");
  }

  lemma OemCommaWord()
    ensures IsAlnumAscii("OemComma") && Lower("OemComma") == "oemcomma"
  {
  }

  lemma OemTildeSelfAliased()
    ensures IsSelfAliased("OemTilde")
  {
    OemTildeWord();
    assert OemKeyAlias("oemtilde") == Some("OemTilde");
  }

  lemma OemTildeWord()
    ensures IsAlnumAscii("OemTilde") && Lower("OemTilde") == "oemtilde"
  {
  }

  lemma OemOpenBracketsSelfAliased()
    ensures IsSelfAliased("OemOpenBrackets")
  {
    OemOpenBracketsWord();
    assert OemKeyAlias("oemopenbrackets") == Some("OemOpenBrackets");
  }

  lemma OemOpenBracketsWord()
    ensures IsAlnumAscii("OemOpenBrackets") && Lower("OemOpenBrackets") == "oemopenbrackets"
  {
  }

  lemma OemCloseBracketsSelfAliased()
    ensures IsSelfAliased("OemCloseBrackets")
  {
    OemCloseBracketsWord();
    assert OemKeyAlias("oemclosebrackets") == Some("OemCloseBrackets");
  }

  lemma OemCloseBracketsWord()
    ensures IsAlnumAscii("OemCloseBrackets") && Lower("OemCloseBrackets") == "oemclosebrackets"
  {
  }

  lemma OemSemicolonSelfAliased()
    ensures IsSelfAliased("OemSemicolon")
  {
    OemSemicolonWord();
    assert OemKeyAlias("oemsemicolon") == Some("OemSemicolon");
  }

  lemma OemSemicolonWord()
    ensures IsAlnumAscii("OemSemicolon") && Lower("OemSemicolon") == "oemsemicolon"
  {
  }

  lemma OemQuotesSelfAliased()
    ensures IsSelfAliased("OemQuotes")
  {
    OemQuotesWord();
    assert OemKeyAlias("oemquotes") == Some("OemQuotes");
  }

  lemma OemQuotesWord()
    ensures IsAlnumAscii("OemQuotes") && Lower("OemQuotes") == "oemquotes"
  {
  }

  lemma AddSelfAliased()
    ensures IsSelfAliased("Add")
  {
    assert Lower("Add") == "add";
    assert ArithmeticKeyAlias("add") == Some("Add");
  }

  lemma SubtractSelfAliased()
    ensures IsSelfAliased("Subtract")
  {
    SubtractWord();
    assert ArithmeticKeyAlias("subtract") == Some("Subtract");
  }

  lemma SubtractWord()
    ensures IsAlnumAscii("Subtract") && Lower("Subtract") == "subtract"
  {
  }

  lemma NamedCodeSelfAliased(c: string)
    requires c in NamedKeyboardCodes
    ensures IsSelfAliased(c)
  {
    if c == "Escape" { EscapeSelfAliased(); }
    else if c == "Return" { ReturnSelfAliased(); }
    else if c == "Tab" { TabSelfAliased(); }
    else if c == "Back" { BackSelfAliased(); }
    else if c == "LShiftKey" { LShiftKeySelfAliased(); }
    else if c == "RShiftKey" { RShiftKeySelfAliased(); }
    else if c == "LMenu" { LMenuSelfAliased(); }
    else if c == "RMenu" { RMenuSelfAliased(); }
    else if c == "LControlKey" { LControlKeySelfAliased(); }
    else if c == "RControlKey" { RControlKeySelfAliased(); }
    else if c == "OemComma" { OemCommaSelfAliased(); }
    else if c == "OemTilde" { OemTildeSelfAliased(); }
    else if c == "OemOpenBrackets" { OemOpenBracketsSelfAliased(); }
    else if c == "OemCloseBrackets" { OemCloseBracketsSelfAliased(); }
    else if c == "OemSemicolon" { OemSemicolonSelfAliased(); }
    else if c == "OemQuotes" { OemQuotesSelfAliased(); }
    else if c == "Add" { AddSelfAliased(); }
    else { SubtractSelfAliased(); }
  }

  /**
   * A self-aliased code is a fixed point of either table, except that the table as
   * written has no alias for the two shift-key codes.
   */
  lemma SelfAliasedFixed(c: string, table: AliasTable)
    requires IsSelfAliased(c)
    requires table == AsWritten ==> !IsShiftKeyCode(c)
    ensures NormalizeKeyboardWith(TextCode(c), table) == Some(c)
  {
    KeyboardTextOfAlnum(c, table);
  }

  lemma LetterCodeFixed(c: string, table: AliasTable)
    requires IsLetterKeyCode(c)
    ensures NormalizeKeyboardWith(TextCode(c), table) == Some(c)
  {
    var token := Lower(c);
    assert token == [LowerChar(c[0])];
    KeyboardTextOfAlnum(c, table);
    NoKeyboardAlias(table, token);
    assert !IsDigits(token[1..]);
    assert FunctionKeyDigits(token) == None;
    assert NumpadDigit(token) == None && DKeyDigit(token) == None;
    assert [UpperChar(token[0])] == c;
  }

  lemma DigitCodeFixed(c: string, table: AliasTable)
    requires IsDigitKeyCode(c)
    ensures NormalizeKeyboardWith(TextCode(c), table) == Some(c)
  {
    var token := Lower(c);
    assert token == ['d', c[1]];
    KeyboardTextOfAlnum(c, table);
    NoKeyboardAlias(table, token);
    NotPrefixAt(token, "f", 0);
    assert token[1..] == [c[1]];
    assert DigitSuffix(token, "d") == Some([c[1]]);
    assert DKeyDigit(token) == Some([c[1]]);
    SingleDigitCode("D", c[1]);
    assert c == "D" + [c[1]];
  }

  lemma FunctionCodeFixed(c: string, table: AliasTable)
    requires IsFunctionKeyCode(c)
    ensures NormalizeKeyboardWith(TextCode(c), table) == Some(c)
  {
    var ds := c[1..];
    var token := Lower(c);
    assert token == "f" + ds;
    KeyboardTextOfAlnum(c, table);
    NoKeyboardAlias(table, token);
    assert token[1..] == ds;
    assert DigitSuffix(token, "f") == Some(ds);
    assert FunctionKeyDigits(token) == Some(ds);
    assert c == "F" + ds;
  }

  lemma NumPadCodeFixed(c: string, table: AliasTable)
    requires IsNumPadCode(c)
    ensures NormalizeKeyboardWith(TextCode(c), table) == Some(c)
  {
    var token := Lower(c);
    assert token == "numpad" + [c[6]];
    KeyboardTextOfAlnum(c, table);
    NoKeyboardAlias(table, token);
    NotPrefixAt(token, "f", 0);
    assert NumpadDigit(token) == Some([c[6]]);
    SingleDigitCode("NumPad", c[6]);
    assert c == "NumPad" + [c[6]];
  }

  /**
   * Every canonical keyboard code normalises to itself with the corrected table, and with
   * the table as written every one but the two shift-key codes does.
   */
  lemma CanonicalKeyboardFixed(c: string, table: AliasTable)
    requires IsCanonicalKeyboardCode(c)
    requires table == AsWritten ==> !IsShiftKeyCode(c)
    ensures NormalizeKeyboardWith(TextCode(c), table) == Some(c)
  {
    if c in NamedKeyboardCodes {
      NamedCodeSelfAliased(c);
      SelfAliasedFixed(c, table);
    } else if IsFunctionKeyCode(c) {
      FunctionCodeFixed(c, table);
    } else if IsLetterKeyCode(c) {
      LetterCodeFixed(c, table);
    } else if IsDigitKeyCode(c) {
      DigitCodeFixed(c, table);
    } else {
      NumPadCodeFixed(c, table);
    }
  }

  /** What the program does with a canonical keyboard code: it is kept, unless it is a shift-key code, which is lost. */
  lemma CanonicalKeyboardAsWritten(c: string)
    requires IsCanonicalKeyboardCode(c)
    ensures NormalizeKeyboardCode(TextCode(c)) == if IsShiftKeyCode(c) then None else Some(c)
  {
    if c == "LShiftKey" {
      LShiftKeyLostAsWritten();
    } else if c == "RShiftKey" {
      RShiftKeyLostAsWritten();
    } else {
      CanonicalKeyboardFixed(c, AsWritten);
    }
  }

  /**
   * With the corrected table, normalising a keyboard code twice gives the same as
   * normalising it once: whatever the normaliser returns is returned again when fed back in.
   */
  lemma KeyboardNormalizationIdempotent(raw: RawCode)
    ensures NormalizeKeyboardCodeCorrected(raw).Some? ==>
      NormalizeKeyboardCodeCorrected(TextCode(NormalizeKeyboardCodeCorrected(raw).value)) == NormalizeKeyboardCodeCorrected(raw)
  {
    KeyboardOutputsCanonical(raw, WithShiftKeys);
    if NormalizeKeyboardCodeCorrected(raw).Some? {
      CanonicalKeyboardFixed(NormalizeKeyboardCodeCorrected(raw).value, WithShiftKeys);
    }
  }

  /**
   * With the table as written, a normalised keyboard code normalises to itself again
   * unless it is `LShiftKey` or `RShiftKey`, which normalise to None.
   */
  lemma KeyboardRenormalizedAsWritten(raw: RawCode)
    ensures NormalizeKeyboardCode(raw).Some? ==>
      var c := NormalizeKeyboardCode(raw).value;
      NormalizeKeyboardCode(TextCode(c)) == if IsShiftKeyCode(c) then None else Some(c)
  {
    KeyboardOutputsCanonical(raw, AsWritten);
    if NormalizeKeyboardCode(raw).Some? {
      CanonicalKeyboardAsWritten(NormalizeKeyboardCode(raw).value);
    }
  }

  lemma TokenRuleOfAlnum(c: string, token: string, table: AliasTable)
    requires c != [] && IsAlnumAscii(c) && Lower(c) == token
    ensures NormalizeKeyboardWith(TextCode(c), table) == KeyboardFromToken(token, table)
  {
    KeyboardTextOfAlnum(c, table);
  }

  /** A word of two or more letters that is no alias matches none of the token rules. */
  predicate LowerWord(s: string) {
    forall i | 0 <= i < |s| :: IsLowerLetter(s[i])
  }

  lemma UnaliasedWordUnknown(token: string, table: AliasTable)
    requires |token| >= 2 && LowerWord(token)
    requires KeyboardAliasIn(table, token) == None
    ensures KeyboardFromToken(token, table) == None
  {
    assert !IsDigit(token[1]);
    assert !IsDigits(token[1..]);
    if |token| >= 3 {
      assert !IsDigit(token[2]);
      assert !IsDigits(token[2..]);
    } else {
      assert token[2..] == [];
    }
    if |token| >= 4 {
      assert !IsDigit(token[3]);
      assert !IsDigits(token[3..]);
    }
    if |token| >= 7 {
      assert !IsDigit(token[6]);
      assert !IsDigits(token[6..]);
    }
  }

  lemma LShiftTokenNotAliased()
    ensures KeyboardAlias("lshiftkey") == None && LowerWord("lshiftkey")
  {
  }

  lemma RShiftTokenNotAliased()
    ensures KeyboardAlias("rshiftkey") == None && LowerWord("rshiftkey")
  {
  }

  lemma LShiftKeyLostAsWritten()
    ensures NormalizeKeyboardCode(TextCode("LShiftKey")) == None
  {
    LShiftKeyWord();
    TokenRuleOfAlnum("LShiftKey", "lshiftkey", AsWritten);
    LShiftTokenNotAliased();
    UnaliasedWordUnknown("lshiftkey", AsWritten);
  }

  lemma RShiftKeyLostAsWritten()
    ensures NormalizeKeyboardCode(TextCode("RShiftKey")) == None
  {
    RShiftKeyWord();
    TokenRuleOfAlnum("RShiftKey", "rshiftkey", AsWritten);
    RShiftTokenNotAliased();
    UnaliasedWordUnknown("rshiftkey", AsWritten);
  }

  lemma LeftShiftNameAsWritten()
    ensures NormalizeKeyboardCode(TextCode("LShift")) == Some("LShiftKey")
  {
    LShiftWord();
    TokenRuleOfAlnum("LShift", "lshift", AsWritten);
    LShiftTokenAsWritten();
  }

  lemma LShiftWord()
    ensures IsAlnumAscii("LShift") && Lower("LShift") == "lshift"
  {
  }

  lemma LShiftTokenAsWritten()
    ensures KeyboardFromToken("lshift", AsWritten) == Some("LShiftKey")
  {
    assert KeyboardAlias("lshift") == Some("LShiftKey");
  }

  lemma RightShiftNameAsWritten()
    ensures NormalizeKeyboardCode(TextCode("RShift")) == Some("RShiftKey")
  {
    RShiftWord();
    TokenRuleOfAlnum("RShift", "rshift", AsWritten);
    RShiftTokenAsWritten();
  }

  lemma RShiftWord()
    ensures IsAlnumAscii("RShift") && Lower("RShift") == "rshift"
  {
  }

  lemma RShiftTokenAsWritten()
    ensures KeyboardFromToken("rshift", AsWritten) == Some("RShiftKey")
  {
    assert KeyboardAlias("rshift") == Some("RShiftKey");
  }

  /**
   * With the source's alias table, `LShift` normalises to `LShiftKey` (and `RShift` to
   * `RShiftKey`), but those codes themselves normalise to None: normalisation is not
   * idempotent, and a rule configured with either shift key can never match an event.
   */
  lemma ShiftKeyCodesLostAsWritten()
    ensures NormalizeKeyboardCode(TextCode("LShift")) == Some("LShiftKey")
    ensures NormalizeKeyboardCode(TextCode("LShiftKey")) == None
    ensures NormalizeKeyboardCode(TextCode("RShift")) == Some("RShiftKey")
    ensures NormalizeKeyboardCode(TextCode("RShiftKey")) == None
  {
    LeftShiftNameAsWritten();
    LShiftKeyLostAsWritten();
    RightShiftNameAsWritten();
    RShiftKeyLostAsWritten();
  }
}
