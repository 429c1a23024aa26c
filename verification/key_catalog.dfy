/**
 * The key catalog of src/d2rso/key_icon_registry.py: the list of selectable keys parsed
 * from a comma-separated spec string (`name|code` or a plain `code`, and a final empty
 * entry), and the case-insensitive lookup of an entry by its code.
 */
module KeyCatalog {
  import opened Wrappers
  import opened Text

  /** `KeyEntry`: the empty entry has neither name nor code. */
  datatype KeyEntry = KeyEntry(name: Option<string>, code: Option<string>)

  const NullEntry := KeyEntry(None, None)

  /** `_KEYS_SPEC` */
  const KeysSpec: string :=
    "A,B,C,D,E,F,G,H,I,J,K,L,M,"
    + "N,O,P,Q,R,S,T,U,V,W,X,Y,Z,"
    + "Comma|OemComma,~|OemTilde,[|OemOpenBrackets,]|OemCloseBrackets,"
    + ":|OemSemicolon,'|OemQuotes,1|D1,2|D2,3|D3,4|D4,5|D5,6|D6,7|D7,8|D8,"
    + "9|D9,0|D0,+|Add,-|Subtract,Esc|Escape,Enter,Return,Left Shift|LShiftKey,"
    + "Right Shift|RShiftKey,Left Alt|LMenu,Right Alt|RMenu,"
    + "Left Control|LControlKey,Right Control|RControlKey,F1,F2,F3,F4,F5,F6,F7,"
    + "F8,F9,F10,F11,F12,NumPad0,NumPad1,NumPad2,NumPad3,NumPad4,NumPad5,"
    + "NumPad6,NumPad7,NumPad8,NumPad9,Tab,Back,MOUSE1,MOUSE2,MOUSE3,MOUSEX1,"
    + "MOUSEX2,GamePad Button 0|Buttons0,GamePad Button 1|Buttons1,"
    + "GamePad Button 2|Buttons2,GamePad Button 3|Buttons3,"
    + "GamePad Button 4|Buttons4,GamePad Button 5|Buttons5,"
    + "GamePad Button 6|Buttons6,GamePad Button 7|Buttons7,"
    + "GamePad Button 8|Buttons8,GamePad Button 9|Buttons9"

  // ---------------------------------------------------------------------------
  // Splitting

  /** Python's `s.split(sep)`: the pieces between separators, at least one. */
  function SplitOn(s: string, sep: char): (r: seq<string>)
    ensures |r| >= 1
    ensures forall i | 0 <= i < |r| :: sep !in r[i]
  {
    if s == [] then [[]]
    else
      var rest := SplitOn(s[1..], sep);
      if s[0] == sep then [[]] + rest
      else [[s[0]] + rest[0]] + rest[1..]
  }

  /** Python's `sep.join(parts)`. */
  function JoinWith(parts: seq<string>, sep: char): string {
    if parts == [] then []
    else if |parts| == 1 then parts[0]
    else parts[0] + [sep] + JoinWith(parts[1..], sep)
  }

  /** Python's `s.split(sep, maxsplit=1)` when it splits: the text before the first separator and after it. */
  function SplitFirst(s: string, sep: char): (r: Option<(string, string)>)
    ensures r.None? <==> sep !in s
    ensures r.Some? ==> s == r.value.0 + [sep] + r.value.1 && sep !in r.value.0
  {
    if s == [] then None
    else if s[0] == sep then Some(([], s[1..]))
    else
      match SplitFirst(s[1..], sep)
      case None => None
      case Some(parts) => Some(([s[0]] + parts.0, parts.1))
  }

  // ---------------------------------------------------------------------------
  // Parsing

  /**
   * One comma item of the spec: nothing for a blank item, otherwise the trimmed item split
   * at its first bar into name and code, or used as both when it has no bar.
   */
  function ParseItem(raw: string): (r: Option<KeyEntry>)
    ensures r.None? <==> Strip(raw) == []
    ensures r.Some? ==> r.value.name.Some? && r.value.code.Some? && '|' !in r.value.name.value
    ensures r.Some? && '|' !in Strip(raw) ==> r.value.name == r.value.code == Some(Strip(raw))
    ensures r.Some? && '|' in Strip(raw) ==> Strip(raw) == r.value.name.value + "|" + r.value.code.value
  {
    var item := Strip(raw);
    if item == [] then None
    else
      match SplitFirst(item, '|')
      case None => Some(KeyEntry(Some(item), Some(item)))
      case Some(parts) => Some(KeyEntry(Some(parts.0), Some(parts.1)))
  }

  /** The entry of an item, if any, as a list. */
  function ItemEntries(raw: string): seq<KeyEntry> {
    match ParseItem(raw)
    case None => []
    case Some(e) => [e]
  }

  /** The entries of a list of items, in order. */
  function ParseItems(items: seq<string>): seq<KeyEntry> {
    if items == [] then []
    else
      var n := |items| - 1;
      ParseItems(items[..n]) + ItemEntries(items[n])
  }

  /** What `_parse_key_entries` returns: the entries of the comma items, then the empty entry. */
  function ParsedEntries(spec: string): seq<KeyEntry> {
    ParseItems(SplitOn(spec, ',')) + [NullEntry]
  }

  /** `_parse_key_entries` */
  method ParseKeyEntries(spec: string) returns (entries: seq<KeyEntry>)
    ensures entries == ParsedEntries(spec)
  {
    var items := SplitOn(spec, ',');
    entries := [];
    for k := 0 to |items|
      invariant entries == ParseItems(items[..k])
    {
      assert items[..k + 1][..k] == items[..k];
      var item := Strip(items[k]);
      if item == [] {
        continue;
      }
      var parts := SplitFirst(item, '|');
      if parts.None? {
        entries := entries + [KeyEntry(Some(item), Some(item))];
      } else {
        entries := entries + [KeyEntry(Some(parts.value.0), Some(parts.value.1))];
      }
    }
    assert items[..|items|] == items;
    entries := entries + [NullEntry];
  }

  // ---------------------------------------------------------------------------
  // Lookup

  /** Backslashes turned into slashes. */
  function SlashesForBackslashes(s: string): (r: string)
    ensures |r| == |s| && forall i | 0 <= i < |s| :: r[i] == if s[i] == '\\' then '/' else s[i]
  {
    seq(|s|, i requires 0 <= i < |s| => if s[i] == '\\' then '/' else s[i])
  }

  /** `_normalize_lookup` */
  function NormalizeLookup(value: string): string {
    Lower(Strip(SlashesForBackslashes(value)))
  }

  /** The first entry without a code, as `next(...)` finds it. */
  function FirstNull(entries: seq<KeyEntry>): Option<KeyEntry> {
    if entries == [] then None
    else if entries[0].code.None? then Some(entries[0])
    else FirstNull(entries[1..])
  }

  /**
   * The `_keys_by_code` comprehension: every entry with a code under its normalised code,
   * a later entry replacing an earlier one with the same normalised code.
   */
  function CodeIndex(entries: seq<KeyEntry>): map<string, KeyEntry> {
    if entries == [] then map[]
    else
      var n := |entries| - 1;
      var earlier := CodeIndex(entries[..n]);
      match entries[n].code
      case None => earlier
      case Some(c) => earlier[NormalizeLookup(c) := entries[n]]
  }

  /** An entry whose code normalises to `key`. */
  predicate HasCodeFor(entries: seq<KeyEntry>, key: string) {
    exists i | 0 <= i < |entries| :: entries[i].code.Some? && NormalizeLookup(entries[i].code.value) == key
  }

  /** The entries with a code, in order. */
  function WithCodes(entries: seq<KeyEntry>): (r: seq<KeyEntry>)
    ensures forall e | e in r :: e in entries && e.code.Some?
  {
    if entries == [] then []
    else (if entries[0].code.Some? then [entries[0]] else []) + WithCodes(entries[1..])
  }

  /** `KeyIconRegistry`, its key half: the entries, the empty entry and the lookup table. */
  class KeyIconRegistry {
    const availableKeys: seq<KeyEntry>
    const nullKey: Option<KeyEntry>
    const keysByCode: map<string, KeyEntry>

    /** What the constructor sets up. */
    predicate Valid() {
      && availableKeys == ParsedEntries(KeysSpec)
      && nullKey == FirstNull(availableKeys)
      && keysByCode == CodeIndex(availableKeys)
    }

    constructor ()
      ensures Valid()
    {
      var entries := ParseKeyEntries(KeysSpec);
      availableKeys := entries;
      nullKey := FirstNull(entries);
      keysByCode := CodeIndex(entries);
    }

    /**
     * `get_key`: no code or a blank one gives the empty entry; any other code gives the
     * entry whose code matches it after normalisation (the last such entry), or nothing.
     */
    function GetKey(code: Option<string>): (r: Option<KeyEntry>)
      requires Valid()
      ensures code.None? || NormalizeLookup(code.value) == [] ==> r == Some(NullEntry)
      ensures code.Some? && NormalizeLookup(code.value) != [] ==>
        (r.Some? <==> HasCodeFor(availableKeys, NormalizeLookup(code.value)))
      ensures code.Some? && NormalizeLookup(code.value) != [] && r.Some? ==>
        r.value in availableKeys && r.value.code.Some?
        && NormalizeLookup(r.value.code.value) == NormalizeLookup(code.value)
    {
      ParsedEntriesShape(KeysSpec);
      if code.None? then nullKey
      else
        var normalized := NormalizeLookup(code.value);
        if normalized == [] then nullKey
        else
          CodeIndexSpec(availableKeys);
          if normalized in keysByCode then Some(keysByCode[normalized]) else None
    }

    /** `list_key_entries`: every entry, or only those with a code, in catalog order. */
    function ListKeyEntries(includeEmpty: bool): (r: seq<KeyEntry>)
      requires Valid()
      ensures includeEmpty ==> r == availableKeys
      ensures !includeEmpty ==> r == ParseItems(SplitOn(KeysSpec, ','))
    {
      if includeEmpty then availableKeys
      else
        ParsedEntriesShape(KeysSpec);
        WithCodesOfCoded(ParseItems(SplitOn(KeysSpec, ',')));
        WithCodesAppend(ParseItems(SplitOn(KeysSpec, ',')), [NullEntry]);
        WithCodes(availableKeys)
    }
  }

  // ---------------------------------------------------------------------------
  // Lemmas

  /**
   * Every parsed item has a name and a code, and the list ends with the single empty
   * entry, which is therefore the first (and only) entry without a code.
   */
  lemma ParsedEntriesShape(spec: string)
    ensures var r := ParsedEntries(spec);
      && r[|r| - 1] == NullEntry
      && (forall i | 0 <= i < |r| - 1 :: r[i].name.Some? && r[i].code.Some?)
      && FirstNull(r) == Some(NullEntry)
  {
    var items := ParseItems(SplitOn(spec, ','));
    ParseItemsHaveCodes(SplitOn(spec, ','));
    FirstNullAfterCoded(items, NullEntry);
  }

  lemma {:induction false} ParseItemsHaveCodes(items: seq<string>)
    ensures forall e | e in ParseItems(items) :: e.name.Some? && e.code.Some?
  {
    if items != [] {
      ParseItemsHaveCodes(items[..|items| - 1]);
    }
  }

  lemma {:induction false} FirstNullAfterCoded(coded: seq<KeyEntry>, last: KeyEntry)
    requires forall e | e in coded :: e.code.Some?
    requires last.code.None?
    ensures FirstNull(coded + [last]) == Some(last)
  {
    if coded != [] {
      assert (coded + [last])[1..] == coded[1..] + [last];
      FirstNullAfterCoded(coded[1..], last);
    }
  }

  /** Parsing items one list after another gives the entries of the first list, then of the second. */
  lemma {:induction false} ParseItemsAppend(a: seq<string>, b: seq<string>)
    ensures ParseItems(a + b) == ParseItems(a) + ParseItems(b)
  {
    if b == [] {
      assert a + b == a;
    } else {
      var n := |b| - 1;
      assert (a + b)[..|a + b| - 1] == a + b[..n];
      assert (a + b)[|a + b| - 1] == b[n];
      ParseItemsAppend(a, b[..n]);
    }
  }

  /** Joining the pieces of a split gives back the string. */
  lemma {:induction false} SplitJoin(s: string, sep: char)
    ensures JoinWith(SplitOn(s, sep), sep) == s
  {
    if s != [] {
      var rest := SplitOn(s[1..], sep);
      SplitJoin(s[1..], sep);
      if s[0] == sep {
        assert ([[]] + rest)[1..] == rest;
      } else {
        var r := [[s[0]] + rest[0]] + rest[1..];
        if |rest| == 1 {
          assert r == [[s[0]] + rest[0]];
        } else {
          assert r[1..] == rest[1..];
          assert JoinWith(rest, sep) == rest[0] + [sep] + JoinWith(rest[1..], sep);
        }
      }
    }
  }

  /** The lookup table holds exactly the normalised codes, each with an entry of that code. */
  lemma {:induction false} CodeIndexSpec(entries: seq<KeyEntry>)
    ensures forall key :: key in CodeIndex(entries) <==> HasCodeFor(entries, key)
    ensures forall key | key in CodeIndex(entries) ::
      CodeIndex(entries)[key] in entries && CodeIndex(entries)[key].code.Some?
      && NormalizeLookup(CodeIndex(entries)[key].code.value) == key
  {
    if entries != [] {
      var n := |entries| - 1;
      CodeIndexSpec(entries[..n]);
      forall key
        ensures HasCodeFor(entries, key) <==>
          (HasCodeFor(entries[..n], key) || (entries[n].code.Some? && NormalizeLookup(entries[n].code.value) == key))
      {
        if HasCodeFor(entries[..n], key) {
          var i :| 0 <= i < n && entries[..n][i].code.Some? && NormalizeLookup(entries[..n][i].code.value) == key;
          assert entries[i] == entries[..n][i];
        }
        if HasCodeFor(entries, key) {
          var i :| 0 <= i < |entries| && entries[i].code.Some? && NormalizeLookup(entries[i].code.value) == key;
          if i < n {
            assert entries[..n][i] == entries[i];
          }
        }
      }
      assert forall e | e in entries[..n] :: e in entries;
    }
  }

  lemma {:induction false} WithCodesOfCoded(entries: seq<KeyEntry>)
    requires forall e | e in entries :: e.code.Some?
    ensures WithCodes(entries) == entries
  {
    if entries != [] {
      assert entries == [entries[0]] + entries[1..];
      WithCodesOfCoded(entries[1..]);
    }
  }

  lemma {:induction false} WithCodesAppend(a: seq<KeyEntry>, b: seq<KeyEntry>)
    ensures WithCodes(a + b) == WithCodes(a) + WithCodes(b)
  {
    if a == [] {
      assert a + b == b;
    } else {
      assert (a + b)[0] == a[0];
      assert (a + b)[1..] == a[1..] + b;
      WithCodesAppend(a[1..], b);
    }
  }

  /** A normalised code has no backslash and no upper-case letter, and normalising it again changes nothing. */
  lemma NormalizeLookupIdempotent(value: string)
    ensures var n := NormalizeLookup(value);
      && (forall i | 0 <= i < |n| :: n[i] != '\\' && !IsUpperLetter(n[i]))
      && NormalizeLookup(n) == n
  {
    var replaced := SlashesForBackslashes(value);
    var t := Strip(replaced);
    var n := Lower(t);
    StripSpec(replaced);
    assert forall i | 0 <= i < |t| :: t[i] in replaced;
    assert SlashesForBackslashes(n) == n;
    assert n == [] || (!IsSpace(n[0]) && !IsSpace(n[|n| - 1]));
    StripOfTrimmed(n);
    LowerIdempotent(t);
  }

  /** A spec whose first item is `A` yields `A` as its first entry. */
  lemma FirstEntryOf(spec: string)
    requires |spec| >= 2 && spec[0] == 'A' && spec[1] == ','
    ensures ParsedEntries(spec)[0] == KeyEntry(Some("A"), Some("A"))
  {
    var pieces := SplitOn(spec, ',');
    var rest := SplitOn(spec[2..], ',');
    assert spec[1..][1..] == spec[2..];
    assert SplitOn(spec[1..], ',') == [[]] + rest;
    assert pieces[0] == "A";
    assert pieces == ["A"] + pieces[1..];
    ParseItemsAppend(["A"], pieces[1..]);
    assert ParseItems(["A"]) == ParseItems([]) + ItemEntries("A");
    StripOfTrimmed("A");
  }

  /** The catalog's first entry is `A`. */
  lemma FirstEntryIsA()
    ensures ParsedEntries(KeysSpec)[0] == KeyEntry(Some("A"), Some("A"))
  {
    assert KeysSpec[0] == 'A' && KeysSpec[1] == ',';
    FirstEntryOf(KeysSpec);
  }
}
