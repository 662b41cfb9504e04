/** The classification of a project into one of ten categories, with an
    `Undefined` fallback, and its three conversions: name to category,
    byte id to category, and category back to id and name. Every conversion
    is total: an unknown name or id becomes `Undefined` instead of an error.
    `Debug` and `Display` are the two strings the category formats to. */
module Meta {
  import opened Decimal

  /** An unsigned byte, the type of a category id. */
  newtype u8 = x: int | 0 <= x < 256

  datatype Category =
    | AdminTools
    | Chat
    | DeveloperTools
    | Economy
    | Gameplay
    | Games
    | Protection
    | RolePlaying
    | WorldManagement
    | Miscellaneous
    | Undefined

  /** Reference table: the name of the named category whose id is the index. */
  const NameTable: seq<string> := [
    "AdminTools", "Chat", "DeveloperTools", "Economy", "Gameplay",
    "Games", "Protection", "RolePlaying", "WorldManagement", "Miscellaneous"
  ]

  /** Exact, case-sensitive match on the ten names; anything else is `Undefined`. */
  function FromString(name: string): (c: Category)
    ensures c == Undefined <==> name !in NameTable
    ensures c != Undefined ==> NameTable[ToId(c)] == name
  {
    match name
    case "AdminTools" => AdminTools
    case "Chat" => Chat
    case "DeveloperTools" => DeveloperTools
    case "Economy" => Economy
    case "Gameplay" => Gameplay
    case "Games" => Games
    case "Protection" => Protection
    case "RolePlaying" => RolePlaying
    case "WorldManagement" => WorldManagement
    case "Miscellaneous" => Miscellaneous
    case _ => Undefined
  }

  /** Ids 0 to 9 name the ten categories; every other byte is `Undefined`. */
  function FromId(id: u8): (c: Category)
    ensures c == Undefined <==> id >= 10
    ensures c != Undefined ==> NameTable[id] == AsString(c)
  {
    match id
    case 0 => AdminTools
    case 1 => Chat
    case 2 => DeveloperTools
    case 3 => Economy
    case 4 => Gameplay
    case 5 => Games
    case 6 => Protection
    case 7 => RolePlaying
    case 8 => WorldManagement
    case 9 => Miscellaneous
    case _ => Undefined
  }

  /** The id of a category: 0 to 9 for the named ones, 10 for `Undefined`. */
  function ToId(c: Category): (id: u8)
    ensures id <= 10
    ensures id == 10 <==> c == Undefined
  {
    match c
    case AdminTools => 0
    case Chat => 1
    case DeveloperTools => 2
    case Economy => 3
    case Gameplay => 4
    case Games => 5
    case Protection => 6
    case RolePlaying => 7
    case WorldManagement => 8
    case Miscellaneous => 9
    case Undefined => 10
  }

  /** The name of a category: its table entry, or "Undefined". */
  function AsString(c: Category): (name: string)
    ensures name in NameTable + ["Undefined"]
    ensures c != Undefined ==> name == NameTable[ToId(c)]
    ensures c == Undefined ==> name == "Undefined"
  {
    match c
    case AdminTools => "AdminTools"
    case Chat => "Chat"
    case DeveloperTools => "DeveloperTools"
    case Economy => "Economy"
    case Gameplay => "Gameplay"
    case Games => "Games"
    case Protection => "Protection"
    case RolePlaying => "RolePlaying"
    case WorldManagement => "WorldManagement"
    case Miscellaneous => "Miscellaneous"
    case Undefined => "Undefined"
  }

  /** What `{}` prints: the bare name, which `FromString` reads back. */
  function Display(c: Category): (s: string)
    ensures s == AsString(c)
    ensures FromString(s) == c
  {
    NameRoundTrip(c);
    AsString(c)
  }

  const DebugPrefix: string := "Category { id: "

  /** What `Debug` prints after the id: the name field and the closing brace. */
  function DebugTail(c: Category): (t: string)
    ensures |t| > 0 && t[0] == ','
  {
    ", name: " + AsString(c) + " }"
  }

  /** What `{:?}` prints: the prefix, then a field of decimal digits that
      reads back as the id with no leading zero, then the name field and the
      closing brace. */
  function Debug(c: Category): (s: string)
    ensures |s| > |DebugPrefix| + |DebugTail(c)|
    ensures s[..|DebugPrefix|] == DebugPrefix
    ensures s[|s| - |DebugTail(c)|..] == DebugTail(c)
    ensures AllDigits(s[|DebugPrefix|..|s| - |DebugTail(c)|])
    ensures ValueOf(s[|DebugPrefix|..|s| - |DebugTail(c)|]) == ToId(c) as nat
    ensures s[|DebugPrefix|] == '0' ==> |s| - |DebugTail(c)| - |DebugPrefix| == 1
  {
    var digits := ToDecimal(ToId(c) as nat);
    ValueOfToDecimal(ToId(c) as nat);
    var s := DebugPrefix + digits + DebugTail(c);
    assert s[|DebugPrefix|..|s| - |DebugTail(c)|] == digits;
    s
  }

  // ---------------------------------------------------------------- ids

  /** Every category, `Undefined` included, survives a trip through its id. */
  lemma IdRoundTrip(c: Category)
    ensures FromId(ToId(c)) == c
  {
  }

  /** Decoding an id and encoding it again gives the id back when it names a
      category, and 10 for every other byte. */
  lemma ToIdFromId(id: u8)
    ensures id <= 9 ==> ToId(FromId(id)) == id
    ensures id >= 10 ==> ToId(FromId(id)) == 10
  {
  }

  /** Distinct categories have distinct ids. */
  lemma ToIdInjective(a: Category, b: Category)
    ensures ToId(a) == ToId(b) ==> a == b
  {
  }

  // ---------------------------------------------------------------- names

  /** Every category survives a trip through its name; for `Undefined` only
      because "Undefined" is not one of the ten names and falls through. */
  lemma NameRoundTrip(c: Category)
    ensures FromString(AsString(c)) == c
  {
  }

  /** Distinct categories have distinct names. */
  lemma AsStringInjective(a: Category, b: Category)
    ensures AsString(a) == AsString(b) ==> a == b
  {
  }

  /** Matching is exact and case-sensitive: a different case, surrounding
      space or the empty string is not a name. */
  lemma FromStringIsExact()
    ensures FromString("") == Undefined
    ensures FromString("economy") == Undefined
    ensures FromString(" Chat") == Undefined
    ensures FromString("Chat ") == Undefined
    ensures FromString("ADMINTOOLS") == Undefined
    ensures FromString("Undefined") == Undefined
  {
  }

  // ---------------------------------------------------------------- formatting

  /** The id field of `Debug` is one digit for a named category and "10"
      for `Undefined`. */
  lemma DebugIdDigits(c: Category)
    ensures c != Undefined ==>
      Debug(c)[|DebugPrefix|..|Debug(c)| - |DebugTail(c)|] == [DigitChar(ToId(c) as nat)]
    ensures c == Undefined ==>
      Debug(c)[|DebugPrefix|..|Debug(c)| - |DebugTail(c)|] == "10"
  {
  }

  /** The two forms for `Economy`. */
  lemma FormatEconomy()
    ensures Debug(Economy) == "Category { id: 3, name: Economy }"
    ensures Display(Economy) == "Economy"
  {
    assert ToDecimal(3) == "3";
  }

  /** `Undefined` prints its id as the two digits of 10. */
  lemma FormatUndefined()
    ensures Debug(Undefined) == "Category { id: 10, name: Undefined }"
    ensures Display(Undefined) == "Undefined"
  {
    assert ToDecimal(10) == "10";
  }

  /** Distinct categories print distinct `Debug` strings: the comma that
      starts the tail cannot sit inside the other's digit field, so both id
      fields are the same slice, and it reads back as one id. */
  lemma DebugInjective(a: Category, b: Category)
    ensures Debug(a) == Debug(b) ==> a == b
  {
  }
}
