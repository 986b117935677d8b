/** Character conversion of pyasm6502/package/text_conversion.py: the
    `raw`, `pet` and `scr` tables, custom tables and the XOR variant used by
    the text directives. */
module TextConv {
  import opened Wrappers
  import opened Bits
  import opened Strings

  /** The PETSCII-like code of character code `c` (text_conversion.py:29-45). */
  function PetCode(c: int): int
  {
    if 65 <= c <= 90 then c - 64
    else if 97 <= c <= 122 then c - 32
    else if c == 64 then 0
    else if 91 <= c <= 95 then c - 64
    else c
  }

  /** The screen code of character code `c` (text_conversion.py:51-66). */
  function ScreenCode(c: int): int
  {
    if 65 <= c <= 90 then c - 64
    else if 97 <= c <= 122 then c - 96
    else if 48 <= c <= 57 then c - 48 + 16
    else c
  }

  function PetTable(): (t: seq<int>)
    ensures |t| == 256 && forall i :: 0 <= i < 256 ==> t[i] == PetCode(i)
  {
    seq(256, i => PetCode(i))
  }

  function ScreenTable(): (t: seq<int>)
    ensures |t| == 256 && forall i :: 0 <= i < 256 ==> t[i] == ScreenCode(i)
  {
    seq(256, i => ScreenCode(i))
  }

  /** The PETSCII-like table moves letters and `@[\]^_` and keeps every other
      code below 256. */
  lemma PetTableGroups(c: char)
    requires (c as int) < 256
    ensures 'A' <= c <= 'Z' ==> 1 <= PetTable()[c as int] <= 26 && PetTable()[c as int] == c as int - 'A' as int + 1
    ensures 'a' <= c <= 'z' ==> 65 <= PetTable()[c as int] <= 90 && PetTable()[c as int] == c as int - 'a' as int + 65
    ensures c == '@' ==> PetTable()[c as int] == 0
    ensures c in "[\\]^_" ==> 27 <= PetTable()[c as int] <= 31
    ensures !(IsLetter(c) || c in "@[\\]^_") ==> PetTable()[c as int] == c as int
  {
  }

  /** The screen-code table folds both letter cases onto 1-26 and moves the
      digits to 16-25. */
  lemma ScreenTableGroups(c: char)
    requires (c as int) < 256
    ensures IsLetter(c) ==> 1 <= ScreenTable()[c as int] <= 26 && ScreenTable()[c as int] == ScreenTable()[ToUpper(c) as int]
    ensures IsDigit(c) ==> ScreenTable()[c as int] == c as int - '0' as int + 16
    ensures !IsAlnum(c) ==> ScreenTable()[c as int] == c as int
  {
  }

  /** The table a conversion uses: only `pet` and `scr` name one, and only
      through the entries stored as `petscii` and `screencode`
      (text_conversion.py:87-99). `None` means character codes. */
  function TableFor(name: string, tables: map<string, seq<int>>): Option<seq<int>>
  {
    if name == "pet" && "petscii" in tables then Some(tables["petscii"])
    else if name == "scr" && "screencode" in tables then Some(tables["screencode"])
    else None
  }

  /** Converting `text` with a table: codes within the table are looked
      up, the others pass through (text_conversion.py:101-110). */
  function Convert(text: string, table: Option<seq<int>>): (r: seq<int>)
    ensures |r| == |text|
    ensures table.None? ==> r == Ords(text)
    ensures forall k :: 0 <= k < |text| && (table.None? || text[k] as int >= |table.value|) ==> r[k] == text[k] as int
  {
    seq(|text|, k requires 0 <= k < |text| =>
      if table.Some? && (text[k] as int) < |table.value| then table.value[text[k] as int] else text[k] as int)
  }

  /** A table name other than `pet` and `scr`, custom names included,
      gives the plain character codes. */
  lemma OtherNamesAreRaw(name: string, tables: map<string, seq<int>>, text: string)
    requires name != "pet" && name != "scr"
    ensures Convert(text, TableFor(name, tables)) == Ords(text)
  {
  }

  /** One value of `convert_string_with_xor`: XOR with the mask, keep the low byte. */
  function XorByte(b: int, mask: int): (r: int)
    ensures 0 <= r < 256
  {
    LowByte(BitXor(b, mask));
    BitAnd(BitXor(b, mask), 255)
  }

  /** Between bytes the low-byte mask changes nothing. */
  lemma XorByteIsXor(b: int, mask: int)
    requires 0 <= b < 256 && 0 <= mask < 256
    ensures XorByte(b, mask) == BitXor(b, mask)
  {
    var x := BitXor(b, mask);
    Pow2Eight();
    XorBound(b, mask, 8);
    ByteMaskKeepsByte(x);
    assert XorByte(b, mask) == BitAnd(x, 255);
  }

  lemma ByteMaskKeepsByte(x: int)
    requires 0 <= x < 256
    ensures BitAnd(x, 255) == x
  {
    LowByte(x);
    ByteModIsByte(x);
  }

  lemma ByteModIsByte(x: int)
    requires 0 <= x < 256
    ensures x % 256 == x
  {
  }

  lemma Pow2Eight()
    ensures Pow2(8) == 256
  {
  }

  /** For a byte and a byte mask, applying the mask twice gives the byte back. */
  lemma XorByteRoundTrip(b: int, mask: int)
    requires 0 <= b < 256 && 0 <= mask < 256
    ensures XorByte(XorByte(b, mask), mask) == b
  {
    XorByteIsXor(b, mask);
    var once := XorByte(b, mask);
    XorByteIsXor(once, mask);
    XorInvolution(b, mask);
  }

  /** `convert_string_with_xor` (text_conversion.py:112-115) on converted values. */
  function XorBytes(converted: seq<int>, mask: int): (r: seq<int>)
    ensures |r| == |converted|
    ensures forall k :: 0 <= k < |r| ==> 0 <= r[k] < 256
  {
    seq(|converted|, k requires 0 <= k < |converted| => XorByte(converted[k], mask))
  }

  /** For byte values and a byte mask, applying the mask twice gives the
      values back. */
  lemma XorBytesRoundTrip(converted: seq<int>, mask: int)
    requires 0 <= mask < 256 && forall k :: 0 <= k < |converted| ==> 0 <= converted[k] < 256
    ensures XorBytes(XorBytes(converted, mask), mask) == converted
  {
    var twice := XorBytes(XorBytes(converted, mask), mask);
    forall k | 0 <= k < |converted|
      ensures twice[k] == converted[k]
    {
      XorByteRoundTrip(converted[k], mask);
    }
  }

  /** A table selected and loaded under a custom name is still not applied:
      conversion under that name gives character codes. */
  lemma CustomTablesAreNotApplied(name: string, table: seq<int>, tables: map<string, seq<int>>, text: string)
    requires name != "pet" && name != "scr" && |table| == 256
    ensures Convert(text, TableFor(name, tables[name := table])) == Ords(text)
  {
  }

  /** A custom table argument: a file path (not supported) or a list. */
  datatype TableData = Path(path: string) | Entries(entries: seq<int>)

  /** `TextConverter` (text_conversion.py:9-23). */
  class TextConverter {
    var currentTable: string
    var customTables: map<string, seq<int>>

    constructor()
      ensures currentTable == "raw"
      ensures customTables == map["petscii" := PetTable(), "screencode" := ScreenTable()]
    {
      currentTable := "raw";
      var pet := BuildPetTable();
      var scr := BuildScreenTable();
      customTables := map["petscii" := pet, "screencode" := scr];
    }

    /** The PETSCII-like table built in place (text_conversion.py:29-45). */
    static method BuildPetTable() returns (t: seq<int>)
      ensures t == PetTable()
    {
      var a := new int[256](i => i);
      for i := 65 to 91
        invariant forall j :: 0 <= j < 256 ==> a[j] == (if 65 <= j < i then j - 64 else j)
      {
        a[i] := i - 64;
      }
      for i := 97 to 123
        invariant forall j :: 0 <= j < 256 ==> a[j] == (if 65 <= j <= 90 then j - 64 else if 97 <= j < i then j - 32 else j)
      {
        a[i] := i - 32;
      }
      a[64] := 0;
      a[91] := 27;
      a[92] := 28;
      a[93] := 29;
      a[94] := 30;
      a[95] := 31;
      t := a[..];
      assert forall i :: 0 <= i < 256 ==> t[i] == PetCode(i);
    }

    /** The screen-code table built in place (text_conversion.py:51-66). */
    static method BuildScreenTable() returns (t: seq<int>)
      ensures t == ScreenTable()
    {
      var a := new int[256](i => i);
      for i := 65 to 91
        invariant forall j :: 0 <= j < 256 ==> a[j] == (if 65 <= j < i then j - 64 else j)
      {
        a[i] := i - 64;
      }
      for i := 97 to 123
        invariant forall j :: 0 <= j < 256 ==> a[j] == (if 65 <= j <= 90 then j - 64 else if 97 <= j < i then j - 96 else j)
      {
        a[i] := i - 96;
      }
      for i := 48 to 58
        invariant forall j :: 0 <= j < 256 ==>
          a[j] == (if 65 <= j <= 90 then j - 64 else if 97 <= j <= 122 then j - 96 else if 48 <= j < i then j - 48 + 16 else j)
      {
        a[i] := i - 48 + 16;
      }
      a[32] := 32;
      t := a[..];
      assert forall i :: 0 <= i < 256 ==> t[i] == ScreenCode(i);
    }

    /** `set_conversion_table` (text_conversion.py:70-79). */
    method SetConversionTable(name: string) returns (ok: bool)
      modifies this
      ensures ok <==> name in ["raw", "pet", "scr"] || name in old(customTables)
      ensures currentTable == (if ok then name else old(currentTable))
      ensures customTables == old(customTables)
    {
      if name == "raw" || name == "pet" || name == "scr" || name in customTables {
        currentTable := name;
        return true;
      }
      return false;
    }

    /** `get_current_table` (text_conversion.py:81-83). */
    function GetCurrentTable(): string
      reads this
    {
      currentTable
    }

    /** The table name `convert_string` uses: a non-empty override, else
        the current table. */
    function EffectiveName(override: Option<string>): string
      reads this
    {
      if override.Some? && override.value != "" then override.value else currentTable
    }

    /** `convert_string` (text_conversion.py:85-110): one value per character. */
    method ConvertString(text: string, override: Option<string>) returns (r: seq<int>)
      ensures r == Convert(text, TableFor(EffectiveName(override), customTables))
    {
      var table := TableFor(EffectiveName(override), customTables);
      if table.None? {
        return Ords(text);
      }
      var t := table.value;
      r := [];
      var i := 0;
      while i < |text|
        invariant 0 <= i <= |text| && |r| == i
        invariant forall k :: 0 <= k < i ==> r[k] == Convert(text, table)[k]
      {
        var code := text[i] as int;
        if code < |t| {
          r := r + [t[code]];
        } else {
          r := r + [code];
        }
        i := i + 1;
      }
    }

    /** `convert_string_with_xor` (text_conversion.py:112-115). */
    method ConvertStringWithXor(text: string, mask: int, override: Option<string>) returns (r: seq<int>)
      ensures r == XorBytes(Convert(text, TableFor(EffectiveName(override), customTables)), mask)
    {
      var converted := ConvertString(text, override);
      r := XorBytes(converted, mask);
    }

    /** `load_custom_table` (text_conversion.py:117-127): only a list of
        exactly 256 entries is stored. */
    method LoadCustomTable(name: string, data: TableData) returns (ok: bool)
      modifies this
      ensures ok <==> data.Entries? && |data.entries| == 256
      ensures customTables == (if ok then old(customTables)[name := data.entries] else old(customTables))
      ensures currentTable == old(currentTable)
    {
      if data.Entries? && |data.entries| == 256 {
        customTables := customTables[name := data.entries];
        return true;
      }
      return false;
    }
  }
}
