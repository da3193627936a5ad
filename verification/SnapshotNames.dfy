/** File names for arbitrary ids (`escape_component` in `src/model_input_store.rs`):
percent-encoding as in section 2.1 of RFC 3986, byte by byte. */
module SnapshotNames {
  import opened Text

  type Byte = b: int | 0 <= b < 256

  type Id = seq<Byte>

  predicate IsPlainChar(ch: char) {
    'a' <= ch <= 'z' || 'A' <= ch <= 'Z' || '0' <= ch <= '9' || ch == '-' || ch == '_' || ch == '.'
  }

  function HexDigit(n: int): (digit: char)
    requires 0 <= n < 16
  {
    if n < 10 then '0' + n as char else 'A' + (n - 10) as char
  }

  function HexValue(digit: char): (n: int) {
    if '0' <= digit <= '9' then digit as int - '0' as int
    else if 'A' <= digit <= 'F' then digit as int - 'A' as int + 10
    else -1
  }

  function EscapeByte(b: Byte): string {
    if IsPlainChar(b as char) then [b as char] else ['%', HexDigit(b / 16), HexDigit(b % 16)]
  }

  function EscapeBytes(value: Id): string {
    if value == [] then "" else EscapeBytes(value[..|value| - 1]) + EscapeByte(value[|value| - 1])
  }

  function Escaped(value: Id): string {
    if value == [] then "%00" else EscapeBytes(value)
  }

  // One letter, digit, '-', '_' or '.', or a percent sign and its two hex digits.
  ghost predicate NamesByte(name: string, b: Byte) {
    if || 'a' as int <= b <= 'z' as int || 'A' as int <= b <= 'Z' as int || '0' as int <= b <= '9' as int
       || b == '-' as int || b == '_' as int || b == '.' as int
    then name == [b as char]
    else name == ['%', "0123456789ABCDEF"[b / 16], "0123456789ABCDEF"[b % 16]]
  }

  // The names of the bytes, one after another.
  ghost predicate Spells(name: string, value: Id)
    decreases |value|
  {
    if value == [] then name == ""
    else exists n: nat :: n <= |name| && Spells(name[..n], value[..|value| - 1]) && NamesByte(name[n..], value[|value| - 1])
  }

  lemma EscapeByteNames(b: Byte)
    ensures NamesByte(EscapeByte(b), b)
  {
  }

  lemma {:induction false} EscapeBytesSpells(value: Id)
    ensures Spells(EscapeBytes(value), value)
  {
    hide NamesByte, EscapeByte;
    if value != [] {
      var front, last := value[..|value| - 1], value[|value| - 1];
      var name, n := EscapeBytes(value), |EscapeBytes(front)|;
      EscapeBytesSpells(front);
      EscapeByteNames(last);
      assert name[..n] == EscapeBytes(front) && name[n..] == EscapeByte(last);
    }
  }

  // Letters, digits, '-', '_', '.' and percent signs, so neither separator nor NUL.
  ghost predicate IsOneComponent(name: string) {
    && name != "" && '/' !in name && '\\' !in name && '\0' !in name
    && forall ch :: ch in name ==>
         'a' <= ch <= 'z' || 'A' <= ch <= 'Z' || '0' <= ch <= '9' || ch == '-' || ch == '_' || ch == '.' || ch == '%'
  }

  lemma EscapeByteIsPlain(b: Byte)
    ensures IsOneComponent(EscapeByte(b))
  {
  }

  lemma {:induction false} EscapeBytesArePlain(value: Id)
    requires value != []
    ensures IsOneComponent(EscapeBytes(value))
  {
    hide EscapeByte;
    EscapeByteIsPlain(value[|value| - 1]);
    if |value| > 1 {
      EscapeBytesArePlain(value[..|value| - 1]);
    }
  }

  lemma EscapedIsNamed(value: Id)
    ensures if value == [] then Escaped(value) == "%00" else Spells(Escaped(value), value)
    ensures IsOneComponent(Escaped(value))
  {
    hide Spells, EscapeBytes;
    if value != [] {
      EscapeBytesSpells(value);
      EscapeBytesArePlain(value);
    }
  }

  method EscapeComponent(value: Id) returns (out: string)
    ensures out == Escaped(value)
    ensures if value == [] then out == "%00" else Spells(out, value)
    ensures IsOneComponent(out)
  {
    EscapedIsNamed(value);
    hide Spells, IsOneComponent;
    out := "";
    for i := 0 to |value|
      invariant out == EscapeBytes(value[..i])
      invariant i > 0 ==> out != ""
    {
      assert value[..i + 1][..i] == value[..i];
      var ch := value[i] as char;
      if IsPlainChar(ch) {
        out := out + [ch];
      } else {
        out := out + ['%'];
        out := out + [HexDigit(value[i] / 16), HexDigit(value[i] % 16)];
      }
    }
    assert value[..|value|] == value;
    if out == "" {
      out := "%00";
    }
  }

  // The inverse.
  function Unescape(text: string): Option<Id> {
    if text == "" then Some([])
    else if text[0] == '%' then
      if |text| < 3 || HexValue(text[1]) < 0 || HexValue(text[2]) < 0 then None
      else
        match Unescape(text[3..])
        case None => None
        case Some(rest) => Some([HexValue(text[1]) * 16 + HexValue(text[2])] + rest)
    else if !IsPlainChar(text[0]) then None
    else
      match Unescape(text[1..])
      case None => None
      case Some(rest) => Some([text[0] as int] + rest)
  }

  lemma UnescapeByte(b: Byte, rest: string)
    requires Unescape(rest).Some?
    ensures Unescape(EscapeByte(b) + rest) == Some([b] + Unescape(rest).value)
  {
    var text := EscapeByte(b) + rest;
    if IsPlainChar(b as char) {
      assert text[1..] == rest;
    } else {
      assert text[3..] == rest;
      HexRoundTrip(b / 16);
      HexRoundTrip(b % 16);
    }
  }

  lemma HexRoundTrip(n: int)
    requires 0 <= n < 16
    ensures HexValue(HexDigit(n)) == n
  {
  }

  lemma {:induction false} UnescapeBytes(value: Id, rest: string)
    requires Unescape(rest).Some?
    ensures Unescape(EscapeBytes(value) + rest) == Some(value + Unescape(rest).value)
  {
    hide Unescape, EscapeByte;
    if value == [] {
      assert EscapeBytes(value) + rest == rest;
      assert value + Unescape(rest).value == Unescape(rest).value;
    } else {
      var front, last := value[..|value| - 1], value[|value| - 1];
      UnescapeByte(last, rest);
      UnescapeBytes(front, EscapeByte(last) + rest);
      assert EscapeBytes(value) + rest == EscapeBytes(front) + (EscapeByte(last) + rest);
      assert value + Unescape(rest).value == front + ([last] + Unescape(rest).value);
    }
  }

  // Decoding inverts encoding on every nonempty id.
  lemma UnescapeEscaped(value: Id)
    ensures Unescape(Escaped(value)) == Some(if value == [] then [0] else value)
  {
    UnescapeBytes(value, "");
    assert EscapeBytes(value) + "" == EscapeBytes(value);
    assert value + [] == value;
    if value == [] {
      UnescapeByte(0, "");
      assert EscapeByte(0) + "" == "%00";
      assert [0] + [] == [0];
    }
  }

  // Two ids share a name only if they are equal, or are the empty id and a single NUL.
  lemma SharedNames(a: Id, b: Id)
    ensures Escaped(a) == Escaped(b) <==> a == b || (a == [] && b == [0]) || (a == [0] && b == [])
  {
    UnescapeEscaped(a);
    UnescapeEscaped(b);
    assert EscapeBytes([0]) == EscapeBytes([0][..0]) + EscapeByte(0);
    assert EscapeByte(0) == "%00";
  }

  const DOT: Id := ['.' as int]
  const DOT_DOT: Id := ['.' as int, '.' as int]

  // A name is one path component: it is never empty and has no separator. It is one
  // of the two special components exactly if the id is.
  lemma NamesAreComponents(value: Id)
    ensures IsOneComponent(Escaped(value))
    ensures Escaped(value) == "." <==> value == DOT
    ensures Escaped(value) == ".." <==> value == DOT_DOT
  {
    EscapedIsNamed(value);
    UnescapeEscaped(value);
    UnescapeEscaped(DOT);
    UnescapeEscaped(DOT_DOT);
    DotNames();
  }

  lemma DotNames()
    ensures Escaped(DOT) == "." && Escaped(DOT_DOT) == ".."
  {
    assert EscapeBytes(DOT) == EscapeBytes(DOT[..0]) + EscapeByte('.' as int);
    assert DOT_DOT[..1] == DOT;
    assert EscapeBytes(DOT_DOT) == EscapeBytes(DOT_DOT[..1]) + EscapeByte('.' as int);
  }
}
