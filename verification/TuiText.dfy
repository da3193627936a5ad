/** Terminal text sanitizer (`src/tui_text.rs`).

The source consumes a peekable character iterator with one skipping routine for
each kind of escape sequence. `SanitizeTuiText` and the `Skip…` methods keep that
shape, with the iterator as a position in the input. They are proved against a
one-character-at-a-time automaton, whose laws (composition at ground points,
idempotence, fixed points) are then proved as lemmas.
*/
module TuiText {
  import opened Text

  // Where the automaton is relative to an escape sequence.
  datatype State = Ground | Escape | Charset | Csi | StringControl | StringEscape

  const ESC := '\U{001b}'
  const BEL := '\U{0007}'

  // Unicode general category Cc.
  predicate IsControl(ch: char) {
    ch <= '\U{001f}' || '\U{007f}' <= ch <= '\U{009f}'
  }

  predicate IsUnsafeControl(ch: char) {
    (IsControl(ch) && ch !in {'\n', '\t', '\r'}) || '\U{0080}' <= ch <= '\U{009f}'
  }

  predicate IsBidiControl(ch: char) {
    || ch in {'\U{061c}', '\U{200e}', '\U{200f}'}
    || '\U{202a}' <= ch <= '\U{202e}'
    || '\U{2066}' <= ch <= '\U{2069}'
  }

  predicate StartsStringControl(ch: char) {
    ch in {'\U{0090}', '\U{0098}', '\U{009d}', '\U{009e}', '\U{009f}'}
  }

  predicate IsTuiControl(ch: char) {
    || ch == ESC || ch == '\r' || IsUnsafeControl(ch) || IsBidiControl(ch)
    || StartsStringControl(ch) || ch == '\U{009b}'
  }

  predicate ContainsTuiControl(input: string) {
    exists i :: 0 <= i < |input| && IsTuiControl(input[i])
  }

  // ---------------------------------------------------------------------------
  // The automaton
  // ---------------------------------------------------------------------------

  function Next(state: State, ch: char): State {
    match state
    case Ground =>
      if ch == ESC then Escape
      else if StartsStringControl(ch) then StringControl
      else if ch == '\U{009b}' then Csi
      else Ground
    case Escape =>
      if ch == '[' then Csi
      else if ch in {']', 'P', '^', '_', 'X'} then StringControl
      else if ch in {'(', ')', '*', '+', '-', '.', '/'} then Charset
      else Ground
    case Charset => Ground
    case Csi => if '@' <= ch <= '~' then Ground else Csi
    case StringControl => NextInString(ch)
    case StringEscape => if ch == '\\' then Ground else NextInString(ch)
  }

  function NextInString(ch: char): State {
    if ch == BEL || ch == '\U{009c}' then Ground
    else if ch == ESC then StringEscape
    else StringControl
  }

  // Only the ground state produces text, and at most one character of it.
  function Emit(state: State, ch: char): string {
    if state != Ground || Next(state, ch) != Ground then ""
    else if ch == '\r' then "\n"
    else if IsUnsafeControl(ch) || IsBidiControl(ch) then ""
    else [ch]
  }

  // State after reading all of `input`.
  function Final(state: State, input: string): State {
    if input == "" then state
    else Next(Final(state, input[..|input| - 1]), input[|input| - 1])
  }

  // Text produced while reading all of `input`.
  function Output(state: State, input: string): string {
    if input == "" then ""
    else
      var front := input[..|input| - 1];
      Output(state, front) + Emit(Final(state, front), input[|input| - 1])
  }

  // ---------------------------------------------------------------------------
  // The peeking loops of the source
  // ---------------------------------------------------------------------------

  lemma ReadOne(input: string, pos: nat)
    requires pos < |input|
    ensures Final(Ground, input[..pos + 1]) == Next(Final(Ground, input[..pos]), input[pos])
    ensures Output(Ground, input[..pos + 1])
         == Output(Ground, input[..pos]) + Emit(Final(Ground, input[..pos]), input[pos])
  {
    assert input[..pos + 1][..pos] == input[..pos];
  }

  lemma SkipOne(input: string, pos: nat)
    requires pos < |input| && Final(Ground, input[..pos]) != Ground
    ensures Final(Ground, input[..pos + 1]) == Next(Final(Ground, input[..pos]), input[pos])
    ensures Output(Ground, input[..pos + 1]) == Output(Ground, input[..pos])
  {
    ReadOne(input, pos);
  }

  // A skipping routine ends at a ground point, or runs out of input, and shows nothing.
  ghost predicate Skipped(input: string, start: nat, pos: nat)
    requires start <= |input|
  {
    && start <= pos <= |input|
    && Output(Ground, input[..pos]) == Output(Ground, input[..start])
    && (pos == |input| || Final(Ground, input[..pos]) == Ground)
  }

  method SkipCsi(input: string, start: nat) returns (pos: nat)
    requires start <= |input| && Final(Ground, input[..start]) == Csi
    ensures Skipped(input, start, pos)
  {
    hide Final, Output;
    pos := start;
    while pos < |input|
      invariant start <= pos <= |input|
      invariant Final(Ground, input[..pos]) == Csi
      invariant Output(Ground, input[..pos]) == Output(Ground, input[..start])
    {
      var ch := input[pos];
      SkipOne(input, pos);
      pos := pos + 1;
      if '@' <= ch <= '~' {
        break;
      }
    }
  }

  method SkipStringControl(input: string, start: nat) returns (pos: nat)
    requires start <= |input| && Final(Ground, input[..start]) == StringControl
    ensures Skipped(input, start, pos)
  {
    hide Final, Output;
    pos := start;
    while pos < |input|
      invariant start <= pos <= |input|
      invariant Final(Ground, input[..pos]) == StringControl || Final(Ground, input[..pos]) == StringEscape
      invariant Final(Ground, input[..pos]) == StringEscape && pos < |input| ==> input[pos] != '\\'
      invariant Output(Ground, input[..pos]) == Output(Ground, input[..start])
    {
      var ch := input[pos];
      SkipOne(input, pos);
      pos := pos + 1;
      if ch == BEL || ch == '\U{009c}' {
        break;
      }
      if ch == ESC && pos < |input| && input[pos] == '\\' {
        SkipOne(input, pos);
        pos := pos + 1;
        break;
      }
    }
  }

  method SkipEscapeSequence(input: string, start: nat) returns (pos: nat)
    requires start <= |input| && Final(Ground, input[..start]) == Escape
    ensures Skipped(input, start, pos)
  {
    hide Final, Output;
    pos := start;
    if pos == |input| {
      return;
    }
    var ch := input[pos];
    SkipOne(input, pos);
    pos := pos + 1;
    if ch == '[' {
      pos := SkipCsi(input, pos);
    } else if ch in {']', 'P', '^', '_', 'X'} {
      pos := SkipStringControl(input, pos);
    } else if ch in {'(', ')', '*', '+', '-', '.', '/'} {
      if pos < |input| {
        SkipOne(input, pos);
        pos := pos + 1;
      }
    }
  }

  method SanitizeTuiText(input: string) returns (output: string)
    ensures output == Output(Ground, input)
  {
    output := "";
    var pos := 0;
    while pos < |input|
      invariant pos <= |input|
      invariant pos == |input| || Final(Ground, input[..pos]) == Ground
      invariant output == Output(Ground, input[..pos])
    {
      var ch := input[pos];
      ReadOne(input, pos);
      pos := pos + 1;
      if ch == ESC {
        pos := SkipEscapeSequence(input, pos);
      } else if StartsStringControl(ch) {
        pos := SkipStringControl(input, pos);
      } else if ch == '\U{009b}' {
        pos := SkipCsi(input, pos);
      } else if ch == '\n' || ch == '\t' {
        output := output + [ch];
      } else if ch == '\r' {
        output := output + "\n";
      } else if IsUnsafeControl(ch) || IsBidiControl(ch) {
      } else {
        output := output + [ch];
      }
    }
    assert input[..pos] == input;
  }

  // ---------------------------------------------------------------------------
  // Laws
  // ---------------------------------------------------------------------------

  // Reading `a + b` is reading `a`, then reading `b` from wherever `a` stopped.
  lemma {:induction false} ReadConcat(state: State, a: string, b: string)
    ensures Final(state, a + b) == Final(Final(state, a), b)
    ensures Output(state, a + b) == Output(state, a) + Output(Final(state, a), b)
  {
    if b == "" {
      assert a + b == a;
    } else {
      var front := b[..|b| - 1];
      assert (a + b)[..|a + b| - 1] == a + front;
      ReadConcat(state, a, front);
    }
  }

  lemma {:induction false} OutputIsClean(state: State, input: string)
    ensures !ContainsTuiControl(Output(state, input))
    ensures |Output(state, input)| <= |input|
  {
    if input != "" {
      OutputIsClean(state, input[..|input| - 1]);
    }
  }

  lemma {:induction false} CleanTextIsKept(input: string)
    requires !ContainsTuiControl(input)
    ensures Final(Ground, input) == Ground && Output(Ground, input) == input
  {
    if input != "" {
      var front, last := input[..|input| - 1], input[|input| - 1];
      assert !IsTuiControl(last);
      assert forall i :: 0 <= i < |front| ==> front[i] == input[i];
      CleanTextIsKept(front);
      assert input == front + [last];
    }
  }

  // The sanitizer's fixed points are exactly the texts without a control.
  lemma SanitizeFixedPoints(input: string)
    ensures Output(Ground, input) == input <==> !ContainsTuiControl(input)
  {
    OutputIsClean(Ground, input);
    if !ContainsTuiControl(input) {
      CleanTextIsKept(input);
    }
  }

  lemma SanitizeIdempotent(input: string)
    ensures Output(Ground, Output(Ground, input)) == Output(Ground, input)
  {
    OutputIsClean(Ground, input);
    CleanTextIsKept(Output(Ground, input));
  }

  // A chunk boundary is harmless exactly at a ground point: elsewhere the next
  // chunk's first characters belong to the open sequence and must not be shown.
  lemma SanitizeDistributesExactlyAtGround(a: string)
    ensures (forall b :: Output(Ground, a + b) == Output(Ground, a) + Output(Ground, b))
       <==> Final(Ground, a) == Ground
  {
    hide Final, Output;
    OneLetter(Final(Ground, a));
    OneLetter(Ground);
    ReadConcat(Ground, a, "x");
    if Final(Ground, a) == Ground {
      forall b ensures Output(Ground, a + b) == Output(Ground, a) + Output(Ground, b) {
        ReadConcat(Ground, a, b);
      }
    } else {
      assert |Output(Ground, a + "x")| != |Output(Ground, a) + Output(Ground, "x")|;
    }
  }

  lemma OneLetter(state: State)
    ensures Output(state, "x") == if state == Ground then "x" else ""
  {
    assert "x"[..0] == "";
  }

  // ---------------------------------------------------------------------------
  // What the table means
  // ---------------------------------------------------------------------------

  ghost predicate IsControlSequence(text: string, lead: string, body: string) {
    && lead in {"\U{001b}[", "\U{009b}"}
    && (forall ch :: ch in body ==> ch < '@' || ch > '~')
    && |text| == |lead| + |body| + 1 && text[..|text| - 1] == lead + body && '@' <= text[|text| - 1] <= '~'
  }

  ghost predicate IsStringSequence(text: string, lead: string, body: string, end: string) {
    && text == lead + body + end
    && lead in {"\U{001b}]", "\U{001b}P", "\U{001b}^", "\U{001b}_", "\U{001b}X",
                "\U{0090}", "\U{0098}", "\U{009d}", "\U{009e}", "\U{009f}"}
    && end in {"\U{0007}", "\U{009c}", "\U{001b}\\"}
    && (forall i :: 0 <= i < |body| ==>
          && body[i] !in {'\U{0007}', '\U{009c}'}
          && (body[i] == '\\' && i > 0 ==> body[i - 1] != '\U{001b}'))
  }

  // An escape sequence from its first character to its last: a control sequence, a
  // string, the choice of a character set, or an escape with one other character.
  ghost predicate IsSequence(text: string) {
    || (exists lead, body :: IsControlSequence(text, lead, body))
    || (exists lead, body, end :: IsStringSequence(text, lead, body, end))
    || (|text| == 3 && text[0] == '\U{001b}' && text[1] in {'(', ')', '*', '+', '-', '.', '/'})
    || (|text| == 2 && text[0] == '\U{001b}'
        && text[1] !in {'[', ']', 'P', '^', '_', 'X', '(', ')', '*', '+', '-', '.', '/'})
  }

  // What a character that opens no sequence is shown as.
  ghost function ShownAs(ch: char): string {
    if ch == '\n' || ch == '\t' then [ch]
    else if ch == '\r' then "\n"
    else if ch < ' ' || '\U{007f}' <= ch <= '\U{009f}' then ""
    else if ch in {'\U{061c}', '\U{200e}', '\U{200f}'} || '\U{202a}' <= ch <= '\U{202e}' || '\U{2066}' <= ch <= '\U{2069}'
    then ""
    else [ch]
  }

  ghost predicate OpensNothing(ch: char) {
    ch !in {'\U{001b}', '\U{0090}', '\U{0098}', '\U{009b}', '\U{009d}', '\U{009e}', '\U{009f}'}
  }

  lemma OneCharacter(state: State, ch: char)
    ensures Final(state, [ch]) == Next(state, ch) && Output(state, [ch]) == Emit(state, ch)
  {
    assert [ch][..0] == "";
  }

  lemma PlainCharacter(ch: char)
    requires OpensNothing(ch)
    ensures Final(Ground, [ch]) == Ground && Output(Ground, [ch]) == ShownAs(ch)
  {
    OneCharacter(Ground, ch);
  }

  lemma {:induction false} InControlSequence(body: string)
    requires forall ch :: ch in body ==> ch < '@' || ch > '~'
    ensures Final(Csi, body) == Csi && Output(Csi, body) == ""
  {
    if body != "" {
      var front := body[..|body| - 1];
      assert forall ch :: ch in front ==> ch in body;
      assert body[|body| - 1] in body;
      InControlSequence(front);
    }
  }

  lemma {:induction false} InString(body: string)
    requires forall i :: 0 <= i < |body| ==>
      && body[i] !in {'\U{0007}', '\U{009c}'}
      && (body[i] == '\\' && i > 0 ==> body[i - 1] != '\U{001b}')
    ensures Final(StringControl, body)
         == if body != "" && body[|body| - 1] == '\U{001b}' then StringEscape else StringControl
    ensures Output(StringControl, body) == ""
  {
    if body != "" {
      InString(body[..|body| - 1]);
    }
  }

  // Two characters, or one, that open a sequence.
  lemma Lead(lead: string)
    requires lead != "" && |lead| <= 2
    ensures Final(Ground, lead) == if |lead| == 1 then Next(Ground, lead[0]) else Next(Next(Ground, lead[0]), lead[1])
    ensures Next(Ground, lead[0]) != Ground ==> Output(Ground, lead) == ""
  {
    OneCharacter(Ground, lead[0]);
    if |lead| == 2 {
      OneCharacter(Next(Ground, lead[0]), lead[1]);
      ReadConcat(Ground, [lead[0]], [lead[1]]);
      assert lead == [lead[0]] + [lead[1]];
    } else {
      assert lead == [lead[0]];
    }
  }

  lemma ControlSequenceVanishes(text: string, lead: string, body: string)
    requires IsControlSequence(text, lead, body)
    ensures Final(Ground, text) == Ground && Output(Ground, text) == ""
  {
    hide Final, Output;
    var last := text[|text| - 1];
    Lead(lead);
    InControlSequence(body);
    OneCharacter(Csi, last);
    ReadConcat(Ground, lead, body);
    ReadConcat(Ground, lead + body, [last]);
    assert text == lead + body + [last];
  }

  lemma StringEnds(state: State, end: string)
    requires state == StringControl || state == StringEscape
    requires end in {"\U{0007}", "\U{009c}", "\U{001b}\\"}
    ensures Final(state, end) == Ground && Output(state, end) == ""
  {
    hide Final, Output;
    if |end| == 2 {
      OneCharacter(state, end[0]);
      OneCharacter(StringEscape, end[1]);
      ReadConcat(state, [end[0]], [end[1]]);
      assert end == [end[0]] + [end[1]];
    } else {
      OneCharacter(state, end[0]);
      assert end == [end[0]];
    }
  }

  lemma StringSequenceVanishes(text: string, lead: string, body: string, end: string)
    requires IsStringSequence(text, lead, body, end)
    ensures Final(Ground, text) == Ground && Output(Ground, text) == ""
  {
    hide Final, Output;
    Lead(lead);
    InString(body);
    StringEnds(Final(StringControl, body), end);
    ReadConcat(Ground, lead, body);
    ReadConcat(Ground, lead + body, end);
  }

  // Nothing of a sequence is shown, and it ends where it ends.
  lemma SequenceVanishes(text: string)
    requires IsSequence(text)
    ensures Final(Ground, text) == Ground && Output(Ground, text) == ""
  {
    hide Final, Output;
    if lead, body :| IsControlSequence(text, lead, body) {
      ControlSequenceVanishes(text, lead, body);
    } else if lead, body, end :| IsStringSequence(text, lead, body, end) {
      StringSequenceVanishes(text, lead, body, end);
    } else {
      Lead(text[..2]);
      if |text| == 3 {
        OneCharacter(Charset, text[2]);
        ReadConcat(Ground, text[..2], [text[2]]);
        assert text == text[..2] + [text[2]];
      } else {
        assert text == text[..2];
      }
    }
  }

  ghost predicate IsPiece(piece: string) {
    IsSequence(piece) || (|piece| == 1 && OpensNothing(piece[0]))
  }

  ghost function PieceShownAs(piece: string): string {
    if |piece| == 1 && OpensNothing(piece[0]) then ShownAs(piece[0]) else ""
  }

  // A text of escape sequences and other characters, which may be cut inside a
  // sequence, shows the other characters only.
  lemma {:induction false} PiecesAreShown(pieces: seq<string>, cut: string, rest: string)
    requires forall i :: 0 <= i < |pieces| ==> IsPiece(pieces[i])
    requires cut != "" ==> IsSequence(cut + rest)
    ensures Output(Ground, Join(pieces) + cut) == Join(seq(|pieces|, i requires 0 <= i < |pieces| => PieceShownAs(pieces[i])))
    ensures cut == "" ==> Final(Ground, Join(pieces)) == Ground
    decreases |pieces|, |cut|
  {
    hide Final, Output, IsSequence, ShownAs, OpensNothing;
    var shown := seq(|pieces|, i requires 0 <= i < |pieces| => PieceShownAs(pieces[i]));
    if cut != "" {
      PiecesAreShown(pieces, "", "");
      SequenceVanishes(cut + rest);
      ReadConcat(Ground, cut, rest);
      ReadConcat(Ground, Join(pieces), cut);
      assert Join(pieces) + "" == Join(pieces);
      assert Join(shown) + "" == Join(shown);
    } else if pieces == [] {
      ReadNothing();
    } else {
      var front, last := pieces[..|pieces| - 1], pieces[|pieces| - 1];
      PiecesAreShown(front, "", "");
      assert shown[..|shown| - 1] == seq(|front|, i requires 0 <= i < |front| => PieceShownAs(front[i]));
      ReadConcat(Ground, Join(front), last);
      assert Join(front) + "" == Join(front) && Join(pieces) + "" == Join(front) + last;
      if |last| == 1 && OpensNothing(last[0]) {
        PlainCharacter(last[0]);
        assert last == [last[0]];
      } else {
        SequenceVanishes(last);
      }
    }
  }

  lemma ReadNothing()
    ensures Output(Ground, Join([]) + "") == "" && Final(Ground, Join([])) == Ground && Join([]) == ""
  {
  }
}
