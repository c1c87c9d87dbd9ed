/** The show script front end of main.cpp: `TokenizeScript`, which splits the
    script text into lines of tokens, and `secondProcessing`, which expands
    aliases and turns each line into an instruction for a handler. */
module Script {
  import opened Common

  const EofError: string := "[TokenizeScript] Unexpected EOF in script."

  /** One script line: its tokens. */
  type Line = seq<string>

  // ---------------------------------------------------------------------------
  // The token vector being built

  /** `out` as the tokenizer keeps it: at least one line, and no line without a
      token, so that `out.back().back()` always exists. */
  predicate Building(out: seq<Line>)
  {
    out != [] && forall i :: 0 <= i < |out| ==> out[i] != []
  }

  function LastLine(out: seq<Line>): Line
    requires Building(out)
  {
    out[|out| - 1]
  }

  function LastToken(out: seq<Line>): string
    requires Building(out)
  {
    LastLine(out)[|LastLine(out)| - 1]
  }

  /** A finished line: at least one token, none of them empty. */
  predicate Complete(l: Line)
  {
    l != [] && forall j :: 0 <= j < |l| ==> l[j] != ""
  }

  /** Every token of the line but the last is non-empty. */
  predicate Settled(l: Line)
  {
    forall j :: 0 <= j < |l| - 1 ==> l[j] != ""
  }

  /** The shape the tokenizer keeps: every line but the last is finished, and
      in the last one only the token being read may still be empty. */
  predicate InProgress(out: seq<Line>)
  {
    Building(out) &&
    (forall i :: 0 <= i < |out| - 1 ==> Complete(out[i])) &&
    Settled(LastLine(out))
  }

  /** The shape of a tokenized script: every line has a non-empty first token,
      and the only token that can be empty is the last one of the last line. */
  predicate Tokens(r: seq<Line>)
  {
    (forall i :: 0 <= i < |r| - 1 ==> Complete(r[i])) &&
    (r != [] ==> r[|r| - 1] != [] && r[|r| - 1][0] != "" && Settled(r[|r| - 1]))
  }

  /** All tokens of all lines, one after the other. */
  function FlatLine(l: Line): string
  {
    if l == [] then "" else FlatLine(l[..|l| - 1]) + l[|l| - 1]
  }

  function Flatten(out: seq<Line>): string
  {
    if out == [] then "" else Flatten(out[..|out| - 1]) + FlatLine(out[|out| - 1])
  }

  lemma FlattenLast(out: seq<Line>, l: Line)
    requires out != []
    ensures Flatten(out[|out| - 1 := l]) == Flatten(out[..|out| - 1]) + FlatLine(l)
  {
    assert out[|out| - 1 := l][..|out| - 1] == out[..|out| - 1];
  }

  lemma FlatEmptyLine()
    ensures FlatLine([""]) == ""
  {
    assert FlatLine([""]) == FlatLine([]) + "";
  }

  /** The `;` and newline case: a line with several tokens loses an empty last
      token and a new line is started; a line with one non-empty token is
      finished too; the empty line `{""}` stays as it is. */
  function EndLine(out: seq<Line>): (r: seq<Line>)
    requires Building(out)
    ensures Building(r) && LastLine(r) == [""]
  {
    var l := LastLine(out);
    if |l| > 1 then
      var kept := if l[|l| - 1] == "" then l[..|l| - 1] else l;
      out[|out| - 1 := kept] + [[""]]
    else if l[0] != "" then out + [[""]]
    else out
  }

  /** `EndLine` finishes the line being read and loses no character. */
  lemma EndLineKeeps(out: seq<Line>)
    requires Building(out)
    ensures InProgress(out) ==> InProgress(EndLine(out))
    ensures Flatten(EndLine(out)) == Flatten(out)
  {
    var l := LastLine(out);
    var r := EndLine(out);
    FlatEmptyLine();
    if |l| > 1 {
      var kept := if l[|l| - 1] == "" then l[..|l| - 1] else l;
      assert FlatLine(kept) == FlatLine(l) by {
        if l[|l| - 1] == "" {
          assert FlatLine(l) == FlatLine(l[..|l| - 1]) + "";
        }
      }
      assert r[..|out|] == out[|out| - 1 := kept];
      FlattenLast(out, kept);
      FlattenLast(out, l);
      assert out[|out| - 1 := l] == out;
    } else if l[0] != "" {
      assert r[..|out|] == out;
    }
  }

  /** The blank case: a non-empty token being read is ended by starting an
      empty one. */
  function Blank(out: seq<Line>): (r: seq<Line>)
    requires Building(out)
    ensures Building(r) && |r| == |out| && LastToken(r) == ""
  {
    var l := LastLine(out);
    if LastToken(out) != "" then out[|out| - 1 := l + [""]] else out
  }

  lemma BlankKeeps(out: seq<Line>)
    requires Building(out)
    ensures InProgress(out) ==> InProgress(Blank(out))
    ensures Flatten(Blank(out)) == Flatten(out)
  {
    var l := LastLine(out);
    if LastToken(out) != "" {
      var l2 := l + [""];
      assert l2[..|l|] == l;
      FlattenLast(out, l2);
      FlattenLast(out, l);
      assert out[|out| - 1 := l] == out;
    }
  }

  /** `out.back().back() += t`. */
  function AppendText(out: seq<Line>, t: string): (r: seq<Line>)
    requires Building(out)
    ensures Building(r) && |r| == |out| && |LastLine(r)| == |LastLine(out)|
    ensures LastToken(r) == LastToken(out) + t
  {
    var l := LastLine(out);
    out[|out| - 1 := l[|l| - 1 := l[|l| - 1] + t]]
  }

  lemma AppendTextKeeps(out: seq<Line>, t: string)
    requires Building(out)
    ensures InProgress(out) ==> InProgress(AppendText(out, t))
    ensures Flatten(AppendText(out, t)) == Flatten(out) + t
  {
    var l := LastLine(out);
    var n := |l| - 1;
    var l2 := l[n := l[n] + t];
    assert l2[..n] == l[..n];
    assert FlatLine(l2) == FlatLine(l) + t;
    FlattenLast(out, l2);
    FlattenLast(out, l);
    assert out[|out| - 1 := l] == out;
  }

  lemma AppendTextTwice(out: seq<Line>, a: string, b: string)
    requires Building(out)
    ensures AppendText(AppendText(out, a), b) == AppendText(out, a + b)
  {
    var l := LastLine(out);
    var n := |l| - 1;
    var o1 := AppendText(out, a);
    var l1 := l[n := l[n] + a];
    assert LastLine(o1) == l1;
    assert l[n] + a + b == l[n] + (a + b);
    assert l1[n := l1[n] + b] == l[n := l[n] + (a + b)];
    assert o1[|out| - 1 := l[n := l[n] + (a + b)]] == out[|out| - 1 := l[n := l[n] + (a + b)]];
  }

  /** The first text appended to the empty script is its first token. */
  lemma AppendToEmpty(s: string)
    ensures AppendText([[""]], s) == [[s]]
  {
    assert LastLine([[""]]) == [""];
    assert "" + s == s;
    assert [""][0 := s] == [s];
  }

  lemma AppendNothing(out: seq<Line>)
    requires Building(out)
    ensures AppendText(out, "") == out
  {
    var l := LastLine(out);
    assert l[|l| - 1] + "" == l[|l| - 1];
    assert l[|l| - 1 := l[|l| - 1]] == l;
  }

  /** After the last character: a final empty line `{""}` is dropped. */
  function Finish(out: seq<Line>): (r: seq<Line>)
    requires Building(out)
    ensures InProgress(out) ==> Tokens(r)
  {
    if LastLine(out) == [""] then out[..|out| - 1] else out
  }

  lemma FinishKeeps(out: seq<Line>)
    requires Building(out)
    ensures Flatten(Finish(out)) == Flatten(out)
  {
    if LastLine(out) == [""] {
      FlatEmptyLine();
    }
  }

  // ---------------------------------------------------------------------------
  // TokenizeScript

  /** The first index from `p` on where `text` holds `c`, or the end. */
  function NextIndexOf(text: string, p: nat, c: char): (q: nat)
    requires p <= |text|
    ensures p <= q <= |text|
    ensures q < |text| ==> text[q] == c
    ensures forall k :: p <= k < q ==> text[k] != c
    decreases |text| - p
  {
    if p == |text| || text[p] == c then p else NextIndexOf(text, p + 1, c)
  }

  /** The double-quoted case from index `p` on, with the escape flag `esc`: the
      string's text and the index after its closing quote, or `None` when the
      script ends first.  An unescaped backslash sets the flag for good, and
      while it is set a character other than a quote or backslash is kept with
      a backslash in front of it. */
  function Quoted(text: string, p: nat, esc: bool): (r: Option<(string, nat)>)
    requires p <= |text|
    ensures r.Some? ==> p < r.value.1 <= |text|
    decreases |text| - p
  {
    if p == |text| then None
    else
      var c := text[p];
      if c == '"' && !esc then Some(("", p + 1))
      else if c == '\\' && !esc then Quoted(text, p + 1, true)
      else
        var piece := if esc && c != '"' && c != '\\' then ['\\', c] else [c];
        match Quoted(text, p + 1, esc)
        case None => None
        case Some(q) => Some((piece + q.0, q.1))
  }

  /** One pass through the `switch` on the character at `pos`: the index of
      the next character and the new token vector, or `None` when the stream
      ran out inside the case, which throws. */
  function Next(text: string, pos: nat, out: seq<Line>): (r: Option<(nat, seq<Line>)>)
    requires pos < |text| && Building(out)
    ensures r.Some? ==> pos < r.value.0 <= |text| && Building(r.value.1)
  {
    var c := text[pos];
    if c == '#' then
      var q := NextIndexOf(text, pos + 1, '\n');
      if q == |text| then None else Some((q + 1, EndLine(out)))
    else if c == ';' || c == '\n' then Some((pos + 1, EndLine(out)))
    else if c == ' ' || c == '\t' then Some((pos + 1, Blank(out)))
    else if c == '"' then
      match Quoted(text, pos + 1, false)
      case None => None
      case Some(q) => Some((q.1, AppendText(out, q.0)))
    else if c == '\'' then
      var q := NextIndexOf(text, pos + 1, '\'');
      if q == |text| then None else Some((q + 1, AppendText(out, text[pos + 1..q])))
    else Some((pos + 1, AppendText(out, [c])))
  }

  /** The loop over the characters of the script from index `pos` on, with the
      token vector `out` built so far. */
  function Scan(text: string, pos: nat, out: seq<Line>): (r: Result<seq<Line>, string>)
    requires pos <= |text| && Building(out)
    ensures r.Err? ==> r.error == EofError
    decreases |text| - pos
  {
    if pos == |text| then Ok(Finish(out))
    else
      match Next(text, pos, out)
      case None => Err(EofError)
      case Some(n) => Scan(text, n.0, n.1)
  }

  /** `TokenizeScript` on the contents of the script file. */
  function Tokenize(text: string): (r: Result<seq<Line>, string>)
    ensures r.Err? ==> r.error == EofError
  {
    Scan(text, 0, [[""]])
  }

  /** A pass through the `switch` keeps the shape of the token vector. */
  lemma NextShape(text: string, pos: nat, out: seq<Line>)
    requires pos < |text| && InProgress(out)
    ensures Next(text, pos, out).Some? ==> InProgress(Next(text, pos, out).value.1)
  {
    var c := text[pos];
    if c == '#' || c == ';' || c == '\n' {
      EndLineKeeps(out);
    } else if c == ' ' || c == '\t' {
      BlankKeeps(out);
    } else if c == '"' {
      match Quoted(text, pos + 1, false)
      case None =>
      case Some(q) => AppendTextKeeps(out, q.0);
    } else if c == '\'' {
      var q := NextIndexOf(text, pos + 1, '\'');
      if q < |text| {
        AppendTextKeeps(out, text[pos + 1..q]);
      }
    } else {
      AppendTextKeeps(out, [c]);
    }
  }

  lemma {:induction false} ScanShape(text: string, pos: nat, out: seq<Line>)
    requires pos <= |text| && InProgress(out)
    ensures Scan(text, pos, out).Ok? ==> Tokens(Scan(text, pos, out).value)
    decreases |text| - pos
  {
    if pos < |text| {
      NextShape(text, pos, out);
      match Next(text, pos, out)
      case None =>
      case Some(n) => ScanShape(text, n.0, n.1);
    }
  }

  /** Every line of a tokenized script has a non-empty first token, and only
      the last token of the last line can be empty. */
  lemma TokenizeShape(text: string)
    ensures Tokenize(text).Ok? ==> Tokens(Tokenize(text).value)
  {
    ScanShape(text, 0, [[""]]);
  }

  /** `while (f.get(c) && c != '\n');`: the index after the newline, and
      whether there was one. */
  method SkipComment(text: string, p: nat) returns (next: nat, ok: bool)
    requires p <= |text|
    ensures var q := NextIndexOf(text, p, '\n');
      ok == (q < |text|) && next == (if ok then q + 1 else |text|)
  {
    next := p;
    while next < |text| && text[next] != '\n'
      invariant p <= next <= |text|
      invariant NextIndexOf(text, next, '\n') == NextIndexOf(text, p, '\n')
    {
      next := next + 1;
    }
    if next < |text| {
      next := next + 1;
      ok := true;
    } else {
      ok := false;
    }
  }

  /** `while (f.get(c) && c != '\'') out.back().back() += c;` */
  method ReadSingle(text: string, p: nat, out: seq<Line>) returns (next: nat, ok: bool, r: seq<Line>)
    requires p <= |text| && Building(out)
    ensures var q := NextIndexOf(text, p, '\'');
      ok == (q < |text|) && (ok ==> next == q + 1 && r == AppendText(out, text[p..q]))
  {
    next := p;
    r := out;
    assert text[p..p] == [];
    AppendNothing(out);
    while next < |text| && text[next] != '\''
      invariant p <= next <= |text|
      invariant NextIndexOf(text, next, '\'') == NextIndexOf(text, p, '\'')
      invariant r == AppendText(out, text[p..next])
    {
      AppendTextTwice(out, text[p..next], [text[next]]);
      assert text[p..next + 1] == text[p..next] + [text[next]];
      r := AppendText(r, [text[next]]);
      next := next + 1;
    }
    if next < |text| {
      next := next + 1;
      ok := true;
    } else {
      ok := false;
    }
  }

  /** The text `acc` in front of a quoted string's remaining text. */
  function Preceded(acc: string, q: Option<(string, nat)>): Option<(string, nat)>
  {
    match q
    case None => None
    case Some(v) => Some((acc + v.0, v.1))
  }

  lemma PrecededNothing(q: Option<(string, nat)>)
    ensures Preceded("", q) == q
  {
    match q
    case None =>
    case Some(v) => assert "" + v.0 == v.0;
  }

  /** The double-quoted loop, character by character, with its escape flag. */
  method ReadDouble(text: string, p: nat, out: seq<Line>) returns (next: nat, ok: bool, r: seq<Line>)
    requires p <= |text| && Building(out)
    ensures ok == Quoted(text, p, false).Some?
    ensures ok ==> next == Quoted(text, p, false).value.1 && r == AppendText(out, Quoted(text, p, false).value.0)
  {
    var esc := false;
    ghost var acc := "";
    next := p;
    r := out;
    AppendNothing(out);
    PrecededNothing(Quoted(text, p, false));
    while next < |text|
      invariant p <= next <= |text|
      invariant Quoted(text, p, false) == Preceded(acc, Quoted(text, next, esc))
      invariant r == AppendText(out, acc)
    {
      var c := text[next];
      if c == '"' && !esc {
        assert acc + "" == acc;
        return next + 1, true, r;
      }
      next := next + 1;
      if c == '\\' && !esc {
        esc := true;
      } else {
        var piece := if esc && c != '"' && c != '\\' then ['\\', c] else [c];
        AdvanceQuoted(text, p, next - 1, esc, acc, piece);
        AppendTextTwice(out, acc, piece);
        r := AppendText(r, piece);
        acc := acc + piece;
      }
    }
    return next, false, r;
  }

  lemma AdvanceQuoted(text: string, p: nat, k: nat, esc: bool, acc: string, piece: string)
    requires p <= k < |text|
    requires !(text[k] == '"' && !esc) && !(text[k] == '\\' && !esc)
    requires piece == if esc && text[k] != '"' && text[k] != '\\' then ['\\', text[k]] else [text[k]]
    requires Quoted(text, p, false) == Preceded(acc, Quoted(text, k, esc))
    ensures Quoted(text, p, false) == Preceded(acc + piece, Quoted(text, k + 1, esc))
  {
    match Quoted(text, k + 1, esc)
    case None =>
    case Some(v) =>
      assert acc + (piece + v.0) == acc + piece + v.0;
  }

  /** One pass through the `switch` on the character at `pos`; `ok` is false
      when the stream ran out inside the case. */
  method Step(text: string, pos: nat, out: seq<Line>) returns (next: nat, ok: bool, r: seq<Line>)
    requires pos < |text| && Building(out)
    ensures ok == Next(text, pos, out).Some?
    ensures ok ==> (next, r) == Next(text, pos, out).value
  {
    var c := text[pos];
    next := pos + 1;
    ok := true;
    r := out;
    if c == '#' {
      next, ok := SkipComment(text, next);
      r := EndLine(r);
    } else if c == ';' || c == '\n' {
      r := EndLine(r);
    } else if c == ' ' || c == '\t' {
      r := Blank(r);
    } else if c == '"' {
      next, ok, r := ReadDouble(text, next, r);
    } else if c == '\'' {
      next, ok, r := ReadSingle(text, next, r);
    } else {
      r := AppendText(r, [c]);
    }
  }

  /** `TokenizeScript(filename)` on the file's contents `text`. */
  method TokenizeScript(text: string) returns (r: Result<seq<Line>, string>)
    ensures r == Tokenize(text)
  {
    var out: seq<Line> := [[""]];
    var pos := 0;
    while pos < |text|
      invariant pos <= |text| && Building(out)
      invariant Scan(text, pos, out) == Tokenize(text)
      decreases |text| - pos
    {
      var ok;
      var next;
      next, ok, out := Step(text, pos, out);
      if !ok {
        return Err(EofError);
      }
      pos := next;
    }
    if LastLine(out) == [""] {
      out := out[..|out| - 1];
    }
    return Ok(out);
  }

  // ---------------------------------------------------------------------------
  // What the tokenizer promises

  /** Separators of tokens and lines outside quotes and comments. */
  predicate Separator(c: char)
  {
    c == ' ' || c == '\t' || c == ';' || c == '\n'
  }

  /** The text without its separators. */
  function Unseparated(s: string): string
  {
    if s == [] then "" else (if Separator(s[0]) then "" else [s[0]]) + Unseparated(s[1..])
  }

  /** A script without comments and quotes. */
  predicate Plain(text: string)
  {
    forall k :: 0 <= k < |text| ==> text[k] != '#' && text[k] != '"' && text[k] != '\''
  }

  /** On a script without comments and quotes, a pass through the `switch`
      reads one character and keeps it unless it is a separator. */
  lemma NextPlain(text: string, pos: nat, out: seq<Line>)
    requires pos < |text| && Building(out) && Plain(text)
    ensures Next(text, pos, out).Some? && Next(text, pos, out).value.0 == pos + 1
    ensures Flatten(Next(text, pos, out).value.1) ==
      Flatten(out) + (if Separator(text[pos]) then "" else [text[pos]])
  {
    var c := text[pos];
    if c == ';' || c == '\n' {
      EndLineKeeps(out);
    } else if c == ' ' || c == '\t' {
      BlankKeeps(out);
    } else {
      AppendTextKeeps(out, [c]);
    }
  }

  lemma {:induction false} PlainScan(text: string, pos: nat, out: seq<Line>)
    requires pos <= |text| && Building(out) && Plain(text)
    ensures Scan(text, pos, out).Ok?
    ensures Flatten(Scan(text, pos, out).value) == Flatten(out) + Unseparated(text[pos..])
    decreases |text| - pos
  {
    if pos == |text| {
      FinishKeeps(out);
    } else {
      var c := text[pos];
      assert text[pos..][0] == c && text[pos..][1..] == text[pos + 1..];
      NextPlain(text, pos, out);
      var n := Next(text, pos, out).value;
      PlainScan(text, pos + 1, n.1);
      AppendAssoc(Flatten(out), if Separator(c) then "" else [c], Unseparated(text[pos + 1..]));
    }
  }

  /** A script without comments and quotes always tokenizes, and its tokens,
      one after the other, are its text without the separators. */
  lemma PlainTokens(text: string)
    requires Plain(text)
    ensures Tokenize(text).Ok? && Flatten(Tokenize(text).value) == Unseparated(text)
  {
    PlainScan(text, 0, [[""]]);
    assert Flatten([[""]]) == "" by {
      assert FlatLine([""]) == FlatLine([]) + "";
    }
    assert text[0..] == text;
  }

  /** The text with every `;` replaced by a newline. */
  function SemicolonsAsNewlines(text: string): (r: string)
    ensures |r| == |text|
    ensures forall k :: 0 <= k < |text| ==> r[k] == if text[k] == ';' then '\n' else text[k]
  {
    if text == [] then "" else [if text[0] == ';' then '\n' else text[0]] + SemicolonsAsNewlines(text[1..])
  }

  lemma NextSemicolon(text: string, alt: string, pos: nat, out: seq<Line>)
    requires pos < |text| && Building(out) && Plain(text) && alt == SemicolonsAsNewlines(text)
    ensures Next(text, pos, out) == Next(alt, pos, out)
  {
  }

  lemma {:induction false} SemicolonScan(text: string, alt: string, pos: nat, out: seq<Line>)
    requires pos <= |text| && Building(out) && Plain(text) && alt == SemicolonsAsNewlines(text)
    ensures Scan(text, pos, out) == Scan(alt, pos, out)
    decreases |text| - pos
  {
    if pos < |text| {
      NextSemicolon(text, alt, pos, out);
      NextPlain(text, pos, out);
      SemicolonScan(text, alt, pos + 1, Next(text, pos, out).value.1);
    }
  }

  /** Outside comments and quotes, `;` and a newline both end a line. */
  lemma SemicolonIsNewline(text: string)
    requires Plain(text)
    ensures Tokenize(text) == Tokenize(SemicolonsAsNewlines(text))
  {
    SemicolonScan(text, SemicolonsAsNewlines(text), 0, [[""]]);
  }

  /** Consecutive line ends act as one, and consecutive blanks too. */
  lemma SeparatorsIdempotent(out: seq<Line>)
    requires Building(out)
    ensures EndLine(EndLine(out)) == EndLine(out)
    ensures Blank(Blank(out)) == Blank(out)
  {
  }

  /** With its escape flag set, a double-quoted string never closes: the flag
      is never cleared, so no quote ends it. */
  lemma {:induction false} EscapeNeverCloses(text: string, p: nat)
    requires p <= |text|
    ensures Quoted(text, p, true) == None
    decreases |text| - p
  {
    if p < |text| {
      EscapeNeverCloses(text, p + 1);
    }
  }

  /** A double-quoted string with a backslash, `"a\"b"` say, fails the whole
      script with the end-of-file error. */
  lemma EscapedQuoteFails(s: string, rest: string)
    requires forall k :: 0 <= k < |s| ==> s[k] != '"' && s[k] != '\\'
    ensures Tokenize("\"" + s + "\\" + rest) == Err(EofError)
  {
    var text := "\"" + s + "\\" + rest;
    assert text[0] == '"';
    QuotedUpTo(text, 1, |s| + 1);
    EscapeNeverCloses(text, |s| + 2);
  }

  /** Up to index `q`, a double-quoted string without quote or backslash is
      read verbatim. */
  lemma {:induction false} QuotedUpTo(text: string, p: nat, q: nat)
    requires p <= q < |text|
    requires forall k :: p <= k < q ==> text[k] != '"' && text[k] != '\\'
    ensures Quoted(text, p, false) == Preceded(text[p..q], Quoted(text, q, false))
    decreases q - p
  {
    if p < q {
      QuotedUpTo(text, p + 1, q);
      assert text[p..q] == [text[p]] + text[p + 1..q];
      match Quoted(text, q, false)
      case None =>
      case Some(v) =>
        assert [text[p]] + (text[p + 1..q] + v.0) == text[p..q] + v.0;
    } else {
      assert text[p..q] == [];
      match Quoted(text, q, false)
      case None =>
      case Some(v) =>
        assert [] + v.0 == v.0;
    }
  }

  /** A double-quoted word without quotes and backslashes is one token, even
      when it holds separators or `#`. */
  lemma DoubleQuotedToken(s: string)
    requires s != [] && forall k :: 0 <= k < |s| ==> s[k] != '"' && s[k] != '\\'
    ensures Tokenize("\"" + s + "\"") == Ok([[s]])
  {
    var text := "\"" + s + "\"";
    var q := |s| + 1;
    QuotedUpTo(text, 1, q);
    assert text[1..q] == s;
    assert Quoted(text, q, false) == Some(("", q + 1));
    assert s + "" == s;
    AppendToEmpty(s);
    assert text[0] == '"';
    assert Next(text, 0, [[""]]) == Some((|text|, [[s]]));
    assert [s] != [""];
    assert Scan(text, |text|, [[s]]) == Ok([[s]]);
  }

  /** A single-quoted word is one token, exactly as written. */
  lemma SingleQuotedToken(s: string)
    requires s != [] && forall k :: 0 <= k < |s| ==> s[k] != '\''
    ensures Tokenize("'" + s + "'") == Ok([[s]])
  {
    var text := "'" + s + "'";
    assert NextIndexOf(text, 1, '\'') == |s| + 1 by {
      NextIndexAt(text, 1, |s| + 1, '\'');
    }
    assert text[0] == '\'' && text[1..|s| + 1] == s;
    AppendToEmpty(s);
    assert Next(text, 0, [[""]]) == Some((|text|, [[s]]));
    assert [s] != [""];
    assert Scan(text, |text|, [[s]]) == Ok([[s]]);
  }

  lemma {:induction false} NextIndexAt(text: string, p: nat, q: nat, c: char)
    requires p <= q < |text| && text[q] == c
    requires forall k :: p <= k < q ==> text[k] != c
    ensures NextIndexOf(text, p, c) == q
    decreases q - p
  {
    if p < q {
      NextIndexAt(text, p + 1, q, c);
    }
  }

  /** A comment must end with a newline: one at the end of the script fails
      it, one ended by a newline is dropped. */
  lemma CommentNeedsNewline(c: string)
    requires forall k :: 0 <= k < |c| ==> c[k] != '\n'
    ensures Tokenize("#" + c) == Err(EofError)
    ensures Tokenize("#" + c + "\n") == Ok([])
  {
    var t1 := "#" + c;
    assert t1[0] == '#';
    assert NextIndexOf(t1, 1, '\n') == |t1| by {
      NoNextIndex(t1, 1, '\n');
    }
    var t2 := "#" + c + "\n";
    assert t2[0] == '#';
    assert NextIndexOf(t2, 1, '\n') == |c| + 1 by {
      NextIndexAt(t2, 1, |c| + 1, '\n');
    }
    assert EndLine([[""]]) == [[""]];
    assert Scan(t2, |t2|, [[""]]) == Ok([]);
  }

  lemma {:induction false} NoNextIndex(text: string, p: nat, c: char)
    requires p <= |text| && forall k :: p <= k < |text| ==> text[k] != c
    ensures NextIndexOf(text, p, c) == |text|
    decreases |text| - p
  {
    if p < |text| {
      NoNextIndex(text, p + 1, c);
    }
  }

  /** Quoted text joins the token around it: `a'b c'd` is one token. */
  lemma QuoteJoinsToken()
    ensures Tokenize("a'b c'd") == Ok([["ab cd"]])
  {
    var t := "a'b c'd";
    assert Next(t, 0, [[""]]) == Some((1, [["a"]])) by {
      AppendToEmpty("a");
    }
    assert Next(t, 1, [["a"]]) == Some((6, [["ab c"]])) by {
      NextIndexAt(t, 2, 5, '\'');
      assert t[2..5] == "b c";
      AppendToSingle("a", "b c");
      assert "a" + "b c" == "ab c";
    }
    assert Next(t, 6, [["ab c"]]) == Some((7, [["ab cd"]])) by {
      AppendToSingle("ab c", "d");
      assert "ab c" + "d" == "ab cd";
    }
    assert Scan(t, 7, [["ab cd"]]) == Ok([["ab cd"]]);
  }

  /** A blank at the very end leaves an empty last token: `a ` gives the line
      `a`, `` rather than `a`. */
  lemma TrailingBlankKept()
    ensures Tokenize("a ") == Ok([["a", ""]])
  {
    var t := "a ";
    assert Next(t, 0, [[""]]) == Some((1, [["a"]])) by {
      AppendToEmpty("a");
    }
    assert Next(t, 1, [["a"]]) == Some((2, [["a", ""]])) by {
      assert LastToken([["a"]]) == "a";
      assert ["a"] + [""] == ["a", ""];
      assert [["a"]][0 := ["a", ""]] == [["a", ""]];
    }
    assert Scan(t, 2, [["a", ""]]) == Ok([["a", ""]]) by {
      assert LastLine([["a", ""]]) != [""];
    }
  }

  lemma AppendToSingle(w: string, t: string)
    ensures AppendText([[w]], t) == [[w + t]]
  {
    assert LastLine([[w]]) == [w];
    assert [w][0 := w + t] == [w + t];
  }

  // ---------------------------------------------------------------------------
  // secondProcessing

  datatype Timing = Enter | Simul | After

  /** `Instruction`: when it runs relative to the previous one, the handler
      ("sys" or the controller's name), the command and its arguments. */
  datatype Instruction = Instruction(timing: Timing, handler: string, command: string, args: seq<string>)

  /** A controller constructed by a `load` line: its key in `cons` and the
      arguments given to its constructor. */
  datatype Load = Load(key: string, args: seq<string>)

  /** The state of the loop: the alias table, the instructions and the loads. */
  datatype Pass = Pass(aliases: map<string, seq<string>>, insts: seq<Instruction>, loads: seq<Load>)

  /** `find('.')`. */
  function FirstDot(w: string): (r: Option<nat>)
    ensures r.None? ==> forall k :: 0 <= k < |w| ==> w[k] != '.'
    ensures r.Some? ==> r.value < |w| && w[r.value] == '.' && forall k :: 0 <= k < r.value ==> w[k] != '.'
  {
    if w == [] then None
    else if w[0] == '.' then Some(0)
    else match FirstDot(w[1..])
      case None => None
      case Some(p) => Some(p + 1)
  }

  /** The instruction for the word `word`: "handler.command" names a command of
      a handler, a word without a dot a command of "sys". */
  function MakeInstruction(t: Timing, word: string, args: seq<string>): (r: Instruction)
    ensures r.timing == t && r.args == args
    ensures (forall k :: 0 <= k < |word| ==> word[k] != '.') ==> r.handler == "sys" && r.command == word
    ensures (exists k :: 0 <= k < |word| && word[k] == '.') ==>
      r.handler + "." + r.command == word && forall k :: 0 <= k < |r.handler| ==> r.handler[k] != '.'
  {
    match FirstDot(word)
    case None => Instruction(t, "sys", word, args)
    case Some(p) =>
      SplitAtDot(word, p);
      Instruction(t, word[..p], word[p + 1..], args)
  }

  lemma SplitAtDot(word: string, p: nat)
    requires p < |word| && word[p] == '.'
    ensures word[..p] + "." + word[p + 1..] == word
  {
    assert word == word[..p] + word[p..];
    assert word[p..] == "." + word[p + 1..];
  }

  /** A line that neither defines an alias nor loads a controller. */
  predicate Ordinary(l: Line)
  {
    l != [] && l[0] != "alias" && l[0] != "load" && (l[0] == "&" || l[0] == "->" ==> |l| >= 2)
  }

  /** A line that is not `alias` or `load`: `&` runs with the previous
      instruction, `->` after it, anything else on its own. */
  function Direct(l: Line): (r: Instruction)
    requires Ordinary(l)
    ensures r.timing == if l[0] == "&" then Simul else if l[0] == "->" then After else Enter
    ensures r.args == if l[0] == "&" || l[0] == "->" then l[2..] else l[1..]
  {
    if l[0] == "&" then MakeInstruction(Simul, l[1], l[2..])
    else if l[0] == "->" then MakeInstruction(After, l[1], l[2..])
    else MakeInstruction(Enter, l[0], l[1..])
  }

  /** An alias for the first token replaces it by the alias's tokens (once: the
      result is not expanded again). */
  function Expand(aliases: map<string, seq<string>>, line: Line): Line
    requires line != []
  {
    if line[0] in aliases then aliases[line[0]] + line[1..] else line
  }

  /** The line reads only tokens it has: a first one, and a second one after
      `alias`, `load`, `&` and `->`. */
  predicate LineDefined(aliases: map<string, seq<string>>, line: Line)
  {
    line != [] &&
    var l := Expand(aliases, line);
    l != [] && (l[0] == "alias" || l[0] == "load" || l[0] == "&" || l[0] == "->" ==> |l| >= 2)
  }

  /** One iteration of the loop of `secondProcessing`. */
  function StepLine(st: Pass, line: Line): (r: Pass)
    requires LineDefined(st.aliases, line)
    ensures var l := Expand(st.aliases, line);
      ((l[0] == "alias" || l[0] == "load") ==> r.insts == st.insts) &&
      (Ordinary(l) ==> r.insts == st.insts + [Direct(l)]) &&
      (l[0] != "alias" ==> r.aliases == st.aliases)
  {
    var l := Expand(st.aliases, line);
    if l[0] == "alias" then st.(aliases := st.aliases[l[1] := l[2..]])
    else if l[0] == "load" then
      if l[1] == "DmxCtl" then st.(loads := st.loads + [Load("dmx", l[2..])])
      else if l[1] == "SfxCtl" then st.(loads := st.loads + [Load("sfx", l[2..])])
      else st
    else
      st.(insts := st.insts + [Direct(l)])
  }

  /** The loop's state after the first `n` lines, or `None` once a line reads a
      token it does not have. */
  function Steps(lines: seq<Line>, n: nat): (r: Option<Pass>)
    requires n <= |lines|
    ensures r.Some? ==> |r.value.insts| <= n
  {
    if n == 0 then Some(Pass(map[], [], []))
    else match Steps(lines, n - 1)
      case None => None
      case Some(st) =>
        if LineDefined(st.aliases, lines[n - 1]) then Some(StepLine(st, lines[n - 1])) else None
  }

  predicate Defined(lines: seq<Line>)
  {
    Steps(lines, |lines|).Some?
  }

  /** A script whose lines are all defined has every prefix defined. */
  lemma {:induction false} DefinedPrefix(lines: seq<Line>, n: nat)
    requires n <= |lines| && Defined(lines)
    ensures Steps(lines, n).Some?
    decreases |lines| - n
  {
    if n < |lines| {
      DefinedPrefix(lines, n + 1);
    }
  }

  /** `secondProcessing(lines)`: the instructions, and the controllers that
      `load` lines construct. */
  method SecondProcessing(lines: seq<Line>) returns (insts: seq<Instruction>, loads: seq<Load>)
    requires Defined(lines)
    ensures insts == Steps(lines, |lines|).value.insts && loads == Steps(lines, |lines|).value.loads
  {
    var aliases: map<string, seq<string>> := map[];
    insts := [];
    loads := [];
    for i := 0 to |lines|
      invariant Steps(lines, i) == Some(Pass(aliases, insts, loads))
    {
      DefinedPrefix(lines, i + 1);
      var line := lines[i];
      if line[0] in aliases {
        line := aliases[line[0]] + line[1..];
      }
      if line[0] == "alias" {
        aliases := aliases[line[1] := line[2..]];
      } else if line[0] == "load" {
        if line[1] == "DmxCtl" {
          loads := loads + [Load("dmx", line[2..])];
        } else if line[1] == "SfxCtl" {
          loads := loads + [Load("sfx", line[2..])];
        }
      } else {
        insts := insts + [Direct(line)];
      }
    }
  }

  // ---------------------------------------------------------------------------
  // What the second pass promises

  /** Without `alias` and `load` lines, each line gives one instruction, in
      order, and nothing is loaded. */
  lemma {:induction false} OrdinarySteps(lines: seq<Line>, n: nat)
    requires n <= |lines| && forall i :: 0 <= i < |lines| ==> Ordinary(lines[i])
    ensures Steps(lines, n).Some?
    ensures var st := Steps(lines, n).value;
      st.aliases == map[] && st.loads == [] && |st.insts| == n &&
      forall i :: 0 <= i < n ==> st.insts[i] == Direct(lines[i])
  {
    if n > 0 {
      OrdinarySteps(lines, n - 1);
      OrdinaryStep(Steps(lines, n - 1).value, lines[n - 1]);
    }
  }

  /** Without aliases, an ordinary line appends its instruction and nothing else. */
  lemma OrdinaryStep(st: Pass, l: Line)
    requires st.aliases == map[] && Ordinary(l)
    ensures LineDefined(st.aliases, l)
    ensures StepLine(st, l) == st.(insts := st.insts + [Direct(l)])
  {
    assert Expand(st.aliases, l) == l;
  }

  lemma OrdinaryLines(lines: seq<Line>)
    requires forall i :: 0 <= i < |lines| ==> Ordinary(lines[i])
    ensures Defined(lines)
    ensures var st := Steps(lines, |lines|).value;
      |st.insts| == |lines| && forall i :: 0 <= i < |lines| ==> st.insts[i] == Direct(lines[i])
  {
    OrdinarySteps(lines, |lines|);
  }

  /** An `alias` line for a name not itself an alias defines it as the rest of
      the line, even when it was defined before. */
  lemma AliasDefines(st: Pass, name: string, tokens: seq<string>)
    requires "alias" !in st.aliases
    ensures LineDefined(st.aliases, ["alias", name] + tokens)
    ensures StepLine(st, ["alias", name] + tokens) ==
      st.(aliases := st.aliases[name := tokens])
  {
    var l := ["alias", name] + tokens;
    assert l[0] == "alias" && l[1] == name && l[2..] == tokens;
  }

  /** Aliases are expanded once: after `alias a b` and `alias b c`, the line `a`
      runs the command `b`, not `c`. */
  lemma ExpandedOnce()
    ensures var lines := [["alias", "a", "b"], ["alias", "b", "c"], ["a"]];
      Defined(lines) && Steps(lines, 3).value.insts == [Instruction(Enter, "sys", "b", [])]
  {
    var lines := [["alias", "a", "b"], ["alias", "b", "c"], ["a"]];
    var m1 := map["a" := ["b"]];
    var m2 := m1["b" := ["c"]];
    AliasDefines(Pass(map[], [], []), "a", ["b"]);
    assert Steps(lines, 1) == Some(Pass(m1, [], []));
    AliasDefines(Pass(m1, [], []), "b", ["c"]);
    assert Steps(lines, 2) == Some(Pass(m2, [], []));
    assert Expand(m2, ["a"]) == ["b"];
    assert Direct(["b"]) == Instruction(Enter, "sys", "b", []);
  }

  /** A later `alias` line for the same name replaces the earlier definition. */
  lemma LatestAliasWins()
    ensures var lines := [["alias", "x", "p"], ["alias", "x", "q"], ["x", "1"]];
      Defined(lines) && Steps(lines, 3).value.insts == [Instruction(Enter, "sys", "q", ["1"])]
  {
    var lines := [["alias", "x", "p"], ["alias", "x", "q"], ["x", "1"]];
    var m1 := map["x" := ["p"]];
    var m2 := map["x" := ["q"]];
    AliasDefines(Pass(map[], [], []), "x", ["p"]);
    assert Steps(lines, 1) == Some(Pass(m1, [], []));
    AliasDefines(Pass(m1, [], []), "x", ["q"]);
    assert m1["x" := ["q"]] == m2;
    assert Steps(lines, 2) == Some(Pass(m2, [], []));
    assert Expand(m2, ["x", "1"]) == ["q", "1"];
    assert Direct(["q", "1"]) == Instruction(Enter, "sys", "q", ["1"]);
  }
}
