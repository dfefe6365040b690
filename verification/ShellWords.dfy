// Splitting one command into words (internal/security/classify.go, tokenizeShellWords).
//
// `Scanned` is the scan that respects quotes and backslashes, `Print` the ways of printing words
// that it reads back.
module ShellWords {
  import opened Options

  // Words finished, the word being read, and the open quote.
  datatype Scanner = Scanner(out: seq<string>, cur: string, quote: Option<char>)

  const START := Scanner([], "", None)

  function Flushed(st: Scanner): Scanner {
    if st.cur == "" then st else st.(out := st.out + [st.cur], cur := "")
  }

  predicate IsQuote(c: char) {
    c == '\'' || c == '"'
  }

  predicate Escapes(rest: string, st: Scanner)
    requires rest != ""
  {
    rest[0] == '\\' && |rest| > 1 && (st.quote == None || st.quote == Some('"'))
  }

  // How many characters one step reads.
  function Width(rest: string, st: Scanner): (n: nat)
    requires rest != ""
    ensures 1 <= n <= |rest|
  {
    if Escapes(rest, st) then 2 else 1
  }

  function After(rest: string, st: Scanner): Scanner
    requires rest != ""
  {
    var c := rest[0];
    if Escapes(rest, st) then st.(cur := st.cur + [rest[1]])
    else if st.quote.Some? then
      if c == st.quote.value then st.(quote := None) else st.(cur := st.cur + [c])
    else if c == ' ' || c == '\t' || c == '\n' || c == '\r' then Flushed(st)
    else if IsQuote(c) then st.(quote := Some(c))
    else if c == '\\' then st
    else st.(cur := st.cur + [c])
  }

  function Scanned(rest: string, st: Scanner): Scanner
    decreases |rest|
  {
    if rest == "" then st else Scanned(rest[Width(rest, st)..], After(rest, st))
  }

  function Words(cmd: string): seq<string> {
    Flushed(Scanned(cmd, START)).out
  }

  method TokenizeShellWords(cmd: string) returns (out: seq<string>)
    ensures out == Words(cmd)
  {
    hide Scanned;
    out := [];
    var cur, quote: Option<char> := "", None;
    var i := 0;
    assert cmd[0..] == cmd;
    while i < |cmd|
      invariant 0 <= i <= |cmd| && Scanned(cmd[i..], Scanner(out, cur, quote)) == Scanned(cmd, START)
    {
      var c := cmd[i];
      ghost var st := Scanner(out, cur, quote);
      Step(cmd, i, st);
      if quote.Some? {
        if c == quote.value {
          quote := None;
        } else if c == '\\' && quote.value == '"' && i + 1 < |cmd| {
          i := i + 1;
          cur := cur + [cmd[i]];
        } else {
          cur := cur + [c];
        }
        i := i + 1;
        continue;
      }
      match c {
        case ' ' | '\t' | '\n' | '\r' =>
          if |cur| > 0 {
            out, cur := out + [cur], "";
          }
        case '\'' | '"' =>
          quote := Some(c);
        case '\\' =>
          if i + 1 < |cmd| {
            i := i + 1;
            cur := cur + [cmd[i]];
          }
        case _ =>
          cur := cur + [c];
      }
      i := i + 1;
    }
    ScanEnds(cmd, Scanner(out, cur, quote));
    if |cur| > 0 {
      out := out + [cur];
    }
  }

  lemma ScanEnds(cmd: string, st: Scanner)
    ensures Scanned(cmd[|cmd|..], st) == st
  {
  }

  lemma Step(cmd: string, i: nat, st: Scanner)
    requires i < |cmd|
    ensures Scanned(cmd[i..], st) == Scanned(cmd[i + Width(cmd[i..], st)..], After(cmd[i..], st))
    ensures Escapes(cmd[i..], st) <==> cmd[i] == '\\' && i + 1 < |cmd| && (st.quote == None || st.quote == Some('"'))
    ensures i + 1 < |cmd| ==> cmd[i..][1] == cmd[i + 1]
  {
    assert cmd[i..][Width(cmd[i..], st)..] == cmd[i + Width(cmd[i..], st)..];
  }

  // --- Printing ---

  datatype Style = Bare | Escaped | SingleQuoted | DoubleQuoted | DoubleEscaped

  // A piece of a word, and how it is written.
  datatype Piece = Piece(text: string, style: Style)

  // A word written piece by piece, and the white space behind it.
  datatype Printed = Printed(pieces: seq<Piece>, gap: char)

  function Escape(w: string): string {
    if w == "" then "" else ['\\', w[0]] + Escape(w[1..])
  }

  function PrintPiece(p: Piece): string {
    match p.style
    case Bare => p.text
    case Escaped => Escape(p.text)
    case SingleQuoted => "'" + p.text + "'"
    case DoubleQuoted => "\"" + p.text + "\""
    case DoubleEscaped => "\"" + Escape(p.text) + "\""
  }

  function PrintWord(ps: seq<Piece>): string {
    if ps == [] then "" else PrintPiece(ps[0]) + PrintWord(ps[1..])
  }

  function WordOf(ps: seq<Piece>): string {
    if ps == [] then "" else ps[0].text + WordOf(ps[1..])
  }

  function Print(ps: seq<Printed>): string {
    if ps == [] then "" else PrintWord(ps[0].pieces) + ([ps[0].gap] + Print(ps[1..]))
  }

  // Which characters stand for themselves under the style.
  predicate Literal(style: Style, c: char) {
    match style
    case Bare => c !in " \t\n\r'\"\\"
    case SingleQuoted => c != '\''
    case DoubleQuoted => c != '"' && c != '\\'
    case _ => true
  }

  predicate Printable(p: Piece) {
    forall i :: 0 <= i < |p.text| ==> Literal(p.style, p.text[i])
  }

  predicate PrintableWord(p: Printed) {
    p.gap in " \t\n\r" && forall i :: 0 <= i < |p.pieces| ==> Printable(p.pieces[i])
  }

  function WordIfAny(p: Printed): seq<string> {
    if WordOf(p.pieces) == "" then [] else [WordOf(p.pieces)]
  }

  function NonEmpty(ps: seq<Printed>): seq<string> {
    if ps == [] then [] else WordIfAny(ps[0]) + NonEmpty(ps[1..])
  }

  lemma {:induction false} ScanEscape(w: string, rest: string, st: Scanner)
    requires st.quote == None || st.quote == Some('"')
    ensures Scanned(Escape(w) + rest, st) == Scanned(rest, st.(cur := st.cur + w))
    decreases |w|
  {
    if w == "" {
      assert Escape(w) + rest == rest && st.cur + w == st.cur;
    } else {
      var all, next := Escape(w) + rest, st.(cur := st.cur + [w[0]]);
      assert all == ['\\', w[0]] + (Escape(w[1..]) + rest);
      assert all[2..] == Escape(w[1..]) + rest;
      ScanEscape(w[1..], rest, next);
      assert next.cur + w[1..] == st.cur + w;
    }
  }

  // The quote under which a style writes its text.
  function QuoteOf(style: Style): Option<char> {
    match style
    case SingleQuoted => Some('\'')
    case DoubleQuoted => Some('"')
    case DoubleEscaped => Some('"')
    case _ => None
  }

  lemma ScanLiteral(style: Style, c: char, rest: string, st: Scanner)
    requires !style.Escaped? && !style.DoubleEscaped? && Literal(style, c) && st.quote == QuoteOf(style)
    ensures Scanned([c] + rest, st) == Scanned(rest, st.(cur := st.cur + [c]))
  {
    assert ([c] + rest)[1..] == rest && !Escapes([c] + rest, st);
  }

  lemma {:induction false} ScanVerbatim(style: Style, w: string, rest: string, st: Scanner)
    requires !style.Escaped? && !style.DoubleEscaped? && st.quote == QuoteOf(style)
    requires forall i :: 0 <= i < |w| ==> Literal(style, w[i])
    ensures Scanned(w + rest, st) == Scanned(rest, st.(cur := st.cur + w))
    decreases |w|
  {
    hide Scanned, Literal, QuoteOf;
    if w == "" {
      assert w + rest == rest && st.cur + w == st.cur;
    } else {
      var next := st.(cur := st.cur + [w[0]]);
      assert w + rest == [w[0]] + (w[1..] + rest);
      ScanLiteral(style, w[0], w[1..] + rest, st);
      ScanVerbatim(style, w[1..], rest, next);
      assert next.cur + w[1..] == st.cur + w;
    }
  }

  lemma ScanQuote(q: char, rest: string, st: Scanner)
    requires IsQuote(q)
    ensures st.quote == None ==> Scanned([q] + rest, st) == Scanned(rest, st.(quote := Some(q)))
    ensures st.quote == Some(q) ==> Scanned([q] + rest, st) == Scanned(rest, st.(quote := None))
  {
    assert ([q] + rest)[1..] == rest;
  }

  // The text of a piece between its quotes, or without any.
  lemma ScanText(p: Piece, rest: string, st: Scanner)
    requires Printable(p) && st.quote == QuoteOf(p.style)
    ensures var text := if p.style.Escaped? || p.style.DoubleEscaped? then Escape(p.text) else p.text;
      Scanned(text + rest, st) == Scanned(rest, st.(cur := st.cur + p.text))
  {
    if p.style.Escaped? || p.style.DoubleEscaped? {
      ScanEscape(p.text, rest, st);
    } else {
      ScanVerbatim(p.style, p.text, rest, st);
    }
  }

  lemma ScanPiece(p: Piece, rest: string, st: Scanner)
    requires Printable(p) && st.quote == None
    ensures Scanned(PrintPiece(p) + rest, st) == Scanned(rest, st.(cur := st.cur + p.text))
  {
    hide Scanned, Printable;
    if QuoteOf(p.style) == None {
      ScanText(p, rest, st);
    } else {
      var q := QuoteOf(p.style).value;
      var text := if p.style.DoubleEscaped? then Escape(p.text) else p.text;
      assert PrintPiece(p) + rest == [q] + (text + ([q] + rest));
      var inside := st.(quote := Some(q));
      ScanQuote(q, text + ([q] + rest), st);
      ScanText(p, [q] + rest, inside);
      ScanQuote(q, rest, inside.(cur := inside.cur + p.text));
    }
  }

  lemma {:induction false} ScanWord(ps: seq<Piece>, rest: string, st: Scanner)
    requires (forall i :: 0 <= i < |ps| ==> Printable(ps[i])) && st.quote == None
    ensures Scanned(PrintWord(ps) + rest, st) == Scanned(rest, st.(cur := st.cur + WordOf(ps)))
    decreases |ps|
  {
    hide Scanned, PrintPiece, Printable;
    if ps == [] {
      assert PrintWord(ps) + rest == rest && st.cur + WordOf(ps) == st.cur;
    } else {
      assert PrintWord(ps) + rest == PrintPiece(ps[0]) + (PrintWord(ps[1..]) + rest);
      var next := st.(cur := st.cur + ps[0].text);
      ScanPiece(ps[0], PrintWord(ps[1..]) + rest, st);
      ScanWord(ps[1..], rest, next);
      assert next.cur + WordOf(ps[1..]) == st.cur + WordOf(ps);
    }
  }

  lemma ScanGap(gap: char, rest: string, st: Scanner)
    requires gap in " \t\n\r" && st.quote == None
    ensures Scanned([gap] + rest, st) == Scanned(rest, Flushed(st))
  {
    assert ([gap] + rest)[1..] == rest;
  }

  lemma ScanNext(p: Printed, rest: string, out: seq<string>)
    requires PrintableWord(p)
    ensures Scanned(PrintWord(p.pieces) + ([p.gap] + rest), Scanner(out, "", None))
      == Scanned(rest, Scanner(out + WordIfAny(p), "", None))
  {
    hide Scanned, Printable;
    var word := WordOf(p.pieces);
    ScanWord(p.pieces, [p.gap] + rest, Scanner(out, "", None));
    assert "" + word == word && out + [] == out;
    ScanGap(p.gap, rest, Scanner(out, word, None));
  }

  lemma {:induction false} ScanPrinted(ps: seq<Printed>, more: string, out: seq<string>)
    requires forall i :: 0 <= i < |ps| ==> PrintableWord(ps[i])
    ensures Scanned(Print(ps) + more, Scanner(out, "", None)) == Scanned(more, Scanner(out + NonEmpty(ps), "", None))
    decreases |ps|
  {
    hide Scanned, PrintableWord;
    if ps == [] {
      assert Print(ps) + more == more && out + NonEmpty(ps) == out;
    } else {
      var tail := Print(ps[1..]) + more;
      assert Print(ps) + more == PrintWord(ps[0].pieces) + ([ps[0].gap] + tail);
      ScanNext(ps[0], tail, out);
      ScanPrinted(ps[1..], more, out + WordIfAny(ps[0]));
      assert out + WordIfAny(ps[0]) + NonEmpty(ps[1..]) == out + NonEmpty(ps);
    }
  }

  // Any list of words, each written in pieces bare, escaped or quoted either way and followed by any
  // kind of white space, is read back, less its empty words; so is a word at the end with nothing
  // behind it.
  lemma {:induction false} PrintedWordsAreReadBack(ps: seq<Printed>, last: seq<Piece>)
    requires (forall i :: 0 <= i < |ps| ==> PrintableWord(ps[i])) && forall i :: 0 <= i < |last| ==> Printable(last[i])
    ensures Words(Print(ps) + PrintWord(last)) == NonEmpty(ps) + if WordOf(last) == "" then [] else [WordOf(last)]
  {
    hide PrintableWord, Printable, Print, PrintWord, WordOf, NonEmpty;
    ScanPrinted(ps, PrintWord(last), []);
    assert [] + NonEmpty(ps) == NonEmpty(ps) && NonEmpty(ps) + [] == NonEmpty(ps);
    var st := Scanner(NonEmpty(ps), "", None);
    ScanWord(last, "", st);
    assert PrintWord(last) + "" == PrintWord(last) && "" + WordOf(last) == WordOf(last);
  }
}
