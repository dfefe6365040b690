// Command lines put together from commands and operators are taken apart again
// (internal/security/classify.go, splitShellPipeline).
module ShellLines {
  import opened Options
  import opened Text
  import opened ShellPipeline

  // What a command may be made of: ordinary characters, escaped ones, quoted text, and an ampersand
  // that belongs to a redirect.
  datatype Piece = Ordinary(c: char) | Escaped(c: char) | Quoted(quote: char, text: string) | Redirect(c: char)

  predicate Good(p: Piece) {
    match p
    case Ordinary(c) => c !in "\\'\"&|;\n"
    case Escaped(_) => true
    case Quoted(quote, text) => (quote == '\'' || quote == '"') && quote !in text
    case Redirect(c) => c == '>' || c == '<'
  }

  predicate AllGood(ps: seq<Piece>) {
    forall i :: 0 <= i < |ps| ==> Good(ps[i])
  }

  function Printed(p: Piece): string {
    match p
    case Ordinary(c) => [c]
    case Escaped(c) => ['\\', c]
    case Quoted(quote, text) => [quote] + text + [quote]
    case Redirect(c) => [c, '&']
  }

  function Command(ps: seq<Piece>): string {
    if ps == [] then "" else Printed(ps[0]) + Command(ps[1..])
  }

  // A command and the operator behind it.
  datatype Joint = Joint(pieces: seq<Piece>, op: string)

  predicate IsOperator(op: string) {
    op == ";" || op == "\n" || op == "|" || op == "||" || op == "&" || op == "&&"
  }

  // A command that is not blank; in front of an ampersand it does not end in a redirect.
  predicate GoodJoint(j: Joint) {
    && AllGood(j.pieces) && TrimSpace(Command(j.pieces)) != "" && IsOperator(j.op)
    && (j.op[0] == '&' ==> var text := Command(j.pieces); text[|text| - 1] != '>' && text[|text| - 1] != '<')
  }

  function Line(js: seq<Joint>, last: seq<Piece>): string {
    if js == [] then Command(last) else Command(js[0].pieces) + (js[0].op + Line(js[1..], last))
  }

  function Commands(js: seq<Joint>): (r: seq<string>)
    ensures |r| == |js| && forall i :: 0 <= i < |js| ==> r[i] == TrimSpace(Command(js[i].pieces))
  {
    seq(|js|, i requires 0 <= i < |js| => TrimSpace(Command(js[i].pieces)))
  }

  // --- Scanning one piece after the other ---

  lemma {:induction false} ScanQuoted(text: string, quote: char, rest: string, st: Scanner)
    requires st.quote == Some(quote) && quote !in text
    ensures Scanned(text + ([quote] + rest), st) == Scanned(rest, st.(cur := st.cur + text + [quote], quote := None))
    decreases |text|
  {
    var all := text + ([quote] + rest);
    if text == "" {
      assert all == [quote] + rest && all[1..] == rest && st.cur + text == st.cur;
    } else {
      assert text[0] in text && forall c :: c in text[1..] ==> c in text;
      assert all[0] == text[0] && all[1..] == text[1..] + ([quote] + rest);
      var next := st.(cur := st.cur + [text[0]]);
      ScanQuoted(text[1..], quote, rest, next);
      assert next.cur + text[1..] == st.cur + text;
    }
  }

  lemma ScanOrdinary(c: char, rest: string, st: Scanner)
    requires c !in "\\'\"&|;\n" && st.quote == None
    ensures Scanned([c] + rest, st) == Scanned(rest, st.(cur := st.cur + [c]))
  {
    var all := [c] + rest;
    assert all[0] == c && all[1..] == rest && Width(all, st) == 1 && After(all, st) == st.(cur := st.cur + [c]);
  }

  lemma ScanEscaped(c: char, rest: string, st: Scanner)
    requires st.quote == None
    ensures Scanned(['\\', c] + rest, st) == Scanned(rest, st.(cur := st.cur + ['\\', c]))
  {
    var all := ['\\', c] + rest;
    assert all[0] == '\\' && all[2..] == rest && all[..2] == ['\\', c];
    assert Width(all, st) == 2 && After(all, st) == st.(cur := st.cur + ['\\', c]);
  }

  lemma ScanQuote(quote: char, rest: string, st: Scanner)
    requires (quote == '\'' || quote == '"') && st.quote == None
    ensures Scanned([quote] + rest, st) == Scanned(rest, st.(cur := st.cur + [quote], quote := Some(quote)))
  {
    var all := [quote] + rest;
    assert all[0] == quote && all[1..] == rest && Width(all, st) == 1;
  }

  lemma ScanAmpersand(rest: string, st: Scanner)
    requires st.quote == None && EndsInRedirect(st.cur)
    ensures Scanned(['&'] + rest, st) == Scanned(rest, st.(cur := st.cur + ['&']))
  {
    var all := ['&'] + rest;
    assert all[0] == '&' && all[1..] == rest && Width(all, st) == 1;
  }

  lemma ScanPiece(p: Piece, rest: string, st: Scanner)
    requires Good(p) && st.quote == None
    ensures Scanned(Printed(p) + rest, st) == Scanned(rest, st.(cur := st.cur + Printed(p)))
  {
    hide Scanned;
    match p {
      case Ordinary(c) => ScanOrdinary(c, rest, st);
      case Escaped(c) => ScanEscaped(c, rest, st);
      case Quoted(quote, text) =>
        var next := st.(cur := st.cur + [quote], quote := Some(quote));
        ScanQuote(quote, text + ([quote] + rest), st);
        ScanQuoted(text, quote, rest, next);
        Appended(st.cur, [quote], text, [quote], rest);
      case Redirect(c) =>
        var next := st.(cur := st.cur + [c]);
        ScanOrdinary(c, ['&'] + rest, st);
        ScanAmpersand(rest, next);
        assert Printed(p) + rest == [c] + (['&'] + rest) && next.cur + ['&'] == st.cur + Printed(p);
    }
  }

  lemma Appended<T>(cur: seq<T>, a: seq<T>, b: seq<T>, c: seq<T>, rest: seq<T>)
    ensures (a + b + c) + rest == a + (b + (c + rest))
    ensures cur + a + b + c == cur + (a + b + c)
  {
  }

  lemma {:induction false} ScanCommand(ps: seq<Piece>, rest: string, st: Scanner)
    requires AllGood(ps) && st.quote == None
    ensures Scanned(Command(ps) + rest, st) == Scanned(rest, st.(cur := st.cur + Command(ps)))
    decreases |ps|
  {
    hide Scanned, Printed, Good;
    if ps == [] {
      assert Command(ps) + rest == rest && st.cur + Command(ps) == st.cur;
    } else {
      var more := Command(ps[1..]) + rest;
      assert Command(ps) + rest == Printed(ps[0]) + more;
      ScanPiece(ps[0], more, st);
      var next := st.(cur := st.cur + Printed(ps[0]));
      ScanCommand(ps[1..], rest, next);
      assert next.cur + Command(ps[1..]) == st.cur + Command(ps);
    }
  }

  // What follows an operator never looks like more of it.
  predicate NoOperator(rest: string) {
    rest == "" || (rest[0] != '|' && rest[0] != '&')
  }

  lemma CommandOpens(ps: seq<Piece>, rest: string)
    requires AllGood(ps) && (ps == [] ==> rest == "")
    ensures NoOperator(Command(ps) + rest)
  {
  }

  lemma LineOpens(js: seq<Joint>, last: seq<Piece>)
    requires (forall i :: 0 <= i < |js| ==> GoodJoint(js[i])) && AllGood(last)
    ensures NoOperator(Line(js, last))
  {
    if js == [] {
      CommandOpens(last, "");
      assert Command(last) + "" == Command(last);
    } else {
      CommandOpens(js[0].pieces, js[0].op + Line(js[1..], last));
    }
  }

  lemma ScanOperator(op: string, rest: string, st: Scanner)
    requires IsOperator(op) && NoOperator(rest) && st.quote == None
    requires op[0] == '&' ==> !EndsInRedirect(st.cur)
    ensures Scanned(op + rest, st) == Scanned(rest, Flushed(st))
  {
    var all := op + rest;
    assert all[0] == op[0] && (|op| == 2 ==> all[1] == op[1]) && (|op| == 1 && rest != "" ==> all[1] == rest[0]);
    assert all[|op|..] == rest;
  }

  // --- The round trip ---

  lemma JointIsScanned(j: Joint, rest: string, st: Scanner)
    requires GoodJoint(j) && NoOperator(rest) && st.quote == None && st.cur == ""
    ensures Scanned(Command(j.pieces) + (j.op + rest), st)
         == Scanned(rest, st.(out := st.out + [TrimSpace(Command(j.pieces))]))
  {
    var text := Command(j.pieces);
    assert "" + text == text;
    ScanCommand(j.pieces, j.op + rest, st);
    RedirectEnds(text);
    ScanOperator(j.op, rest, st.(cur := text));
  }

  lemma RedirectEnds(text: string)
    requires TrimSpace(text) != ""
    ensures text != "" && (EndsInRedirect(text) <==> text[|text| - 1] == '>' || text[|text| - 1] == '<')
  {
  }

  // The command behind the last operator, unless blank.
  function Rest(last: seq<Piece>): seq<string> {
    if TrimSpace(Command(last)) == "" then [] else [TrimSpace(Command(last))]
  }

  lemma LastIsScanned(last: seq<Piece>, st: Scanner)
    requires AllGood(last) && st.quote == None && st.cur == ""
    ensures Flushed(Scanned(Command(last), st)).out == st.out + Rest(last)
  {
    assert Command(last) + "" == Command(last) && "" + Command(last) == Command(last);
    ScanCommand(last, "", st);
  }

  lemma {:induction false} LineIsScanned(js: seq<Joint>, last: seq<Piece>, st: Scanner)
    requires (forall i :: 0 <= i < |js| ==> GoodJoint(js[i])) && AllGood(last)
    requires st.quote == None && st.cur == ""
    ensures Flushed(Scanned(Line(js, last), st)).out == st.out + (Commands(js) + Rest(last))
    decreases |js|
  {
    hide Scanned, Command, TrimSpace, GoodJoint, AllGood, Rest, Flushed;
    if js == [] {
      LastIsScanned(last, st);
      assert Commands(js) + Rest(last) == Rest(last);
    } else {
      var text := TrimSpace(Command(js[0].pieces));
      LineOpens(js[1..], last);
      JointIsScanned(js[0], Line(js[1..], last), st);
      LineIsScanned(js[1..], last, st.(out := st.out + [text]));
      assert Commands(js) == [text] + Commands(js[1..]);
      Regrouped(st.out, text, Commands(js[1..]), Rest(last));
    }
  }

  lemma Regrouped(a: seq<string>, x: string, b: seq<string>, c: seq<string>)
    ensures (a + [x]) + (b + c) == a + (([x] + b) + c)
  {
  }

  // A line put together from commands and operators is split into exactly these commands, in order
  // and without the white space around them: every operator splits, doubled ones once, and nothing
  // quoted, escaped or behind a redirect does.
  lemma LineIsTakenApart(js: seq<Joint>, last: seq<Piece>)
    requires (forall i :: 0 <= i < |js| ==> GoodJoint(js[i])) && AllGood(last)
    ensures Segments(Line(js, last)) == Commands(js) + Rest(last)
  {
    LineIsScanned(js, last, START);
  }
}
