// Splitting a command line into segments (internal/security/classify.go, splitShellPipeline).
//
// Segments are the commands a shell would run one by one; quotes and escapes keep operators from
// splitting them.
module ShellPipeline {
  import opened Options
  import opened Text

  // Segments finished, the segment being read, and the open quote.
  datatype Scanner = Scanner(out: seq<string>, cur: string, quote: Option<char>)

  const START := Scanner([], "", None)

  function Segment(cur: string): seq<string> {
    if TrimSpace(cur) == "" then [] else [TrimSpace(cur)]
  }

  function Flushed(st: Scanner): Scanner {
    st.(out := st.out + Segment(st.cur), cur := "")
  }

  predicate EndsInRedirect(cur: string) {
    cur != "" && (cur[|cur| - 1] == '>' || cur[|cur| - 1] == '<')
  }

  // The character read and the next one belong together: an escape, or a doubled operator.
  predicate Doubled(rest: string, st: Scanner)
    requires rest != ""
  {
    |rest| > 1 && st.quote == None
    && (rest[0] == '\\' || (rest[0] == '|' && rest[1] == '|')
        || (rest[0] == '&' && rest[1] == '&' && !EndsInRedirect(st.cur)))
  }

  function Width(rest: string, st: Scanner): (n: nat)
    requires rest != ""
    ensures 1 <= n <= |rest|
  {
    if Doubled(rest, st) then 2 else 1
  }

  function After(rest: string, st: Scanner): Scanner
    requires rest != ""
  {
    var c := rest[0];
    if st.quote.Some? then st.(cur := st.cur + [c], quote := if c == st.quote.value then None else st.quote)
    else if c == '\\' then st.(cur := st.cur + rest[..Width(rest, st)])
    else if c == '\'' || c == '"' then st.(cur := st.cur + [c], quote := Some(c))
    else if c == '&' then if EndsInRedirect(st.cur) then st.(cur := st.cur + [c]) else Flushed(st)
    else if c == '|' || c == ';' || c == '\n' then Flushed(st)
    else st.(cur := st.cur + [c])
  }

  function Scanned(rest: string, st: Scanner): Scanner
    decreases |rest|
  {
    if rest == "" then st else Scanned(rest[Width(rest, st)..], After(rest, st))
  }

  function Segments(cmd: string): seq<string> {
    Flushed(Scanned(cmd, START)).out
  }

  method SplitShellPipeline(cmd: string) returns (out: seq<string>)
    ensures out == Segments(cmd)
  {
    hide Scanned, TrimSpace, Flushed;
    out := [];
    var cur, quote: Option<char> := "", None;
    var i := 0;
    assert cmd[0..] == cmd;
    while i < |cmd|
      invariant 0 <= i <= |cmd| && Scanned(cmd[i..], Scanner(out, cur, quote)) == Scanned(cmd, START)
    {
      var c := cmd[i];
      Step(cmd, i, Scanner(out, cur, quote));
      if quote.Some? {
        cur := cur + [c];
        if c == quote.value {
          quote := None;
        }
        i := i + 1;
        continue;
      }
      match c {
        case '\\' =>
          cur := cur + [c];
          if i + 1 < |cmd| {
            i := i + 1;
            cur := cur + [cmd[i]];
          }
        case '\'' | '"' =>
          quote := Some(c);
          cur := cur + [c];
        case '&' =>
          if |cur| > 0 && (cur[|cur| - 1] == '>' || cur[|cur| - 1] == '<') {
            cur := cur + [c];
          } else {
            if i + 1 < |cmd| && cmd[i + 1] == '&' {
              i := i + 1;
            }
            out, cur := Flush(out, cur);
          }
        case '|' =>
          if i + 1 < |cmd| && cmd[i + 1] == '|' {
            i := i + 1;
          }
          out, cur := Flush(out, cur);
        case ';' | '\n' =>
          out, cur := Flush(out, cur);
        case _ =>
          cur := cur + [c];
      }
      i := i + 1;
    }
    ScanEnds(cmd, Scanner(out, cur, quote));
    out, cur := Flush(out, cur);
  }

  lemma ScanEnds(cmd: string, st: Scanner)
    ensures Scanned(cmd[|cmd|..], st) == st
  {
  }

  method Flush(out: seq<string>, cur: string) returns (out': seq<string>, cur': string)
    ensures forall quote :: Scanner(out', cur', quote) == Flushed(Scanner(out, cur, quote))
  {
    var s := TrimSpace(cur);
    out', cur' := out, "";
    if s != "" {
      out' := out' + [s];
    }
  }

  lemma Step(cmd: string, i: nat, st: Scanner)
    requires i < |cmd|
    ensures Scanned(cmd[i..], st) == Scanned(cmd[i + Width(cmd[i..], st)..], After(cmd[i..], st))
    ensures i + 1 < |cmd| ==> cmd[i..][1] == cmd[i + 1] && cmd[i..][..2] == [cmd[i], cmd[i + 1]]
    ensures cmd[i..][..1] == [cmd[i]]
    ensures i + 1 < |cmd| ==> st.cur + [cmd[i]] + [cmd[i + 1]] == st.cur + [cmd[i], cmd[i + 1]]
  {
    assert cmd[i..][Width(cmd[i..], st)..] == cmd[i + Width(cmd[i..], st)..];
  }

  // --- Splitting at a semicolon ---

  // The scan ends inside quotes or right behind a backslash that has nothing to escape.
  predicate EndsOpen(rest: string, st: Scanner)
    decreases |rest|
  {
    if rest == "" then st.quote.Some?
    else (rest == "\\" && st.quote == None) || EndsOpen(rest[Width(rest, st)..], After(rest, st))
  }

  predicate IsSeparator(c: char) {
    c == ';' || c == '\n'
  }

  // A separator behind the text does not change how the text is read.
  lemma StepIsLocal(rest: string, sep: char, more: string, st: Scanner)
    requires rest != "" && IsSeparator(sep) && !(rest == "\\" && st.quote == None)
    ensures var all := rest + ([sep] + more);
      Width(all, st) == Width(rest, st) && After(all, st) == After(rest, st)
      && all[Width(all, st)..] == rest[Width(rest, st)..] + ([sep] + more)
  {
    var all := rest + ([sep] + more);
    assert all[0] == rest[0] && (|rest| > 1 ==> all[1] == rest[1]) && (|rest| == 1 ==> all[1] == sep);
    assert all[..Width(rest, st)] == rest[..Width(rest, st)];
  }

  lemma {:induction false} ScanReachesSeparator(rest: string, sep: char, more: string, st: Scanner)
    requires IsSeparator(sep) && !EndsOpen(rest, st)
    ensures Scanned(rest + ([sep] + more), st) == Scanned([sep] + more, Scanned(rest, st))
      && Scanned(rest, st).quote == None
    decreases |rest|
  {
    if rest == "" {
      assert rest + ([sep] + more) == [sep] + more;
    } else {
      StepIsLocal(rest, sep, more, st);
      ScanReachesSeparator(rest[Width(rest, st)..], sep, more, After(rest, st));
    }
  }

  lemma ScanSeparator(sep: char, more: string, st: Scanner)
    requires IsSeparator(sep) && st.quote == None
    ensures Scanned([sep] + more, st) == Scanned(more, Flushed(st))
  {
    assert ([sep] + more)[1..] == more;
  }

  function Behind(pre: seq<string>, st: Scanner): Scanner {
    st.(out := pre + st.out)
  }

  lemma {:induction false} EarlierSegmentsDoNotMatter(pre: seq<string>, rest: string, st: Scanner)
    ensures Scanned(rest, Behind(pre, st)) == Behind(pre, Scanned(rest, st))
    decreases |rest|
  {
    if rest != "" {
      assert pre + (st.out + Segment(st.cur)) == pre + st.out + Segment(st.cur);
      EarlierSegmentsDoNotMatter(pre, rest[Width(rest, st)..], After(rest, st));
    }
  }

  // Two commands joined by a separator are split into the segments of the one and then those of
  // the other, unless the first leaves a quote or an escape open.
  lemma SplitsAtSeparator(a: string, sep: char, b: string)
    requires IsSeparator(sep) && !EndsOpen(a, START)
    ensures Segments(a + ([sep] + b)) == Segments(a) + Segments(b)
  {
    ScanReachesSeparator(a, sep, b, START);
    var st := Scanned(a, START);
    ScanSeparator(sep, b, st);
    assert Flushed(st) == Behind(Segments(a), START) by {
      assert Segments(a) + [] == Segments(a);
    }
    EarlierSegmentsDoNotMatter(Segments(a), b, START);
    var end := Scanned(b, START);
    assert Segments(a) + end.out + Segment(end.cur) == Segments(a) + (end.out + Segment(end.cur));
  }

  // --- What goes wrong otherwise ---

  ghost predicate FirstInk(s: string, l: nat) {
    l < |s| && !IsSpace(s[l]) && forall i :: 0 <= i < l ==> IsSpace(s[i])
  }

  lemma {:induction false} InkSomewhere(s: string, i: nat) returns (l: nat)
    requires i < |s| && !IsSpace(s[i])
    ensures FirstInk(s, l)
    decreases i
  {
    l := i;
    if j :| 0 <= j < i && !IsSpace(s[j]) {
      l := InkSomewhere(s, j);
    }
  }

  lemma {:induction false} TrimLength(s: string, l: nat, j: nat)
    requires FirstInk(s, l) && l <= j < |s| && !IsSpace(s[j])
    ensures j - l < |TrimSpace(s)| <= |s| - l
    decreases |s|
  {
    if l > 0 {
      TrimLength(s[1..], l - 1, j - 1);
    } else if IsSpace(s[|s| - 1]) {
      TrimLength(s[..|s| - 1], l, j);
    }
  }

  lemma {:induction false} OutGrows(rest: string, st: Scanner)
    ensures st.out <= Flushed(Scanned(rest, st)).out
    decreases |rest|
  {
    if rest != "" {
      OutGrows(rest[Width(rest, st)..], After(rest, st));
    }
  }

  // A segment with something in it is finished sooner or later, with more text at its end.
  lemma {:induction false} SegmentIsFinished(rest: string, st: Scanner, l: nat) returns (y: string)
    requires FirstInk(st.cur, l)
    ensures var out := Flushed(Scanned(rest, st)).out; |st.out| < |out| && out[|st.out|] == TrimSpace(st.cur + y)
    decreases |rest|
  {
    TrimLength(st.cur, l, l);
    y := "";
    assert st.cur + y == st.cur;
    if rest != "" {
      var next, n := After(rest, st), Width(rest, st);
      if next.cur == "" {
        OutGrows(rest[n..], next);
        assert next.out[|st.out|] == TrimSpace(st.cur);
      } else {
        var z := next.cur[|st.cur|..];
        assert next.cur == st.cur + z;
        var more := SegmentIsFinished(rest[n..], next, l);
        y := z + more;
        assert st.cur + y == next.cur + more;
      }
    }
  }

  ghost predicate QuoteIsRead(st: Scanner) {
    st.quote.Some? ==>
      (st.quote.value == '\'' || st.quote.value == '"') && exists i :: 0 <= i < |st.cur| && st.cur[i] == st.quote.value
  }

  lemma StepKeepsQuote(rest: string, st: Scanner)
    requires rest != "" && QuoteIsRead(st)
    ensures QuoteIsRead(After(rest, st))
  {
    var next := After(rest, st);
    if next.quote.Some? {
      if st.quote.Some? {
        var i :| 0 <= i < |st.cur| && st.cur[i] == st.quote.value;
        assert next.cur[i] == next.quote.value;
      } else {
        assert next.cur[|st.cur|] == next.quote.value;
      }
    }
  }

  // An open quote or escape swallows the semicolon.
  lemma {:induction false} SemicolonIsSwallowed(rest: string, more: string, st: Scanner) returns (l: nat)
    requires QuoteIsRead(st) && EndsOpen(rest, st)
    ensures var end := Scanned(rest, st);
      FirstInk(end.cur, l) && Scanned(rest + ([';'] + more), st) == Scanned(more, end.(cur := end.cur + ";"))
    decreases |rest|
  {
    if rest == "" {
      var i :| 0 <= i < |st.cur| && st.cur[i] == st.quote.value;
      l := InkSomewhere(st.cur, i);
      assert rest + ([';'] + more) == [';'] + more && ([';'] + more)[1..] == more;
    } else if rest == "\\" && st.quote == None {
      var all := rest + ([';'] + more);
      assert all[2..] == more && all[..2] == "\\;" && rest[1..] == "" && rest[..1] == rest;
      assert st.cur + "\\;" == st.cur + "\\" + ";";
      assert (st.cur + "\\")[|st.cur|] == '\\';
      l := InkSomewhere(st.cur + "\\", |st.cur|);
    } else {
      StepIsLocal(rest, ';', more, st);
      StepKeepsQuote(rest, st);
      l := SemicolonIsSwallowed(rest[Width(rest, st)..], more, After(rest, st));
    }
  }

  lemma OpenCommandRunsOn(a: string, b: string)
    requires EndsOpen(a, START)
    ensures Segments(a + ([';'] + b)) != Segments(a) + Segments(b)
  {
    var l := SemicolonIsSwallowed(a, b, START);
    var end := Scanned(a, START);
    assert FirstInk(end.cur + ";", l);
    var y := SegmentIsFinished(b, end.(cur := end.cur + ";"), l);
    var longer, k := end.cur + ";" + y, |end.cur|;
    assert longer[k] == ';' && FirstInk(longer, l);
    TrimLength(longer, l, k);
    TrimLength(end.cur, l, l);
    assert (Segments(a) + Segments(b))[|end.out|] == TrimSpace(end.cur);
  }

  // Splitting distributes over a semicolon exactly when the first command leaves nothing open.
  lemma SplitsAtSemicolonIff(a: string, b: string)
    ensures Segments(a + ([';'] + b)) == Segments(a) + Segments(b) <==> !EndsOpen(a, START)
  {
    if EndsOpen(a, START) {
      OpenCommandRunsOn(a, b);
    } else {
      SplitsAtSeparator(a, ';', b);
    }
  }
}
