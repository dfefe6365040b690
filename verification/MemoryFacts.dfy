// The memory index never drifts from the files it describes, and no entry is lost or altered
// but the one an operation is about.
module MemoryFacts {
  import opened Ids
  import opened Options
  import opened MemoryStore

  // --- Counting chunks ---

  function Image<T>(s: seq<Chunk>, f: Chunk -> T): multiset<T> {
    if s == [] then multiset{} else Image(s[..|s| - 1], f) + multiset{f(s[|s| - 1])}
  }

  lemma {:induction false} ImageConcat<T>(a: seq<Chunk>, b: seq<Chunk>, f: Chunk -> T)
    ensures Image(a + b, f) == Image(a, f) + Image(b, f)
    decreases |b|
  {
    if b == [] {
      assert a + b == a;
    } else {
      var init := b[..|b| - 1];
      assert (a + b)[..|a + b| - 1] == a + init;
      ImageConcat(a, init, f);
    }
  }

  lemma {:induction false} ImageSnoc<T>(s: seq<Chunk>, c: Chunk, f: Chunk -> T)
    ensures Image(s + [c], f) == Image(s, f) + multiset{f(c)}
  {
    assert (s + [c])[..|s|] == s;
  }

  lemma Unpick(s: seq<Chunk>, k: nat)
    requires k < |s|
    ensures multiset(s) == multiset(s[..k] + s[k + 1..]) + multiset{s[k]}
  {
    assert s == s[..k] + [s[k]] + s[k + 1..];
  }

  lemma {:induction false} ImageWithout<T>(s: seq<Chunk>, k: nat, f: Chunk -> T)
    requires k < |s|
    ensures Image(s, f) == Image(s[..k] + s[k + 1..], f) + multiset{f(s[k])}
  {
    var upto, tail := s[..k + 1], s[k + 1..];
    assert upto[..k] == s[..k] && s == upto + tail;
    ImageConcat(upto, tail, f);
    ImageConcat(s[..k], tail, f);
  }

  lemma IndexOf(s: seq<Chunk>, c: Chunk) returns (k: nat)
    requires c in multiset(s)
    ensures k < |s| && s[k] == c
  {
    var i :| 0 <= i < |s| && s[i] == c;
    k := i;
  }

  lemma Cancel<T>(a: multiset<T>, b: multiset<T>, x: T)
    requires a + multiset{x} == b + multiset{x}
    ensures a == b
  {
    assert a == (a + multiset{x}) - multiset{x} && b == (b + multiset{x}) - multiset{x};
  }

  // What a list of chunks says does not depend on its order.
  lemma {:induction false} ImagePermuted<T>(a: seq<Chunk>, b: seq<Chunk>, f: Chunk -> T)
    requires multiset(a) == multiset(b)
    ensures Image(a, f) == Image(b, f)
    decreases |a|
  {
    assert |a| == |multiset(a)| && |b| == |multiset(b)|;
    if a != [] {
      var init, last := a[..|a| - 1], a[|a| - 1];
      assert a == init + [last];
      assert last in multiset(a);
      var k := IndexOf(b, last);
      Unpick(b, k);
      ImageWithout(b, k, f);
      Cancel(multiset(init), multiset(b[..k] + b[k + 1..]), last);
      ImagePermuted(init, b[..k] + b[k + 1..], f);
    }
  }

  lemma {:induction false} ImagePointwise<T>(a: seq<Chunk>, b: seq<Chunk>, f: Chunk -> T)
    requires |a| == |b| && forall i :: 0 <= i < |a| ==> f(a[i]) == f(b[i])
    ensures Image(a, f) == Image(b, f)
  {
    if a != [] {
      ImagePointwise(a[..|a| - 1], b[..|b| - 1], f);
    }
  }

  // --- The rebuild, chunk by chunk ---

  // The line c points at says exactly this.
  ghost predicate Recorded(files: map<int, seq<Line>>, c: Chunk) {
    Pointed(files, c) == Some(Entry(c.category, c.text)) && c.text != ""
  }

  ghost function Expected(env: Env, files: map<int, seq<Line>>, c: Chunk): nat {
    if c.file == None then multiset(EvergreenChunks(env.evergreen))[c]
    else if Recorded(files, c) then 1 else 0
  }

  // One of the first n lines says c, and c points at it.
  ghost predicate FoundIn(day: int, lines: seq<Line>, n: nat, c: Chunk)
    requires n <= |lines|
  {
    c.file == Some(day) && 0 <= c.line < n && lines[c.line] == Entry(c.category, c.text) && c.text != ""
  }

  lemma FoundStep(day: int, lines: seq<Line>, n: nat, c: Chunk)
    requires 0 < n <= |lines|
    ensures var l := lines[n - 1];
      var last := Readable(l) && c == Chunk(Some(day), n - 1, l.category, l.text);
      (FoundIn(day, lines, n, c) <==> FoundIn(day, lines, n - 1, c) || last) && !(FoundIn(day, lines, n - 1, c) && last)
  {
  }

  lemma {:induction false} FileChunksCount(day: int, lines: seq<Line>, n: nat, c: Chunk)
    requires n <= |lines|
    ensures multiset(FileChunks(day, lines, n))[c] == if FoundIn(day, lines, n, c) then 1 else 0
  {
    if n > 0 {
      hide FoundIn;
      FileChunksCount(day, lines, n - 1, c);
      FoundStep(day, lines, n, c);
      var before, l := FileChunks(day, lines, n - 1), lines[n - 1];
      if Readable(l) {
        CountSnoc(before, Chunk(Some(day), n - 1, l.category, l.text), c);
      } else {
        assert FileChunks(day, lines, n) == before;
      }
    }
  }

  lemma CountSnoc(s: seq<Chunk>, last: Chunk, c: Chunk)
    ensures multiset(s + [last])[c] == multiset(s)[c] + if last == c then 1 else 0
  {
  }

  lemma {:induction false} DailyCount(files: map<int, seq<Line>>, days: seq<int>, c: Chunk)
    requires forall i, j :: 0 <= i < j < |days| ==> days[i] < days[j]
    ensures multiset(DailyChunks(files, days))[c]
      == if c.file.Some? && c.file.value in days && Recorded(files, c) then 1 else 0
  {
    hide FileChunks;
    if days != [] {
      var init, day := days[..|days| - 1], days[|days| - 1];
      DailyCount(files, init, c);
      assert days == init + [day];
      if day in files {
        FileChunksCount(day, files[day], |files[day]|, c);
      }
    }
  }

  lemma RebuiltCount(env: Env, files: map<int, seq<Line>>, c: Chunk)
    ensures multiset(Rebuilt(env, files))[c] == Expected(env, files, c)
  {
    var evergreen := EvergreenChunks(env.evergreen);
    DailyCount(files, SortedIds(files.Keys), c);
    if c.file.Some? && multiset(evergreen)[c] > 0 {
      var k := IndexOf(evergreen, c);
    }
  }

  // The index holds exactly the chunks a rebuild would read, each as often.
  ghost predicate Agrees(env: Env, m: Memory) {
    multiset(m.chunks) == multiset(Rebuilt(env, m.files))
  }

  lemma AgreesMeans(env: Env, m: Memory)
    ensures Agrees(env, m) <==> forall c :: multiset(m.chunks)[c] == Expected(env, m.files, c)
  {
    forall c
      ensures multiset(Rebuilt(env, m.files))[c] == Expected(env, m.files, c)
    {
      RebuiltCount(env, m.files, c);
    }
  }

  lemma AgreedCount(env: Env, m: Memory, c: Chunk)
    requires Agrees(env, m)
    ensures multiset(m.chunks)[c] == Expected(env, m.files, c)
  {
    RebuiltCount(env, m.files, c);
  }

  lemma CountOff(env: Env, m: Memory, c: Chunk)
    requires multiset(m.chunks)[c] != Expected(env, m.files, c)
    ensures !Agrees(env, m)
  {
    RebuiltCount(env, m.files, c);
  }

  lemma IndexedIsRecorded(env: Env, m: Memory, k: nat)
    requires Agrees(env, m) && k < |m.chunks| && m.chunks[k].file.Some?
    ensures Recorded(m.files, m.chunks[k]) && multiset(m.chunks)[m.chunks[k]] == 1
  {
    AgreesMeans(env, m);
    assert m.chunks[k] in multiset(m.chunks);
  }

  // --- Replacing ---

  lemma Rewritten(m: Memory, k: nat, content: string, x: Chunk)
    requires k < |m.chunks| && Recorded(m.files, m.chunks[k]) && content != ""
    ensures var c := m.chunks[k];
      Recorded(ReplaceAt(m, k, content).files, x) <==>
        x == c.(text := content) || (Recorded(m.files, x) && x != c)
  {
  }

  lemma ReplacedChunks(m: Memory, k: nat, content: string)
    requires k < |m.chunks| && Pointed(m.files, m.chunks[k]).Some? && Pointed(m.files, m.chunks[k]).value.Entry?
    ensures var c, m' := m.chunks[k], ReplaceAt(m, k, content);
      multiset(m'.chunks) + multiset{c} == multiset(m.chunks) + multiset{c.(text := content)}
  {
    var m' := ReplaceAt(m, k, content);
    Unpick(m.chunks, k);
    Unpick(m'.chunks, k);
    assert m'.chunks[..k] + m'.chunks[k + 1..] == m.chunks[..k] + m.chunks[k + 1..];
  }

  lemma NotYetRecorded(files: map<int, seq<Line>>, c: Chunk, content: string)
    requires Recorded(files, c) && c.text != content
    ensures !Recorded(files, c.(text := content))
  {
  }

  lemma ReplaceCounts(env: Env, m: Memory, k: nat, content: string, x: Chunk)
    requires Agrees(env, m) && k < |m.chunks| && m.chunks[k].file.Some? && Recorded(m.files, m.chunks[k])
      && content != ""
    ensures var m' := ReplaceAt(m, k, content); multiset(m'.chunks)[x] == Expected(env, m'.files, x)
  {
    var m', c := ReplaceAt(m, k, content), m.chunks[k];
    var c' := c.(text := content);
    hide Agrees, Recorded, ReplaceAt;
    IndexedIsRecorded(env, m, k);
    AgreedCount(env, m, x);
    Rewritten(m, k, content, x);
    ReplacedChunks(m, k, content);
    if c.text != content {
      NotYetRecorded(m.files, c, content);
    }
    AgreedCount(env, m, c');
  }

  lemma ReplaceAgreesIff(env: Env, m: Memory, k: nat, content: string)
    requires Agrees(env, m) && k < |m.chunks| && m.chunks[k].file.Some?
    requires Pointed(m.files, m.chunks[k]).Some? && Pointed(m.files, m.chunks[k]).value.Entry?
    ensures Agrees(env, ReplaceAt(m, k, content)) <==> content != ""
  {
    var m' := ReplaceAt(m, k, content);
    var c' := m.chunks[k].(text := content);
    IndexedIsRecorded(env, m, k);
    if content == "" {
      assert m'.chunks[k] == c' && c' in multiset(m'.chunks);
      CountOff(env, m', c');
    } else {
      forall x
        ensures multiset(m'.chunks)[x] == Expected(env, m'.files, x)
      {
        ReplaceCounts(env, m, k, content, x);
      }
      AgreesMeans(env, m');
    }
  }

  // --- Appending ---

  // Readable entries, one to a line, and a final line break.
  predicate Tidy(lines: seq<Line>) {
    lines != [] && lines[|lines| - 1] == Blank && forall i :: 0 <= i < |lines| - 1 ==> Readable(lines[i])
  }

  function ReadableCount(lines: seq<Line>, n: nat): nat
    requires n <= |lines|
  {
    if n == 0 then 0 else ReadableCount(lines, n - 1) + (if Readable(lines[n - 1]) then 1 else 0)
  }

  lemma {:induction false} AllReadableIff(lines: seq<Line>, n: nat)
    requires n <= |lines|
    ensures ReadableCount(lines, n) <= n
    ensures ReadableCount(lines, n) == n <==> forall i :: 0 <= i < n ==> Readable(lines[i])
  {
    if n > 0 {
      AllReadableIff(lines, n - 1);
    }
  }

  function FileOf(c: Chunk): Option<int> {
    c.file
  }

  lemma {:induction false} CountInImage(s: seq<Chunk>, day: int)
    ensures CountIn(s, day) == Image(s, FileOf)[Some(day)]
  {
    if s != [] {
      CountInImage(s[..|s| - 1], day);
    }
  }

  lemma {:induction false} FilesOfOneFile(day: int, lines: seq<Line>, n: nat, other: int)
    requires n <= |lines|
    ensures Image(FileChunks(day, lines, n), FileOf)[Some(other)] == if other == day then ReadableCount(lines, n) else 0
  {
    if n > 0 {
      FilesOfOneFile(day, lines, n - 1, other);
      var before, l := FileChunks(day, lines, n - 1), lines[n - 1];
      if Readable(l) {
        ImageSnoc(before, Chunk(Some(day), n - 1, l.category, l.text), FileOf);
      } else {
        assert FileChunks(day, lines, n) == before;
      }
    }
  }

  lemma {:induction false} FilesOfDays(files: map<int, seq<Line>>, days: seq<int>, day: int)
    requires forall i, j :: 0 <= i < j < |days| ==> days[i] < days[j]
    ensures Image(DailyChunks(files, days), FileOf)[Some(day)] ==
      if day in days then ReadableCount(LinesOf(files, day), |LinesOf(files, day)|) else 0
  {
    if days != [] {
      var init, last := days[..|days| - 1], days[|days| - 1];
      FilesOfDays(files, init, day);
      assert days == init + [last];
      ImageConcat(DailyChunks(files, init),
                  if last in files then FileChunks(last, files[last], |files[last]|) else [], FileOf);
      if last in files {
        FilesOfOneFile(last, files[last], |files[last]|, day);
      }
    }
  }

  lemma {:induction false} NoFiles(s: seq<Chunk>, day: int)
    requires forall i :: 0 <= i < |s| ==> s[i].file == None
    ensures Image(s, FileOf)[Some(day)] == 0
  {
    if s != [] {
      NoFiles(s[..|s| - 1], day);
    }
  }

  // The line number given to a new entry is the number of readable lines in its file.
  lemma NewLineIs(env: Env, m: Memory, day: int)
    requires Agrees(env, m)
    ensures CountIn(m.chunks, day) == ReadableCount(LinesOf(m.files, day), |LinesOf(m.files, day)|)
  {
    var evergreen, days := EvergreenChunks(env.evergreen), SortedIds(m.files.Keys);
    CountInImage(m.chunks, day);
    ImagePermuted(m.chunks, Rebuilt(env, m.files), FileOf);
    ImageConcat(evergreen, DailyChunks(m.files, days), FileOf);
    NoFiles(evergreen, day);
    FilesOfDays(m.files, days, day);
  }

  lemma AppendedLine(files: map<int, seq<Line>>, day: int, l: Line, x: Chunk)
    requires l.Entry? && l.text != ""
    requires var lines := LinesOf(files, day); lines == [] || lines[|lines| - 1] == Blank
    ensures var lines := LinesOf(files, day);
      Recorded(files[day := Appended(lines, l)], x) <==>
        Recorded(files, x) || x == Chunk(Some(day), if lines == [] then 0 else |lines| - 1, l.category, l.text)
  {
  }

  lemma AppendCounts(env: Env, m: Memory, day: int, category: string, content: string, x: Chunk)
    requires Agrees(env, m) && content != ""
    requires var lines := LinesOf(m.files, day);
      CountIn(m.chunks, day) == (if lines == [] then 0 else |lines| - 1) && (lines == [] || lines[|lines| - 1] == Blank)
    ensures var m' := AppendNew(m, day, category, content); multiset(m'.chunks)[x] == Expected(env, m'.files, x)
  {
    var m', c := AppendNew(m, day, category, content), Chunk(Some(day), CountIn(m.chunks, day), category, content);
    RebuiltCount(env, m.files, x);
    AppendedLine(m.files, day, Entry(category, content), x);
    assert multiset(m'.chunks)[x] == multiset(m.chunks)[x] + if x == c then 1 else 0;
  }

  lemma AppendToTidy(env: Env, m: Memory, day: int, category: string, content: string)
    requires Agrees(env, m) && content != ""
    requires var lines := LinesOf(m.files, day); lines == [] || Tidy(lines)
    ensures Agrees(env, AppendNew(m, day, category, content))
  {
    hide Agrees, Recorded;
    var lines, m' := LinesOf(m.files, day), AppendNew(m, day, category, content);
    NewLineIs(env, m, day);
    if lines != [] {
      AllReadableIff(lines, |lines| - 1);
    }
    forall x
      ensures multiset(m'.chunks)[x] == Expected(env, m'.files, x)
    {
      AppendCounts(env, m, day, category, content, x);
    }
    AgreesMeans(env, m');
  }

  lemma SpoiltLine(files: map<int, seq<Line>>, day: int, l: Line, c: Chunk)
    requires var lines := LinesOf(files, day); lines != [] && lines[|lines| - 1] != Blank
    ensures Recorded(files[day := Appended(LinesOf(files, day), l)], c) ==> Recorded(files, c)
  {
  }

  lemma AppendToSpoilt(env: Env, m: Memory, day: int, category: string, content: string)
    requires Agrees(env, m)
    requires var lines := LinesOf(m.files, day); lines != [] && lines[|lines| - 1] != Blank
    ensures !Agrees(env, AppendNew(m, day, category, content))
  {
    hide Agrees, CountIn, Recorded, Appended, LinesOf;
    var m' := AppendNew(m, day, category, content);
    var c := Chunk(Some(day), CountIn(m.chunks, day), category, content);
    assert multiset(m'.chunks)[c] == multiset(m.chunks)[c] + 1;
    AgreedCount(env, m, c);
    SpoiltLine(m.files, day, Entry(category, content), c);
    CountOff(env, m', c);
  }

  lemma AppendMissed(env: Env, m: Memory, day: int, category: string, content: string)
    requires Agrees(env, m) && content != ""
    requires var lines := LinesOf(m.files, day);
      lines != [] && lines[|lines| - 1] == Blank && CountIn(m.chunks, day) != |lines| - 1
    ensures !Agrees(env, AppendNew(m, day, category, content))
  {
    var m', c := AppendNew(m, day, category, content), Chunk(Some(day), CountIn(m.chunks, day), category, content);
    var y := c.(line := |LinesOf(m.files, day)| - 1);
    RebuiltCount(env, m.files, y);
    AppendedLine(m.files, day, Entry(category, content), y);
    assert m'.chunks == m.chunks + [c] && y != c;
    CountOff(env, m', y);
  }

  lemma AppendToGaps(env: Env, m: Memory, day: int, category: string, content: string)
    requires Agrees(env, m) && content != ""
    requires var lines := LinesOf(m.files, day); lines != [] && lines[|lines| - 1] == Blank && !Tidy(lines)
    ensures !Agrees(env, AppendNew(m, day, category, content))
  {
    hide Agrees, AppendNew;
    var lines := LinesOf(m.files, day);
    NewLineIs(env, m, day);
    AllReadableIff(lines, |lines| - 1);
    AppendMissed(env, m, day, category, content);
  }

  // An appended entry is indexed where it stands exactly when it says something and its file
  // was absent or held one readable entry to a line.
  lemma AppendAgreesIff(env: Env, m: Memory, day: int, category: string, content: string)
    requires Agrees(env, m)
    ensures Agrees(env, AppendNew(m, day, category, content)) <==>
      content != "" && (LinesOf(m.files, day) == [] || Tidy(LinesOf(m.files, day)))
  {
    var lines, m' := LinesOf(m.files, day), AppendNew(m, day, category, content);
    if content == "" {
      var c := Chunk(Some(day), CountIn(m.chunks, day), category, content);
      assert multiset(m'.chunks)[c] == multiset(m.chunks)[c] + 1;
      CountOff(env, m', c);
    } else if lines == [] || Tidy(lines) {
      AppendToTidy(env, m, day, category, content);
    } else if lines[|lines| - 1] != Blank {
      AppendToSpoilt(env, m, day, category, content);
    } else {
      AppendToGaps(env, m, day, category, content);
    }
  }

  // --- Deleting ---

  function BackDown(c: Chunk, day: int, line: int): Chunk {
    if c.file == Some(day) && c.line >= line then c.(line := c.line + 1) else c
  }

  lemma {:induction false} MovedUpCount(s: seq<Chunk>, day: int, line: int, c: Chunk)
    requires forall i :: 0 <= i < |s| ==> s[i].file != Some(day) || s[i].line != line
    ensures multiset(AllMovedUp(s, day, line))[c] == multiset(s)[BackDown(c, day, line)]
  {
    if s != [] {
      var init, last := s[..|s| - 1], s[|s| - 1];
      MovedUpCount(init, day, line, c);
      assert s == init + [last];
      assert AllMovedUp(s, day, line) == AllMovedUp(init, day, line) + [MovedUp(last, day, line)];
      assert MovedUp(last, day, line) == c <==> last == BackDown(c, day, line);
    }
  }

  lemma SameLine(files: map<int, seq<Line>>, a: Chunk, b: Chunk)
    requires Recorded(files, a) && Recorded(files, b) && a.file == b.file && a.line == b.line
    ensures a == b
  {
  }

  lemma OnlyAtItsLine(env: Env, m: Memory, k: nat, i: nat)
    requires Agrees(env, m) && k < |m.chunks| && m.chunks[k].file.Some?
    requires var s := m.chunks[..k] + m.chunks[k + 1..]; i < |s|
    ensures var s := m.chunks[..k] + m.chunks[k + 1..]; s[i].file != m.chunks[k].file || s[i].line != m.chunks[k].line
  {
    hide Agrees, Recorded;
    var s, c := m.chunks[..k] + m.chunks[k + 1..], m.chunks[k];
    Unpick(m.chunks, k);
    IndexedIsRecorded(env, m, k);
    assert s[i] in multiset(s);
    var j := if i < k then i else i + 1;
    assert s[i] == m.chunks[j];
    if s[i].file == c.file && s[i].line == c.line {
      IndexedIsRecorded(env, m, j);
      SameLine(m.files, s[i], c);
    }
  }

  lemma LineGone(files: map<int, seq<Line>>, day: int, line: nat, c: Chunk)
    requires day in files && line < |files[day]|
    ensures Recorded(WithoutLine(files, day, line), c) <==> Recorded(files, BackDown(c, day, line))
  {
    var rest := files[day][..line] + files[day][line + 1..];
    if c.file == Some(day) && 0 <= c.line < |rest| {
      assert rest[c.line] == files[day][BackDown(c, day, line).line];
    }
  }

  lemma DeleteCounts(env: Env, m: Memory, k: nat, x: Chunk)
    requires Agrees(env, m) && k < |m.chunks| && m.chunks[k].file.Some? && Pointed(m.files, m.chunks[k]).Some?
    requires var c, s := m.chunks[k], m.chunks[..k] + m.chunks[k + 1..];
      forall i :: 0 <= i < |s| ==> s[i].file != c.file || s[i].line != c.line
    ensures var m' := DeleteAt(m, k); multiset(m'.chunks)[x] == Expected(env, m'.files, x)
  {
    hide Agrees, Recorded, WithoutLine;
    var c, s := m.chunks[k], m.chunks[..k] + m.chunks[k + 1..];
    var day, y := c.file.value, BackDown(x, c.file.value, c.line);
    Unpick(m.chunks, k);
    MovedUpCount(s, day, c.line, x);
    LineGone(m.files, day, c.line, x);
    AgreedCount(env, m, y);
    assert y != c;
  }

  // Deleting an indexed entry keeps index and files in step, whatever the files look like.
  lemma DeleteKeepsAgreement(env: Env, m: Memory, k: nat)
    requires Agrees(env, m) && k < |m.chunks| && m.chunks[k].file.Some? && Pointed(m.files, m.chunks[k]).Some?
    ensures Agrees(env, DeleteAt(m, k))
  {
    hide Agrees, Pointed, DeleteAt, Expected;
    var m', c, s := DeleteAt(m, k), m.chunks[k], m.chunks[..k] + m.chunks[k + 1..];
    forall i | 0 <= i < |s|
      ensures s[i].file != c.file || s[i].line != c.line
    {
      OnlyAtItsLine(env, m, k, i);
    }
    forall x
      ensures multiset(m'.chunks)[x] == Expected(env, m'.files, x)
    {
      DeleteCounts(env, m, k, x);
    }
    AgreesMeans(env, m');
  }

  // --- Every run ---

  predicate TidyFiles(files: map<int, seq<Line>>) {
    forall day :: day in files ==> Tidy(files[day])
  }

  ghost predicate InStep(env: Env, m: Memory) {
    Agrees(env, m) && TidyFiles(m.files)
  }

  lemma WriteCase(
    env: Env, m: Memory, content: string, category: string, today: int, m': Memory, reply: Reply)
    returns (at: Option<int>)
    requires Wrote(env, m, content, category, today, m', reply) && |content| <= MAX_MEMORY_CONTENT_LEN
    ensures WroteAt(m, content, CategoryOf(category), today, at, m', reply)
    ensures at.Some? ==>
      0 <= at.value < |m.chunks| && Replaceable(env, m.files, content, CategoryOf(category), m.chunks[at.value])
  {
    at :| IsDuplicate(env, m, content, CategoryOf(category), at)
      && WroteAt(m, content, CategoryOf(category), today, at, m', reply);
  }

  lemma AppendKeepsTidy(m: Memory, day: int, category: string, content: string)
    requires TidyFiles(m.files) && content != ""
    ensures TidyFiles(AppendNew(m, day, category, content).files)
    ensures LinesOf(m.files, day) == [] || Tidy(LinesOf(m.files, day))
  {
  }

  lemma ReplaceKeepsTidy(m: Memory, k: nat, content: string)
    requires TidyFiles(m.files) && content != ""
    requires k < |m.chunks| && Pointed(m.files, m.chunks[k]).Some? && Pointed(m.files, m.chunks[k]).value.Entry?
    ensures TidyFiles(ReplaceAt(m, k, content).files)
  {
  }

  lemma DeleteKeepsTidy(m: Memory, k: nat)
    requires TidyFiles(m.files) && k < |m.chunks| && Recorded(m.files, m.chunks[k])
    ensures TidyFiles(DeleteAt(m, k).files)
  {
    var day, line := m.chunks[k].file.value, m.chunks[k].line;
    var lines := m.files[day];
    var rest := lines[..line] + lines[line + 1..];
    assert line < |lines| - 1;
    assert rest[|rest| - 1] == lines[|lines| - 1];
    assert Tidy(rest);
  }

  lemma WriteKeepsStep(env: Env, m: Memory, content: string, category: string, today: int, m': Memory, reply: Reply)
    requires InStep(env, m) && content != "" && Wrote(env, m, content, category, today, m', reply)
    ensures InStep(env, m')
  {
    if |content| <= MAX_MEMORY_CONTENT_LEN {
      var cat := CategoryOf(category);
      var at := WriteCase(env, m, content, category, today, m', reply);
      if at == None {
        AppendKeepsTidy(m, today, cat, content);
        AppendToTidy(env, m, today, cat, content);
      } else {
        ReplaceKeepsTidy(m, at.value, content);
        ReplaceAgreesIff(env, m, at.value, content);
      }
    }
  }

  lemma BestIsRecorded(env: Env, m: Memory, query: string, category: string, k: nat)
    requires Agrees(env, m) && IsBest(env, m.chunks, query, category, |m.chunks|, Some(k))
    ensures k < |m.chunks| && Searched(category, m.chunks[k]) && Recorded(m.files, m.chunks[k])
  {
    IndexedIsRecorded(env, m, k);
  }

  // What a deletion in step with the files did: it hit a recorded chunk or changed nothing.
  lemma DeleteCase(env: Env, m: Memory, query: string, category: string, m': Memory, reply: Reply) returns (k: nat)
    requires Agrees(env, m) && Deleted(env, m, query, category, m', reply)
    ensures reply.Removed? || (m' == m && (reply == EmptyQuery || reply == NoMatch))
    ensures reply.Removed? ==> k < |m.chunks| && Searched(category, m.chunks[k]) && Recorded(m.files, m.chunks[k])
    ensures reply.Removed? ==>
      reply.text == m.chunks[k].text && IsSimilar(env, query, reply.text) && m' == DeleteAt(m, k)
  {
    hide Agrees, DeleteAt, Rebuilt;
    k := 0;
    if !env.wordless(query) {
      var at :| IsBest(env, m.chunks, query, category, |m.chunks|, at) && DeletedAt(env, m, query, at, m', reply);
      if at.Some? {
        k := at.value;
        BestIsRecorded(env, m, query, category, k);
      }
    }
  }

  lemma DeleteKeepsStep(env: Env, m: Memory, query: string, category: string, m': Memory, reply: Reply)
    requires InStep(env, m) && Deleted(env, m, query, category, m', reply)
    ensures InStep(env, m') && reply != OutOfSync && reply != Unreadable
  {
    var k := DeleteCase(env, m, query, category, m', reply);
    if reply.Removed? {
      DeleteKeepsTidy(m, k);
      DeleteKeepsAgreement(env, m, k);
    }
  }

  datatype Op = Write(content: string, category: string, today: int) | Delete(query: string, category: string)

  // One operation, what it left behind and what it answered.
  datatype Event = Event(op: Op, after: Memory, reply: Reply)

  // Non-empty writes and deletions, one after the other.
  ghost predicate Ran(env: Env, m: Memory, events: seq<Event>)
    decreases |events|
  {
    events == [] || (Happened(env, m, events[0]) && Ran(env, events[0].after, events[1..]))
  }

  ghost predicate Happened(env: Env, m: Memory, e: Event) {
    match e.op
    case Write(content, category, today) => content != "" && Wrote(env, m, content, category, today, e.after, e.reply)
    case Delete(query, category) => Deleted(env, m, query, category, e.after, e.reply)
  }

  ghost predicate Sound(env: Env, e: Event) {
    InStep(env, e.after) && (e.op.Delete? ==> e.reply != OutOfSync && e.reply != Unreadable)
  }

  lemma EventIsSound(env: Env, m: Memory, e: Event)
    requires InStep(env, m) && Happened(env, m, e)
    ensures Sound(env, e)
  {
    match e.op {
      case Write(content, category, today) => WriteKeepsStep(env, m, content, category, today, e.after, e.reply);
      case Delete(query, category) => DeleteKeepsStep(env, m, query, category, e.after, e.reply);
    }
  }

  lemma FreshIsInStep(env: Env, files: map<int, seq<Line>>)
    requires TidyFiles(files)
    ensures InStep(env, Memory(files, Rebuilt(env, files)))
  {
  }

  lemma {:induction false} RunStaysInStep(env: Env, m: Memory, events: seq<Event>, n: nat)
    requires InStep(env, m) && Ran(env, m, events) && n < |events|
    ensures Sound(env, events[n])
    decreases |events|
  {
    EventIsSound(env, m, events[0]);
    if n > 0 {
      RunStaysInStep(env, events[0].after, events[1..], n - 1);
    }
  }

  // After any run of non-empty writes and deletions from a freshly loaded, tidy directory, the
  // index holds what a rebuild would read, and no deletion ever finds it out of step.
  lemma IndexNeverDrifts(env: Env, files: map<int, seq<Line>>, events: seq<Event>, n: nat)
    requires TidyFiles(files) && Ran(env, Memory(files, Rebuilt(env, files)), events) && n < |events|
    ensures Agrees(env, events[n].after)
    ensures events[n].op.Delete? ==> events[n].reply != OutOfSync && events[n].reply != Unreadable
  {
    FreshIsInStep(env, files);
    RunStaysInStep(env, Memory(files, Rebuilt(env, files)), events, n);
  }

  // --- What is on record ---

  function EntryOf(c: Chunk): Line {
    Entry(c.category, c.text)
  }

  // Every memory a rebuild would read, as often as it is recorded.
  function Memories(env: Env, files: map<int, seq<Line>>): multiset<Line> {
    Image(Rebuilt(env, files), EntryOf)
  }

  lemma MemoriesAreIndexed(env: Env, m: Memory)
    requires Agrees(env, m)
    ensures Memories(env, m.files) == Image(m.chunks, EntryOf)
  {
    ImagePermuted(m.chunks, Rebuilt(env, m.files), EntryOf);
  }

  lemma AppendRecords(m: Memory, day: int, category: string, content: string)
    ensures Image(AppendNew(m, day, category, content).chunks, EntryOf)
      == Image(m.chunks, EntryOf) + multiset{Entry(category, content)}
  {
    var c := Chunk(Some(day), CountIn(m.chunks, day), category, content);
    ImageSnoc(m.chunks, c, EntryOf);
  }

  lemma ReplaceRecords(m: Memory, k: nat, content: string)
    requires k < |m.chunks| && Pointed(m.files, m.chunks[k]).Some? && Pointed(m.files, m.chunks[k]).value.Entry?
    ensures var before, after := Image(m.chunks, EntryOf), Image(ReplaceAt(m, k, content).chunks, EntryOf);
      && EntryOf(m.chunks[k]) in before
      && after == before - multiset{EntryOf(m.chunks[k])} + multiset{Entry(m.chunks[k].category, content)}
  {
    var m' := ReplaceAt(m, k, content);
    ImageWithout(m.chunks, k, EntryOf);
    ImageWithout(m'.chunks, k, EntryOf);
    assert m'.chunks[..k] + m'.chunks[k + 1..] == m.chunks[..k] + m.chunks[k + 1..];
  }

  lemma DeleteRecords(m: Memory, k: nat)
    requires k < |m.chunks| && Pointed(m.files, m.chunks[k]).Some?
    ensures Image(m.chunks, EntryOf) == Image(DeleteAt(m, k).chunks, EntryOf) + multiset{EntryOf(m.chunks[k])}
  {
    var c, s := m.chunks[k], m.chunks[..k] + m.chunks[k + 1..];
    ImageWithout(m.chunks, k, EntryOf);
    ImagePointwise(s, AllMovedUp(s, c.file.value, c.line), EntryOf);
  }

  ghost predicate Gained(env: Env, m: Memory, m': Memory, e: Line) {
    Memories(env, m'.files) == Memories(env, m.files) + multiset{e}
  }

  ghost predicate Swapped(env: Env, m: Memory, m': Memory, category: string, was: string, now: string) {
    && Entry(category, was) in Memories(env, m.files)
    && Memories(env, m'.files)
      == Memories(env, m.files) - multiset{Entry(category, was)} + multiset{Entry(category, now)}
  }

  predicate IsSimilar(env: Env, a: string, b: string) {
    env.similarity(a, b) >= DEDUPLICATE_THRESHOLD
  }

  // A write adds exactly its entry, or puts it in the place of exactly one sufficiently similar
  // entry of its category; everything else on disk stays.
  lemma WriteRecords(env: Env, m: Memory, content: string, category: string, today: int, m': Memory, reply: Reply)
    requires InStep(env, m) && content != "" && Wrote(env, m, content, category, today, m', reply)
    ensures |content| > MAX_MEMORY_CONTENT_LEN ==> m' == m && reply == TooLong
    ensures |content| <= MAX_MEMORY_CONTENT_LEN ==> reply == Saved || reply.Replaced?
    ensures reply == Saved ==> Gained(env, m, m', Entry(CategoryOf(category), content))
    ensures reply.Replaced? ==>
      exists was :: IsSimilar(env, content, was) && Swapped(env, m, m', CategoryOf(category), was, content)
  {
    WriteKeepsStep(env, m, content, category, today, m', reply);
    MemoriesAreIndexed(env, m);
    MemoriesAreIndexed(env, m');
    if |content| <= MAX_MEMORY_CONTENT_LEN {
      var at := WriteCase(env, m, content, category, today, m', reply);
      if at == None {
        AppendRecords(m, today, CategoryOf(category), content);
      } else {
        ReplaceRecords(m, at.value, content);
        var was := m.chunks[at.value].text;
        assert IsSimilar(env, content, was) && Swapped(env, m, m', CategoryOf(category), was, content);
      }
    }
  }

  // A deletion removes exactly one occurrence of one entry that matches the query, and nothing
  // else; without a match nothing changes.
  lemma DeleteRemovesOne(env: Env, m: Memory, query: string, category: string, m': Memory, reply: Reply)
    requires InStep(env, m) && Deleted(env, m, query, category, m', reply)
    ensures !reply.Removed? ==> m' == m
    ensures reply.Removed? ==> IsSimilar(env, query, reply.text)
    ensures reply.Removed? ==>
      exists cat :: (category != "" ==> cat == category) && Gained(env, m', m, Entry(cat, reply.text))
  {
    DeleteKeepsStep(env, m, query, category, m', reply);
    MemoriesAreIndexed(env, m);
    MemoriesAreIndexed(env, m');
    var k := DeleteCase(env, m, query, category, m', reply);
    if reply.Removed? {
      DeleteRecords(m, k);
      assert Gained(env, m', m, Entry(m.chunks[k].category, reply.text));
    }
  }

  // --- An empty memory does happen ---

  function Reloaded(env: Env, files: map<int, seq<Line>>): Memory {
    Memory(files, Rebuilt(env, files))
  }

  const EMPTY_ENTRY := Entry("fact", "")

  lemma OneDay(day: int)
    ensures SortedIds({day}) == [day]
  {
    assert Min({day}) == day && {day} - {day} == {};
  }

  // A directory without a single readable entry.
  ghost predicate SaysNothing(env: Env, files: map<int, seq<Line>>) {
    Rebuilt(env, files) == EvergreenChunks(env.evergreen)
  }

  lemma NothingThere(env: Env)
    ensures SaysNothing(env, map[])
  {
    var none: map<int, seq<Line>> := map[];
    assert none.Keys == {} && DailyChunks(none, []) == [];
    assert EvergreenChunks(env.evergreen) + [] == EvergreenChunks(env.evergreen);
  }

  lemma EmptyEntrySaysNothing(env: Env, day: int)
    ensures SaysNothing(env, map[day := [EMPTY_ENTRY, Blank]])
  {
    var files, lines := map[day := [EMPTY_ENTRY, Blank]], [EMPTY_ENTRY, Blank];
    assert files.Keys == {day};
    OneDay(day);
    assert FileChunks(day, lines, 1) == FileChunks(day, lines, 0) == [];
    assert [day][..0] == [] && DailyChunks(files, [day]) == [];
    assert EvergreenChunks(env.evergreen) + [] == EvergreenChunks(env.evergreen);
  }

  lemma {:induction false} EvergreenIsUncounted(chunks: seq<Chunk>, day: int)
    requires forall i :: 0 <= i < |chunks| ==> chunks[i].file == None
    ensures CountIn(chunks, day) == 0
  {
    if chunks != [] {
      EvergreenIsUncounted(chunks[..|chunks| - 1], day);
    }
  }

  // Nothing to replace: the write appends, and takes its line to be the first.
  lemma WritesFirst(env: Env, files: map<int, seq<Line>>, content: string, day: int)
    requires SaysNothing(env, files) && |content| <= MAX_MEMORY_CONTENT_LEN
    ensures var m := Reloaded(env, files);
      && Wrote(env, m, content, "", day, AppendNew(m, day, "fact", content), Saved)
      && AppendNew(m, day, "fact", content).chunks == m.chunks + [Chunk(Some(day), 0, "fact", content)]
  {
    var m := Reloaded(env, files);
    EvergreenIsUncounted(m.chunks, day);
    hide Rebuilt, AppendNew;
    assert CategoryOf("") == "fact" && IsDuplicate(env, m, content, CategoryOf(""), None);
    assert WroteAt(m, content, CategoryOf(""), day, None, AppendNew(m, day, "fact", content), Saved);
  }

  // An empty memory, saved into an empty directory: index and files part at once.
  lemma EmptyWriteDrifts(env: Env, day: int) returns (m: Memory)
    ensures Wrote(env, Reloaded(env, map[]), "", "", day, m, Saved) && !Agrees(env, m)
    ensures m.files == map[day := [EMPTY_ENTRY, Blank]]
  {
    var m0 := Reloaded(env, map[]);
    m := AppendNew(m0, day, "fact", "");
    hide Wrote, Rebuilt, Agrees;
    NothingThere(env);
    WritesFirst(env, map[], "", day);
    ReloadedAgrees(env, map[]);
    AppendAgreesIff(env, m0, day, "fact", "");
  }

  // And after a reload the next memory of the day is indexed one line too high.
  lemma NextWriteIsMisplaced(env: Env, day: int, content: string) returns (m: Memory)
    requires content != "" && |content| <= MAX_MEMORY_CONTENT_LEN
    ensures var m0 := Reloaded(env, map[day := [EMPTY_ENTRY, Blank]]);
      && Wrote(env, m0, content, "", day, m, Saved)
      && m.chunks == m0.chunks + [Chunk(Some(day), 0, "fact", content)]
      && m.files == map[day := [EMPTY_ENTRY, Entry("fact", content), Blank]]
  {
    var files := map[day := [EMPTY_ENTRY, Blank]];
    m := AppendNew(Reloaded(env, files), day, "fact", content);
    assert Appended([EMPTY_ENTRY, Blank], Entry("fact", content)) == [EMPTY_ENTRY, Entry("fact", content), Blank];
    hide Wrote, Rebuilt, AppendNew;
    EmptyEntrySaysNothing(env, day);
    WritesFirst(env, files, content, day);
  }

  lemma ReloadedAgrees(env: Env, files: map<int, seq<Line>>)
    ensures Agrees(env, Reloaded(env, files))
  {
  }
}
