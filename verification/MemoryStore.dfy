// Long-term memory: daily files of one entry per line and their index (internal/memory/store.go).
module MemoryStore {
  import opened Ids
  import opened Options

  const DEDUPLICATE_THRESHOLD := 0.7
  const MAX_MEMORY_CONTENT_LEN := 2000

  // One line of a daily file: white space, something that does not parse, or an entry.
  datatype Line = Blank | Garbage | Entry(category: string, text: string)

  // An indexed memory. Paragraphs of MEMORY.md belong to no daily file.
  datatype Chunk = Chunk(file: Option<int>, line: int, category: string, text: string)

  // Daily files by day, and the index.
  datatype Memory = Memory(files: map<int, seq<Line>>, chunks: seq<Chunk>)

  // Token overlap of two texts, texts without any token, and the paragraphs of MEMORY.md.
  datatype Env = Env(similarity: (string, string) -> real, wordless: string -> bool, evergreen: seq<(string, string)>)

  datatype Reply = TooLong | Replaced(day: int) | Saved | EmptyQuery | NoMatch | Unreadable | OutOfSync
    | Removed(text: string)

  // --- What a rebuild reads from disk ---

  function EvergreenChunks(paras: seq<(string, string)>): (r: seq<Chunk>)
    ensures forall i :: 0 <= i < |r| ==> r[i].file == None
  {
    if paras == [] then [] else
      var p := paras[|paras| - 1];
      EvergreenChunks(paras[..|paras| - 1]) + [Chunk(None, 0, p.0, p.1)]
  }

  predicate Readable(l: Line) {
    l.Entry? && l.text != ""
  }

  // The chunks of the first n lines.
  function FileChunks(day: int, lines: seq<Line>, n: nat): seq<Chunk>
    requires n <= |lines|
  {
    if n == 0 then [] else
      FileChunks(day, lines, n - 1)
      + (var l := lines[n - 1]; if Readable(l) then [Chunk(Some(day), n - 1, l.category, l.text)] else [])
  }

  function DailyChunks(files: map<int, seq<Line>>, days: seq<int>): seq<Chunk> {
    if days == [] then [] else
      var day := days[|days| - 1];
      DailyChunks(files, days[..|days| - 1]) + (if day in files then FileChunks(day, files[day], |files[day]|) else [])
  }

  function Rebuilt(env: Env, files: map<int, seq<Line>>): seq<Chunk> {
    EvergreenChunks(env.evergreen) + DailyChunks(files, SortedIds(files.Keys))
  }

  // --- Replacing a similar entry ---

  // The line an index entry points at, if the file and the line exist.
  function Pointed(files: map<int, seq<Line>>, c: Chunk): Option<Line> {
    if c.file.Some? && c.file.value in files && 0 <= c.line < |files[c.file.value]|
    then Some(files[c.file.value][c.line]) else None
  }

  predicate Replaceable(env: Env, files: map<int, seq<Line>>, content: string, category: string, c: Chunk) {
    c.file.Some? && c.category == category && env.similarity(content, c.text) >= DEDUPLICATE_THRESHOLD
    && Pointed(files, c).Some? && Pointed(files, c).value.Entry?
  }

  // The first replaceable chunk, if any.
  ghost predicate IsDuplicate(env: Env, m: Memory, content: string, category: string, at: Option<int>) {
    match at
    case None => forall i :: 0 <= i < |m.chunks| ==> !Replaceable(env, m.files, content, category, m.chunks[i])
    case Some(k) =>
      0 <= k < |m.chunks| && Replaceable(env, m.files, content, category, m.chunks[k])
      && forall i :: 0 <= i < k ==> !Replaceable(env, m.files, content, category, m.chunks[i])
  }

  // The entry keeps its line and its own category.
  function ReplaceAt(m: Memory, k: nat, content: string): Memory
    requires k < |m.chunks| && Pointed(m.files, m.chunks[k]).Some? && Pointed(m.files, m.chunks[k]).value.Entry?
  {
    var c := m.chunks[k];
    var day := c.file.value;
    var lines := m.files[day];
    Memory(m.files[day := lines[c.line := lines[c.line].(text := content)]], m.chunks[k := c.(text := content)])
  }

  // --- Appending ---

  // Text and a line break added to a file. An unfinished last line is spoilt.
  function Appended(lines: seq<Line>, l: Line): seq<Line> {
    if lines == [] then [l, Blank]
    else lines[..|lines| - 1] + [if lines[|lines| - 1] == Blank then l else Garbage, Blank]
  }

  function LinesOf(files: map<int, seq<Line>>, day: int): seq<Line> {
    if day in files then files[day] else []
  }

  function CountIn(chunks: seq<Chunk>, day: int): nat {
    if chunks == [] then 0 else
      CountIn(chunks[..|chunks| - 1], day) + (if chunks[|chunks| - 1].file == Some(day) then 1 else 0)
  }

  function AppendNew(m: Memory, day: int, category: string, content: string): Memory {
    Memory(m.files[day := Appended(LinesOf(m.files, day), Entry(category, content))],
           m.chunks + [Chunk(Some(day), CountIn(m.chunks, day), category, content)])
  }

  function CategoryOf(category: string): string {
    if category == "" then "fact" else category
  }

  ghost predicate Wrote(env: Env, m: Memory, content: string, category: string, today: int, m': Memory, reply: Reply) {
    if |content| > MAX_MEMORY_CONTENT_LEN then m' == m && reply == TooLong
    else exists at ::
      && IsDuplicate(env, m, content, CategoryOf(category), at)
      && WroteAt(m, content, CategoryOf(category), today, at, m', reply)
  }

  ghost predicate WroteAt(
    m: Memory, content: string, category: string, today: int, at: Option<int>, m': Memory, reply: Reply)
  {
    match at
    case None => m' == AppendNew(m, today, category, content) && reply == Saved
    case Some(k) =>
      && 0 <= k < |m.chunks| && Pointed(m.files, m.chunks[k]).Some? && Pointed(m.files, m.chunks[k]).value.Entry?
      && m' == ReplaceAt(m, k, content) && reply == Replaced(m.chunks[k].file.value)
  }

  // --- Deleting ---

  predicate Searched(category: string, c: Chunk) {
    c.file.Some? && (category != "" ==> c.category == category)
  }

  // The most similar chunk above zero among those searched, the first of equals.
  ghost predicate IsBest(env: Env, chunks: seq<Chunk>, query: string, category: string, n: int, at: Option<int>) {
    0 <= n <= |chunks| &&
    match at
    case None => forall i :: 0 <= i < n && Searched(category, chunks[i]) ==>
      env.similarity(query, chunks[i].text) <= 0.0
    case Some(k) =>
      && 0 <= k < n && Searched(category, chunks[k]) && env.similarity(query, chunks[k].text) > 0.0
      && (forall i :: 0 <= i < n && Searched(category, chunks[i]) ==>
            env.similarity(query, chunks[i].text) <= env.similarity(query, chunks[k].text))
      && forall i :: 0 <= i < k && Searched(category, chunks[i]) ==>
            env.similarity(query, chunks[i].text) < env.similarity(query, chunks[k].text)
  }

  predicate AllBlank(lines: seq<Line>) {
    forall i :: 0 <= i < |lines| ==> lines[i] == Blank
  }

  // A file left without any entry disappears.
  function WithoutLine(files: map<int, seq<Line>>, day: int, line: nat): map<int, seq<Line>>
    requires day in files && line < |files[day]|
  {
    var rest := files[day][..line] + files[day][line + 1..];
    if AllBlank(rest) then files - {day} else files[day := rest]
  }

  // Chunks below a removed line move up.
  function MovedUp(c: Chunk, day: int, line: int): Chunk {
    if c.file == Some(day) && c.line > line then c.(line := c.line - 1) else c
  }

  function AllMovedUp(chunks: seq<Chunk>, day: int, line: int): (r: seq<Chunk>)
    ensures |r| == |chunks| && forall i :: 0 <= i < |r| ==> r[i] == MovedUp(chunks[i], day, line)
  {
    seq(|chunks|, i requires 0 <= i < |chunks| => MovedUp(chunks[i], day, line))
  }

  function DeleteAt(m: Memory, k: nat): Memory
    requires k < |m.chunks| && Pointed(m.files, m.chunks[k]).Some?
  {
    var c := m.chunks[k];
    Memory(WithoutLine(m.files, c.file.value, c.line),
      AllMovedUp(m.chunks[..k] + m.chunks[k + 1..], c.file.value, c.line))
  }

  ghost predicate Deleted(env: Env, m: Memory, query: string, category: string, m': Memory, reply: Reply) {
    if env.wordless(query) then m' == m && reply == EmptyQuery
    else exists at :: IsBest(env, m.chunks, query, category, |m.chunks|, at) && DeletedAt(env, m, query, at, m', reply)
  }

  ghost predicate DeletedAt(env: Env, m: Memory, query: string, at: Option<int>, m': Memory, reply: Reply) {
    if at.None? || !(0 <= at.value < |m.chunks|)
      || env.similarity(query, m.chunks[at.value].text) < DEDUPLICATE_THRESHOLD
    then m' == m && reply == NoMatch
    else
      var c := m.chunks[at.value];
      if c.file.None? || c.file.value !in m.files then m' == m && reply == Unreadable
      else if Pointed(m.files, c).None? then m' == m.(chunks := Rebuilt(env, m.files)) && reply == OutOfSync
      else m' == DeleteAt(m, at.value) && reply == Removed(c.text)
  }

  // --- The store ---

  class Store {
    const env: Env
    var files: map<int, seq<Line>>
    var chunks: seq<Chunk>

    function View(): Memory
      reads this
    {
      Memory(files, chunks)
    }

    constructor (env: Env, files: map<int, seq<Line>>)
      ensures this.env == env && View() == Memory(files, Rebuilt(env, files))
    {
      this.env, this.files := env, files;
      chunks := [];
      new;
      chunks := LoadAllFromDisk();
    }

    method LoadAllFromDisk() returns (all: seq<Chunk>)
      ensures all == Rebuilt(env, files)
    {
      var evergreen := LoadEvergreen(env.evergreen);
      var daily := LoadDaily(files, SortedIds(files.Keys));
      all := evergreen + daily;
    }

    static method LoadEvergreen(paras: seq<(string, string)>) returns (all: seq<Chunk>)
      ensures all == EvergreenChunks(paras)
    {
      all := [];
      for i := 0 to |paras|
        invariant all == EvergreenChunks(paras[..i])
      {
        assert paras[..i + 1][..i] == paras[..i];
        all := all + [Chunk(None, 0, paras[i].0, paras[i].1)];
      }
      assert paras[..|paras|] == paras;
    }

    static method LoadDaily(files: map<int, seq<Line>>, days: seq<int>) returns (daily: seq<Chunk>)
      requires forall day :: day in days ==> day in files
      ensures daily == DailyChunks(files, days)
    {
      daily := [];
      for d := 0 to |days|
        invariant daily == DailyChunks(files, days[..d])
      {
        assert days[..d + 1][..d] == days[..d];
        var day := days[d];
        assert day in days;
        var found := LoadFile(day, files[day]);
        daily := daily + found;
      }
      assert days[..|days|] == days;
    }

    static method LoadFile(day: int, lines: seq<Line>) returns (found: seq<Chunk>)
      ensures found == FileChunks(day, lines, |lines|)
    {
      found := [];
      for idx := 0 to |lines|
        invariant found == FileChunks(day, lines, idx)
      {
        var l := lines[idx];
        if !l.Entry? {
          continue;
        }
        if l.text == "" {
          continue;
        }
        found := found + [Chunk(Some(day), idx, l.category, l.text)];
      }
    }

    method FindDuplicate(content: string, category: string) returns (at: Option<int>)
      ensures IsDuplicate(env, View(), content, category, at)
    {
      for i := 0 to |chunks|
        invariant forall j :: 0 <= j < i ==> !Replaceable(env, files, content, category, chunks[j])
      {
        var c := chunks[i];
        if c.file == None || c.category != category {
          continue;
        }
        if env.similarity(content, c.text) < DEDUPLICATE_THRESHOLD {
          continue;
        }
        if c.file.value !in files {
          continue;
        }
        var lines := files[c.file.value];
        if c.line < 0 || c.line >= |lines| {
          continue;
        }
        if !lines[c.line].Entry? {
          continue;
        }
        return Some(i);
      }
      at := None;
    }

    method Write(content: string, category: string, today: int) returns (reply: Reply)
      modifies this
      ensures Wrote(env, old(View()), content, category, today, View(), reply)
    {
      if |content| > MAX_MEMORY_CONTENT_LEN {
        return TooLong;
      }
      var cat := CategoryOf(category);
      var at := FindDuplicate(content, cat);
      ghost var m := View();
      assert IsDuplicate(env, m, content, CategoryOf(category), at);
      if at.Some? {
        var c := chunks[at.value];
        var day := c.file.value;
        var lines := files[day];
        files := files[day := lines[c.line := lines[c.line].(text := content)]];
        chunks := chunks[at.value := c.(text := content)];
        assert WroteAt(m, content, cat, today, at, View(), Replaced(day));
        return Replaced(day);
      }
      var newLine := 0;
      for i := 0 to |chunks|
        invariant newLine == CountIn(chunks[..i], today)
      {
        assert chunks[..i + 1][..i] == chunks[..i];
        if chunks[i].file == Some(today) {
          newLine := newLine + 1;
        }
      }
      assert chunks[..|chunks|] == chunks;
      files := files[today := Appended(LinesOf(files, today), Entry(cat, content))];
      chunks := chunks + [Chunk(Some(today), newLine, cat, content)];
      assert WroteAt(m, content, cat, today, None, View(), Saved);
      reply := Saved;
    }

    method FindBest(query: string, category: string) returns (at: Option<int>, bestSim: real)
      ensures IsBest(env, chunks, query, category, |chunks|, at)
      ensures at.Some? ==> 0 <= at.value < |chunks| && chunks[at.value].file.Some?
      ensures at.Some? ==> bestSim == env.similarity(query, chunks[at.value].text)
    {
      at, bestSim := None, 0.0;
      for i := 0 to |chunks|
        invariant IsBest(env, chunks, query, category, i, at)
        invariant bestSim == if at.Some? then env.similarity(query, chunks[at.value].text) else 0.0
      {
        var c := chunks[i];
        if c.file == None {
          continue;
        }
        if category != "" && c.category != category {
          continue;
        }
        var sim := env.similarity(query, c.text);
        if sim > bestSim {
          bestSim, at := sim, Some(i);
        }
      }
    }

    method Delete(query: string, category: string) returns (reply: Reply)
      modifies this
      ensures Deleted(env, old(View()), query, category, View(), reply)
    {
      hide IsBest, Rebuilt, DeleteAt;
      if env.wordless(query) {
        return EmptyQuery;
      }
      var at, bestSim := FindBest(query, category);
      ghost var m := View();
      if at == None || bestSim < DEDUPLICATE_THRESHOLD {
        assert DeletedAt(env, m, query, at, m, NoMatch);
        return NoMatch;
      }
      var target := chunks[at.value];
      var day := target.file.value;
      if day !in files {
        assert DeletedAt(env, m, query, at, m, Unreadable);
        return Unreadable;
      }
      var lines := files[day];
      if target.line < 0 || target.line >= |lines| {
        chunks := LoadAllFromDisk();
        assert DeletedAt(env, m, query, at, View(), OutOfSync);
        return OutOfSync;
      }
      RemoveEntry(at.value);
      assert DeletedAt(env, m, query, at, View(), Removed(target.text));
      reply := Removed(target.text);
    }

    // The line leaves its file, the chunk leaves the index, and the chunks below move up.
    method RemoveEntry(k: nat)
      requires k < |chunks| && Pointed(files, chunks[k]).Some?
      modifies this
      ensures View() == DeleteAt(old(View()), k)
    {
      var target := chunks[k];
      var day := target.file.value;
      var lines := files[day];
      lines := lines[..target.line] + lines[target.line + 1..];
      if forall i :: 0 <= i < |lines| ==> lines[i] == Blank {
        files := files - {day};
      } else {
        files := files[day := lines];
      }
      chunks := chunks[..k] + chunks[k + 1..];
      ghost var left := chunks;
      for i := 0 to |chunks|
        invariant |chunks| == |left| && files == WithoutLine(old(files), day, target.line)
        invariant forall j :: 0 <= j < i ==> chunks[j] == MovedUp(left[j], day, target.line)
        invariant forall j :: i <= j < |left| ==> chunks[j] == left[j]
      {
        if chunks[i].file == Some(day) && chunks[i].line > target.line {
          chunks := chunks[i := chunks[i].(line := chunks[i].line - 1)];
        }
      }
      assert chunks == AllMovedUp(left, day, target.line);
    }
  }
}
