// Which memory a write or a deletion is about, and what becomes of it on disk and in the index
// (internal/memory/store.go).
module MemoryLaws {
  import opened Options
  import opened MemoryStore

  // An indexed entry of the category that is similar enough and still stands in its file.
  predicate Stands(env: Env, m: Memory, content: string, category: string, c: Chunk) {
    && c.file.Some? && c.category == category && env.similarity(content, c.text) >= 0.7
    && c.file.value in m.files && 0 <= c.line < |m.files[c.file.value]| && m.files[c.file.value][c.line].Entry?
  }

  predicate NoneStands(env: Env, m: Memory, content: string, category: string, n: nat)
    requires n <= |m.chunks|
  {
    forall i :: 0 <= i < n ==> !Stands(env, m, content, category, m.chunks[i])
  }

  // No other day's file is touched.
  predicate OtherDaysStay(m: Memory, m': Memory, day: int) {
    forall d :: d in m.files.Keys + m'.files.Keys && d != day ==>
      d in m.files && d in m'.files && m'.files[d] == m.files[d]
  }

  // The entry is the last line of the day's file, and last in the index. A last line that was not
  // finished is spoilt instead.
  predicate Added(m: Memory, m': Memory, day: int, category: string, content: string) {
    && OtherDaysStay(m, m', day) && day in m'.files
    && (var was := if day in m.files then m.files[day] else [];
        if was == [] then m'.files[day] == [Entry(category, content), Blank]
        else
          var n := |was| - 1;
          && |m'.files[day]| == n + 2 && m'.files[day][..n] == was[..n] && m'.files[day][n + 1] == Blank
          && m'.files[day][n] == if was[n] == Blank then Entry(category, content) else Garbage)
    && |m'.chunks| == |m.chunks| + 1 && m'.chunks[..|m.chunks|] == m.chunks
    && m'.chunks[|m.chunks|].(line := 0) == Chunk(Some(day), 0, category, content)
  }

  // The entry chunk k points at says something else now, in its file and in the index.
  predicate Reworded(m: Memory, m': Memory, k: nat, content: string)
    requires k < |m.chunks| && m.chunks[k].file.Some?
  {
    var c := m.chunks[k];
    var day := c.file.value;
    && day in m.files && day in m'.files && OtherDaysStay(m, m', day)
    && 0 <= c.line < |m.files[day]| && |m'.files[day]| == |m.files[day]|
    && (forall i :: 0 <= i < |m.files[day]| && i != c.line ==> m'.files[day][i] == m.files[day][i])
    && m.files[day][c.line].Entry? && m'.files[day][c.line] == Entry(m.files[day][c.line].category, content)
    && |m'.chunks| == |m.chunks| && m'.chunks[k] == Chunk(c.file, c.line, c.category, content)
    && forall i :: 0 <= i < |m.chunks| && i != k ==> m'.chunks[i] == m.chunks[i]
  }

  // Over-long content is refused; the first entry that stands in the way is reworded where it is; and
  // exactly when there is none, today's file and the index get the entry at their end.
  lemma WriteMeans(env: Env, m: Memory, content: string, category: string, today: int, m': Memory, reply: Reply)
    requires Wrote(env, m, content, category, today, m', reply)
    ensures var cat := if category == "" then "fact" else category;
      if |content| > 2000 then reply == TooLong && m' == m
      else if NoneStands(env, m, content, cat, |m.chunks|) then reply == Saved && Added(m, m', today, cat, content)
      else exists k ::
        && 0 <= k < |m.chunks| && Stands(env, m, content, cat, m.chunks[k]) && NoneStands(env, m, content, cat, k)
        && reply == Replaced(m.chunks[k].file.value) && Reworded(m, m', k, content)
  {
    if |content| <= 2000 {
      var cat := CategoryOf(category);
      var at :| IsDuplicate(env, m, content, cat, at) && WroteAt(m, content, cat, today, at, m', reply);
      match at {
        case None => NewIsAdded(m, today, cat, content);
        case Some(k) => ReplacedIsReworded(m, k, content);
      }
      hide AppendNew, ReplaceAt, Added, Reworded;
    }
  }

  lemma NewIsAdded(m: Memory, day: int, category: string, content: string)
    ensures Added(m, AppendNew(m, day, category, content), day, category, content)
  {
  }

  lemma ReplacedIsReworded(m: Memory, k: nat, content: string)
    requires k < |m.chunks| && Pointed(m.files, m.chunks[k]).Some? && Pointed(m.files, m.chunks[k]).value.Entry?
    ensures Reworded(m, ReplaceAt(m, k, content), k, content)
  {
  }

  // --- Deleting ---

  predicate Candidate(category: string, c: Chunk) {
    c.file.Some? && (category == "" || c.category == category)
  }

  predicate NothingMatches(env: Env, m: Memory, query: string, category: string) {
    forall i :: 0 <= i < |m.chunks| && Candidate(category, m.chunks[i]) ==>
      env.similarity(query, m.chunks[i].text) < 0.7
  }

  // Nothing that may be deleted is more similar than chunk k, and nothing before it as similar.
  predicate MostSimilar(env: Env, m: Memory, query: string, category: string, k: nat)
    requires k < |m.chunks|
  {
    && Candidate(category, m.chunks[k])
    && forall i :: 0 <= i < |m.chunks| && Candidate(category, m.chunks[i]) ==>
         var other, best := env.similarity(query, m.chunks[i].text), env.similarity(query, m.chunks[k].text);
         other <= best && (i < k ==> other < best)
  }

  // The line chunk k points at is gone from its file, the file too if nothing else is in it, and the
  // index follows.
  predicate TakenOut(m: Memory, m': Memory, k: nat)
    requires k < |m.chunks| && m.chunks[k].file.Some?
  {
    var c := m.chunks[k];
    var day := c.file.value;
    && day in m.files && 0 <= c.line < |m.files[day]| && OtherDaysStay(m, m', day)
    && (var rest := m.files[day][..c.line] + m.files[day][c.line + 1..];
        if forall i :: 0 <= i < |rest| ==> rest[i] == Blank then day !in m'.files
        else day in m'.files && m'.files[day] == rest)
    && |m'.chunks| == |m.chunks| - 1
    && forall i :: 0 <= i < |m'.chunks| ==>
         var was := m.chunks[if i < k then i else i + 1];
         m'.chunks[i] == was.(line := if was.file == Some(day) && was.line > c.line then was.line - 1 else was.line)
  }

  // A query without words and one that matches nothing change nothing; otherwise the most similar
  // candidate, the first of equals, is taken out, or found to have no line on disk.
  lemma DeleteMeans(env: Env, m: Memory, query: string, category: string, m': Memory, reply: Reply)
    requires Deleted(env, m, query, category, m', reply)
    ensures
      if env.wordless(query) then reply == EmptyQuery && m' == m
      else if NothingMatches(env, m, query, category) then reply == NoMatch && m' == m
      else exists k ::
        && 0 <= k < |m.chunks| && MostSimilar(env, m, query, category, k)
        && env.similarity(query, m.chunks[k].text) >= 0.7
        && var day, line := m.chunks[k].file.value, m.chunks[k].line;
           if day !in m.files then reply == Unreadable && m' == m
           else if !(0 <= line < |m.files[day]|) then reply == OutOfSync && m'.files == m.files
           else reply == Removed(m.chunks[k].text) && TakenOut(m, m', k)
  {
    if !env.wordless(query) {
      var at :| IsBest(env, m.chunks, query, category, |m.chunks|, at) && DeletedAt(env, m, query, at, m', reply);
      if at.Some? && env.similarity(query, m.chunks[at.value].text) >= 0.7 {
        BestIsMostSimilar(env, m, query, category, at);
        if Pointed(m.files, m.chunks[at.value]).Some? {
          DeletedIsTakenOut(m, at.value);
        }
        hide DeleteAt, TakenOut, Rebuilt, MostSimilar, IsBest, NothingMatches;
      } else {
        BestIsMostSimilar(env, m, query, category, at);
        hide IsBest, NothingMatches;
      }
    }
  }

  lemma BestIsMostSimilar(env: Env, m: Memory, query: string, category: string, at: Option<int>)
    requires IsBest(env, m.chunks, query, category, |m.chunks|, at)
    ensures at.Some? ==> 0 <= at.value < |m.chunks| && MostSimilar(env, m, query, category, at.value)
    ensures NothingMatches(env, m, query, category)
       <==> at.None? || env.similarity(query, m.chunks[at.value].text) < 0.7
  {
  }

  lemma DeletedIsTakenOut(m: Memory, k: nat)
    requires k < |m.chunks| && Pointed(m.files, m.chunks[k]).Some?
    ensures TakenOut(m, DeleteAt(m, k), k)
  {
  }
}
