// Glob matching with only the most recent star as a restart point (internal/security/permissions.go).
module Glob {

  // '*' stands for any sequence, '?' for any one character, anything else for itself.
  ghost predicate Matches(p: string, s: string)
    decreases |p|
  {
    if p == [] then s == []
    else if p[0] == '*' then exists k :: 0 <= k <= |s| && Matches(p[1..], s[k..])
    else s != [] && Fits(p[0], s[0]) && Matches(p[1..], s[1..])
  }

  predicate Fits(c: char, x: char) {
    c == x || c == '?'
  }

  ghost predicate Literal(p: string) {
    forall i :: 0 <= i < |p| ==> p[i] != '*'
  }

  // Some restart of the star at position `star`, absorbing up to `from` or later, still matches.
  ghost predicate Restart(pattern: string, name: string, star: nat, from: nat)
    requires star < |pattern|
  {
    exists k :: from <= k <= |name| && Matches(pattern[star + 1..], name[k..])
  }

  // A star-free run of n pattern characters consumes exactly n characters, and the
  // star behind it can then be entered anywhere at or after that point.
  lemma {:induction false} LiteralRunReachesStar(p: string, n: nat, s: string)
    requires n < |p| && p[n] == '*' && Literal(p[..n])
    requires Matches(p, s)
    ensures exists j :: n <= j <= |s| && Matches(p[n + 1..], s[j..])
    decreases n
  {
    if n == 0 {
      assert p[0] == '*';
    } else {
      assert p[..n][0] == p[0];
      assert p[1..][..n - 1] == p[..n][1..];
      LiteralRunReachesStar(p[1..], n - 1, s[1..]);
      var j :| n - 1 <= j <= |s[1..]| && Matches(p[1..][n..], s[1..][j..]);
      assert p[1..][n..] == p[n + 1..] && s[1..][j..] == s[j + 1..];
      assert n <= j + 1 <= |s| && Matches(p[n + 1..], s[j + 1..]);
    }
  }

  // Reaching a second star makes the first one's remaining restarts redundant: whatever
  // they would match, a restart of the second star matches too.
  lemma LaterStarSubsumes(pattern: string, name: string, star: nat, from: nat, px: nat, nx: nat)
    requires star < px < |pattern| && pattern[px] == '*'
    requires Literal(pattern[star + 1..px])
    requires nx + 1 <= from + (px - star - 1)
    requires Restart(pattern, name, star, from)
    ensures Restart(pattern, name, px, nx + 1)
  {
    var k :| from <= k <= |name| && Matches(pattern[star + 1..], name[k..]);
    var p, n := pattern[star + 1..], px - star - 1;
    assert p[..n] == pattern[star + 1..px];
    LiteralRunReachesStar(p, n, name[k..]);
    var j :| n <= j <= |name[k..]| && Matches(p[n + 1..], name[k..][j..]);
    assert p[n + 1..] == pattern[px + 1..] && name[k..][j..] == name[k + j..];
  }

  // Entering a star: either it absorbs nothing, or it restarts later.
  lemma EnterStar(pattern: string, name: string, px: nat, nx: nat)
    requires px < |pattern| && pattern[px] == '*' && nx <= |name|
    ensures Matches(pattern[px..], name[nx..])
       <==> Matches(pattern[px + 1..], name[nx..]) || Restart(pattern, name, px, nx + 1)
  {
    assert pattern[px..][1..] == pattern[px + 1..];
    var rest, s := pattern[px + 1..], name[nx..];
    if Matches(pattern[px..], s) {
      var k :| 0 <= k <= |s| && Matches(rest, s[k..]);
      assert s[k..] == name[nx + k..];
    }
    if Matches(rest, s) {
      assert s[0..] == s;
    } else if Restart(pattern, name, px, nx + 1) {
      var k :| nx + 1 <= k <= |name| && Matches(rest, name[k..]);
      assert s[k - nx..] == name[k..];
    }
  }

  // What the four indices of the matcher mean: the pattern between the last star and px is
  // star-free and has consumed the name from nextNx - 1 up to nx.
  ghost predicate Cursor(pattern: string, name: string, px: nat, nx: nat, nextPx: nat, nextNx: nat) {
    && px <= |pattern| && nx <= |name|
    && if nextNx == 0 then Literal(pattern[..px]) else
         && nextPx < px && pattern[nextPx] == '*'
         && Literal(pattern[nextPx + 1..px])
         && nx - (px - nextPx - 1) == nextNx - 1
  }

  // Some continuation of the search from these indices succeeds.
  ghost predicate Alive(pattern: string, name: string, px: nat, nx: nat, nextPx: nat, nextNx: nat)
    requires Cursor(pattern, name, px, nx, nextPx, nextNx)
  {
    Matches(pattern[px..], name[nx..]) || (0 < nextNx && Restart(pattern, name, nextPx, nextNx))
  }

  lemma StarStep(pattern: string, name: string, px: nat, nx: nat, nextPx: nat, nextNx: nat)
    requires Cursor(pattern, name, px, nx, nextPx, nextNx)
    requires px < |pattern| && pattern[px] == '*'
    ensures Cursor(pattern, name, px + 1, nx, px, nx + 1)
    ensures Alive(pattern, name, px, nx, nextPx, nextNx) <==> Alive(pattern, name, px + 1, nx, px, nx + 1)
  {
    EnterStar(pattern, name, px, nx);
    if 0 < nextNx && Restart(pattern, name, nextPx, nextNx) {
      LaterStarSubsumes(pattern, name, nextPx, nextNx, px, nx);
    }
  }

  lemma CharStep(pattern: string, name: string, px: nat, nx: nat, nextPx: nat, nextNx: nat)
    requires Cursor(pattern, name, px, nx, nextPx, nextNx)
    requires px < |pattern| && nx < |name| && pattern[px] != '*' && Fits(pattern[px], name[nx])
    ensures Cursor(pattern, name, px + 1, nx + 1, nextPx, nextNx)
    ensures Alive(pattern, name, px, nx, nextPx, nextNx) <==> Alive(pattern, name, px + 1, nx + 1, nextPx, nextNx)
  {
    assert pattern[px..][1..] == pattern[px + 1..] && name[nx..][1..] == name[nx + 1..];
    assert pattern[..px + 1] == pattern[..px] + [pattern[px]];
    if 0 < nextNx {
      assert pattern[nextPx + 1..px + 1] == pattern[nextPx + 1..px] + [pattern[px]];
    }
  }

  lemma RestartStep(pattern: string, name: string, px: nat, nx: nat, nextPx: nat, nextNx: nat)
    requires Cursor(pattern, name, px, nx, nextPx, nextNx)
    requires !Matches(pattern[px..], name[nx..]) && 0 < nextNx <= |name|
    ensures Cursor(pattern, name, nextPx + 1, nextNx, nextPx, nextNx + 1)
    ensures Alive(pattern, name, px, nx, nextPx, nextNx)
       <==> Alive(pattern, name, nextPx + 1, nextNx, nextPx, nextNx + 1)
  {
    if Restart(pattern, name, nextPx, nextNx) {
      var k :| nextNx <= k <= |name| && Matches(pattern[nextPx + 1..], name[k..]);
      assert k == nextNx || Restart(pattern, name, nextPx, nextNx + 1);
    }
  }

  lemma Begin(pattern: string, name: string)
    ensures Cursor(pattern, name, 0, 0, 0, 0)
    ensures Matches(pattern, name) <==> Alive(pattern, name, 0, 0, 0, 0)
  {
    assert pattern[0..] == pattern && name[0..] == name;
  }

  lemma Consumed(pattern: string, name: string, nextPx: nat, nextNx: nat)
    requires Cursor(pattern, name, |pattern|, |name|, nextPx, nextNx)
    ensures Alive(pattern, name, |pattern|, |name|, nextPx, nextNx)
  {
  }

  // Nothing fits here, so only a restart can help.
  lemma Stuck(pattern: string, name: string, px: nat, nx: nat, nextPx: nat, nextNx: nat)
    requires Cursor(pattern, name, px, nx, nextPx, nextNx) && (px < |pattern| || nx < |name|)
    requires px < |pattern| ==> pattern[px] != '*' && !(nx < |name| && Fits(pattern[px], name[nx]))
    ensures !Matches(pattern[px..], name[nx..])
    ensures !(0 < nextNx <= |name|) ==> !Alive(pattern, name, px, nx, nextPx, nextNx)
  {
  }

  // The loop of the source, index for index.
  method WildcardMatch(pattern: string, name: string) returns (ok: bool)
    ensures ok <==> Matches(pattern, name)
  {
    hide Matches, Alive, Literal;
    var px, nx := 0, 0;
    var nextPx, nextNx := 0, 0;
    Begin(pattern, name);
    while nx < |name| || px < |pattern|
      invariant 0 <= px && 0 <= nx && 0 <= nextPx && 0 <= nextNx
      invariant Cursor(pattern, name, px, nx, nextPx, nextNx)
      invariant Matches(pattern, name) <==> Alive(pattern, name, px, nx, nextPx, nextNx)
      decreases |pattern| - (if nextNx > 0 then nextPx + 1 else 0), |name| + 1 - nextNx, |pattern| - px
    {
      if px < |pattern| {
        var c := pattern[px];
        if c == '*' {
          StarStep(pattern, name, px, nx, nextPx, nextNx);
          nextPx := px;
          nextNx := nx + 1;
          px := px + 1;
          continue;
        } else if nx < |name| && (name[nx] == c || c == '?') {
          CharStep(pattern, name, px, nx, nextPx, nextNx);
          px := px + 1;
          nx := nx + 1;
          continue;
        }
      }
      Stuck(pattern, name, px, nx, nextPx, nextNx);
      if 0 < nextNx && nextNx <= |name| {
        RestartStep(pattern, name, px, nx, nextPx, nextNx);
        px := nextPx + 1;
        nx := nextNx;
        nextNx := nextNx + 1;
        continue;
      }
      return false;
    }
    Consumed(pattern, name, nextPx, nextNx);
    return true;
  }

  // --- The meaning once more, without recursion ---

  // Character i of the pattern stands for name[cuts[i]..cuts[i + 1]].
  ghost predicate Aligned(pattern: string, name: string, cuts: seq<nat>) {
    && |cuts| == |pattern| + 1 && cuts[0] == 0 && cuts[|pattern|] == |name|
    && forall i :: 0 <= i < |pattern| ==>
         if pattern[i] == '*' then cuts[i] <= cuts[i + 1]
         else cuts[i + 1] == cuts[i] + 1 <= |name| && (pattern[i] == '?' || pattern[i] == name[cuts[i]])
  }

  lemma {:induction false} AlignedMatches(pattern: string, name: string, cuts: seq<nat>, i: nat)
    requires Aligned(pattern, name, cuts) && i <= |pattern|
    ensures cuts[i] <= |name| && Matches(pattern[i..], name[cuts[i]..])
    decreases |pattern| - i
  {
    if i < |pattern| {
      AlignedMatches(pattern, name, cuts, i + 1);
      assert pattern[i..][1..] == pattern[i + 1..];
      assert name[cuts[i]..][cuts[i + 1] - cuts[i]..] == name[cuts[i + 1]..];
    }
  }

  lemma {:induction false} MatchesAligned(pattern: string, name: string) returns (cuts: seq<nat>)
    requires Matches(pattern, name)
    ensures Aligned(pattern, name, cuts)
    decreases |pattern|
  {
    if pattern == [] {
      cuts := [0];
    } else {
      var k: nat := 1;
      if pattern[0] == '*' {
        k :| 0 <= k <= |name| && Matches(pattern[1..], name[k..]);
      }
      var rest := MatchesAligned(pattern[1..], name[k..]);
      cuts := [0] + seq(|rest|, j requires 0 <= j < |rest| => rest[j] + k);
      ShiftedAligns(pattern, name, k, rest, cuts);
    }
  }

  lemma ShiftedAligns(pattern: string, name: string, k: nat, rest: seq<nat>, cuts: seq<nat>)
    requires pattern != "" && k <= |name| && Aligned(pattern[1..], name[k..], rest)
    requires if pattern[0] == '*' then true else k == 1 && (pattern[0] == '?' || pattern[0] == name[0])
    requires |cuts| == |rest| + 1 && cuts[0] == 0 && forall j :: 0 <= j < |rest| ==> cuts[j + 1] == rest[j] + k
    ensures Aligned(pattern, name, cuts)
  {
    forall i | 0 < i < |pattern|
      ensures if pattern[i] == '*' then cuts[i] <= cuts[i + 1]
              else cuts[i + 1] == cuts[i] + 1 <= |name| && (pattern[i] == '?' || pattern[i] == name[cuts[i]])
    {
      assert pattern[1..][i - 1] == pattern[i];
      assert cuts[i] == rest[i - 1] + k && cuts[i + 1] == rest[i] + k;
      if pattern[i] != '*' {
        assert name[k..][rest[i - 1]] == name[cuts[i]];
      }
    }
  }

  // A name matches exactly when it can be cut so that every star takes any stretch, every
  // question mark one character, and every other character itself.
  lemma MatchesIff(pattern: string, name: string)
    ensures Matches(pattern, name) <==> exists cuts :: Aligned(pattern, name, cuts)
  {
    if Matches(pattern, name) {
      var cuts := MatchesAligned(pattern, name);
    }
    if cuts :| Aligned(pattern, name, cuts) {
      AlignedMatches(pattern, name, cuts, 0);
      assert pattern[0..] == pattern && name[0..] == name;
    }
  }
}
