/**
 * Code-fence stripping of the model's raw answer (app.py line 95).
 *
 * The answer is cleaned by removing every "```json" and then every "```",
 * each with Python's str.replace: occurrences are found left to right, do not
 * overlap, and the scan resumes after each one it replaced.
 */
module FenceStripping {

  const JsonFence: string := "```json"
  const Fence: string := "```"

  /**
   * s.replace(pat, rep) with no count. With an empty pattern Python inserts
   * rep before every character and once at the end.
   */
  function ReplaceAll(s: string, pat: string, rep: string): string
    decreases |s|
  {
    if pat == [] then
      if s == [] then rep else rep + [s[0]] + ReplaceAll(s[1..], pat, rep)
    else if |s| < |pat| then s
    else if s[..|pat|] == pat then rep + ReplaceAll(s[|pat|..], pat, rep)
    else [s[0]] + ReplaceAll(s[1..], pat, rep)
  }

  predicate OccursAt(s: string, pat: string, i: int) {
    0 <= i && i + |pat| <= |s| && s[i..i + |pat|] == pat
  }

  ghost predicate Contains(s: string, pat: string) {
    exists i :: OccursAt(s, pat, i)
  }

  /** The text handed to the JSON parser: the raw answer without any fence marker. */
  function StripFences(raw: string): (clean: string)
    ensures !Contains(clean, Fence)
  {
    var once := ReplaceAll(raw, JsonFence, "");
    RemovingFenceLeavesNone(once);
    ReplaceAll(once, Fence, "")
  }

  /** A pattern that does not occur is not replaced: the text comes back unchanged. */
  lemma {:induction false} ReplaceAbsent(s: string, pat: string, rep: string)
    requires pat != [] && !Contains(s, pat)
    ensures ReplaceAll(s, pat, rep) == s
    decreases |s|
  {
    if |s| >= |pat| {
      assert !OccursAt(s, pat, 0);
      forall i | OccursAt(s[1..], pat, i) ensures OccursAt(s, pat, i + 1) {
        assert s[1..][i..i + |pat|] == s[i + 1..i + 1 + |pat|];
      }
      ReplaceAbsent(s[1..], pat, rep);
    }
  }

  /** A prefix without the pattern's first character passes through replacement untouched. */
  lemma {:induction false} ReplaceAfterPlainPrefix(b: string, x: string, pat: string, rep: string)
    requires pat != [] && pat[0] !in b
    ensures ReplaceAll(b + x, pat, rep) == b + ReplaceAll(x, pat, rep)
    decreases |b|
  {
    if b != [] && |b + x| >= |pat| {
      assert (b + x)[0] == b[0];
      assert (b + x)[1..] == b[1..] + x;
      ReplaceAfterPlainPrefix(b[1..], x, pat, rep);
    } else if b != [] {
      assert ReplaceAll(b + x, pat, rep) == b + x;
      assert ReplaceAll(x, pat, rep) == x;
    } else {
      assert b + x == x;
    }
  }

  /** Removing fences keeps a leading character that is not a backtick. */
  lemma RemovalKeepsPlainHead(t: string)
    requires |t| >= 1 && t[0] != '`'
    ensures var r := ReplaceAll(t, Fence, ""); |r| >= 1 && r[0] == t[0]
  {
    if |t| >= |Fence| {
      assert t[..|Fence|] != Fence;
    }
  }

  /** Removing fences from text that does not open with two backticks gives text that does not either. */
  lemma RemovalOpensWithoutDoubleTick(t: string)
    requires !(|t| >= 2 && t[0] == '`' && t[1] == '`')
    ensures var r := ReplaceAll(t, Fence, ""); !(|r| >= 2 && r[0] == '`' && r[1] == '`')
  {
    if |t| >= 1 && t[0] != '`' {
      RemovalKeepsPlainHead(t);
    } else if |t| >= |Fence| {
      assert t[..|Fence|] != Fence;
      RemovalKeepsPlainHead(t[1..]);
    }
  }

  /** Putting a character in front of fence-free text creates no fence unless it makes a third backtick. */
  lemma ConsWithoutFence(c: char, x: string)
    requires !Contains(x, Fence)
    requires !(c == '`' && |x| >= 2 && x[0] == '`' && x[1] == '`')
    ensures !Contains([c] + x, Fence)
  {
    var cx := [c] + x;
    forall i | 0 <= i && i + |Fence| <= |cx| ensures !OccursAt(cx, Fence, i) {
      if i >= 1 {
        assert cx[i..i + 3] == x[i - 1..i + 2];
        assert !OccursAt(x, Fence, i - 1);
      } else {
        assert cx[0] == c && cx[1] == x[0] && cx[2] == x[1];
      }
    }
  }

  /**
   * Removing every "```" leaves no "```" behind: a removal cannot bring
   * backticks on both of its sides together into a new fence.
   */
  lemma {:induction false} RemovingFenceLeavesNone(s: string)
    ensures !Contains(ReplaceAll(s, Fence, ""), Fence)
    decreases |s|
  {
    var r := ReplaceAll(s, Fence, "");
    if |s| < |Fence| {
      assert r == s;
    } else if s[..|Fence|] == Fence {
      RemovingFenceLeavesNone(s[|Fence|..]);
      assert r == ReplaceAll(s[|Fence|..], Fence, "");
    } else {
      RemovingFenceLeavesNone(s[1..]);
      if s[0] == '`' {
        assert !(s[1] == '`' && s[2] == '`');
        RemovalOpensWithoutDoubleTick(s[1..]);
      }
      ConsWithoutFence(s[0], ReplaceAll(s[1..], Fence, ""));
    }
  }

  /** Text with no backtick at all is returned unchanged. */
  lemma StripWithoutBacktick(s: string)
    requires '`' !in s
    ensures StripFences(s) == s
  {
    forall i | 0 <= i && i + |JsonFence| <= |s| ensures !OccursAt(s, JsonFence, i) {
      assert s[i] in s;
      assert s[i..i + |JsonFence|][0] == s[i];
    }
    ReplaceAbsent(s, JsonFence, "");
    forall i | 0 <= i && i + |Fence| <= |s| ensures !OccursAt(s, Fence, i) {
      assert s[i] in s;
      assert s[i..i + |Fence|][0] == s[i];
    }
    ReplaceAbsent(s, Fence, "");
  }

  /** Stripping twice is stripping once. */
  lemma StripIdempotent(s: string)
    ensures StripFences(StripFences(s)) == StripFences(s)
  {
    var c := StripFences(s);
    forall i | OccursAt(c, JsonFence, i) ensures OccursAt(c, Fence, i) {
      assert c[i..i + |Fence|] == c[i..i + |JsonFence|][..|Fence|];
    }
    ReplaceAbsent(c, JsonFence, "");
    ReplaceAbsent(c, Fence, "");
  }

  /** A payload wrapped as ```json ... ``` comes out bare, provided it holds no backtick. */
  lemma StripWrapped(body: string)
    requires '`' !in body
    ensures StripFences(JsonFence + body + Fence) == body
  {
    var wrapped := JsonFence + body + Fence;
    assert wrapped[..|JsonFence|] == JsonFence;
    assert wrapped[|JsonFence|..] == body + Fence;
    ReplaceAfterPlainPrefix(body, Fence, JsonFence, "");
    assert ReplaceAll(wrapped, JsonFence, "") == body + Fence;
    ReplaceAfterPlainPrefix(body, Fence, Fence, "");
    assert Fence[..|Fence|] == Fence && Fence[|Fence|..] == [];
    assert ReplaceAll(Fence, Fence, "") == [];
    assert body + [] == body;
  }
}
