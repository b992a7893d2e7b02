// The JavaScript string operations the modelled code relies on: `includes`,
// `indexOf`, `startsWith`, `trim`, ASCII `toLowerCase`, `replace` with a
// string pattern (first occurrence only), a global literal replace, and `join`.

module Text {
  import opened Common

  /** `sub` occurs in `s` starting at index `i`. */
  predicate OccursAt(s: string, sub: string, i: int)
  {
    0 <= i && i + |sub| <= |s| && s[i..i + |sub|] == sub
  }

  /** `s.includes(sub)`. */
  predicate Contains(s: string, sub: string)
  {
    exists i :: 0 <= i <= |s| - |sub| && OccursAt(s, sub, i)
  }

  predicate StartsWith(s: string, prefix: string)
  {
    |prefix| <= |s| && s[..|prefix|] == prefix
  }

  function IndexOfFrom(s: string, sub: string, from: nat): (r: Option<nat>)
    ensures r.Some? ==> from <= r.value && OccursAt(s, sub, r.value)
    ensures r.Some? ==> forall j :: from <= j < r.value ==> !OccursAt(s, sub, j)
    ensures r.None? ==> forall j :: from <= j ==> !OccursAt(s, sub, j)
    decreases |s| - from
  {
    if from + |sub| > |s| then None
    else if s[from..from + |sub|] == sub then Some(from)
    else IndexOfFrom(s, sub, from + 1)
  }

  /** `s.indexOf(sub)`: the first occurrence, or None for -1. */
  function IndexOf(s: string, sub: string): (r: Option<nat>)
    ensures r.Some? <==> Contains(s, sub)
    ensures r.Some? ==> OccursAt(s, sub, r.value) && forall j :: 0 <= j < r.value ==> !OccursAt(s, sub, j)
  {
    IndexOfFrom(s, sub, 0)
  }

  /** The characters `String.prototype.trim` strips: ECMAScript WhiteSpace and LineTerminator. */
  predicate IsJsWhitespace(c: char)
  {
    ('\U{9}' <= c <= '\U{D}') || c == ' ' || c == '\U{A0}' || c == '\U{1680}'
    || ('\U{2000}' <= c <= '\U{200A}') || c == '\U{2028}' || c == '\U{2029}'
    || c == '\U{202F}' || c == '\U{205F}' || c == '\U{3000}' || c == '\U{FEFF}'
  }

  predicate AllWhitespace(s: string)
  {
    forall i :: 0 <= i < |s| ==> IsJsWhitespace(s[i])
  }

  /** Number of whitespace characters at the start of `s`. */
  function LeadingWhitespace(s: string): (n: nat)
    ensures n <= |s| && AllWhitespace(s[..n])
    ensures n < |s| ==> !IsJsWhitespace(s[n])
  {
    if s != [] && IsJsWhitespace(s[0]) then
      var n := 1 + LeadingWhitespace(s[1..]);
      assert forall i :: 1 <= i < n ==> s[i] == s[1..][..n - 1][i - 1];
      n
    else 0
  }

  /** Number of whitespace characters at the end of `s`. */
  function TrailingWhitespace(s: string): (n: nat)
    ensures n <= |s| && AllWhitespace(s[|s| - n..])
    ensures n < |s| ==> !IsJsWhitespace(s[|s| - n - 1])
  {
    if s != [] && IsJsWhitespace(s[|s| - 1]) then
      var n := 1 + TrailingWhitespace(s[..|s| - 1]);
      assert forall i :: |s| - n <= i < |s| - 1 ==> s[i] == s[..|s| - 1][i];
      n
    else 0
  }

  /**
   * `s.trim()`: `s` without its leading and trailing whitespace. The result is the part of `s`
   * that follows its leading whitespace run, and only whitespace comes after it.
   */
  function Trim(s: string): (r: string)
    ensures r != [] ==> !IsJsWhitespace(r[0]) && !IsJsWhitespace(r[|r| - 1])
    ensures AllWhitespace(s) <==> r == []
    ensures LeadingWhitespace(s) + |r| <= |s|
    ensures r == s[LeadingWhitespace(s)..LeadingWhitespace(s) + |r|]
    ensures AllWhitespace(s[LeadingWhitespace(s) + |r|..])
  {
    var a := LeadingWhitespace(s);
    if a == |s| then []
    else
      var b := TrailingWhitespace(s);
      s[a..|s| - b]
  }

  /** Trimming a string that starts and ends with non-whitespace leaves it unchanged. */
  lemma TrimIdentity(s: string)
    requires s != [] && !IsJsWhitespace(s[0]) && !IsJsWhitespace(s[|s| - 1])
    ensures Trim(s) == s
  {
  }

  /** The whitespace run at the start of `p + m` is exactly `p` when `m` starts with non-whitespace. */
  lemma LeadingOfPadded(p: string, m: string)
    requires AllWhitespace(p) && (m == [] || !IsJsWhitespace(m[0]))
    ensures LeadingWhitespace(p + m) == |p| + LeadingWhitespace(m)
    decreases |p|
  {
    if p != [] {
      assert (p + m)[1..] == p[1..] + m;
      LeadingOfPadded(p[1..], m);
    } else {
      assert p + m == m;
    }
  }

  /**
   * Trim has exactly one answer: whatever whitespace surrounds a core that starts and ends with
   * non-whitespace, trimming gives back that core.
   */
  lemma {:induction false} TrimOfPadded(p: string, m: string, q: string)
    requires AllWhitespace(p) && AllWhitespace(q)
    requires m != [] && !IsJsWhitespace(m[0]) && !IsJsWhitespace(m[|m| - 1])
    ensures Trim(p + m + q) == m
  {
    var s := p + m + q;
    assert s == p + (m + q);
    LeadingOfPadded(p, m + q);
    assert LeadingWhitespace(m + q) == 0;
    var r := Trim(s);
    assert s[|p| + |m| - 1] == m[|m| - 1];
    assert !AllWhitespace(s);
    if |r| < |m| {
      assert false;
    }
    if |r| > |m| {
      assert false;
    }
    assert r == s[|p|..|p| + |m|];
  }

  function LowerChar(c: char): char
  {
    if 'A' <= c <= 'Z' then (c as int + 32) as char else c
  }

  /** `toLowerCase()` on ASCII letters; every other character is kept. */
  function ToLowerAscii(s: string): (r: string)
    ensures |r| == |s|
    ensures forall i :: 0 <= i < |s| ==> r[i] == LowerChar(s[i])
  {
    if s == [] then [] else [LowerChar(s[0])] + ToLowerAscii(s[1..])
  }

  /** Text that lacks the first character of `sub` cannot contain `sub`. */
  lemma LacksFirstCharNotContained(s: string, sub: string)
    requires |sub| > 0 && sub[0] !in s
    ensures !Contains(s, sub)
  {
    forall i | 0 <= i <= |s| - |sub|
      ensures !OccursAt(s, sub, i)
    {
      assert s[i] in s;
      assert s[i..i + |sub|][0] == s[i];
    }
  }

  /** Text none of whose characters lower-cases to the first character of `sub` does not contain `sub` once lower-cased. */
  lemma LowerLacksFirstChar(s: string, sub: string)
    requires |sub| > 0 && forall i :: 0 <= i < |s| ==> LowerChar(s[i]) != sub[0]
    ensures !Contains(ToLowerAscii(s), sub)
  {
    var low := ToLowerAscii(s);
    assert sub[0] !in low by {
      forall i | 0 <= i < |low|
        ensures low[i] != sub[0]
      {
      }
    }
    LacksFirstCharNotContained(low, sub);
  }

  /** Text without upper-case ASCII letters is its own lower case. */
  lemma ToLowerAsciiKeepsLower(s: string)
    requires forall i :: 0 <= i < |s| ==> !('A' <= s[i] <= 'Z')
    ensures ToLowerAscii(s) == s
  {
    assert forall i :: 0 <= i < |s| ==> ToLowerAscii(s)[i] == s[i];
  }

  /** A text whose letters at `i` lower-case to `sub` contains `sub` once lower-cased. */
  lemma LowerContainsAt(s: string, sub: string, i: nat)
    requires i + |sub| <= |s|
    requires forall j :: 0 <= j < |sub| ==> LowerChar(s[i + j]) == sub[j]
    ensures Contains(ToLowerAscii(s), sub)
  {
    var lower := ToLowerAscii(s);
    assert lower[i..i + |sub|] == sub;
    assert OccursAt(lower, sub, i);
  }

  /**
   * The replacement text JavaScript inserts for one match when there are no capture groups
   * (GetSubstitution in ECMAScript 2024, section 22.1.3.19.1): "$$" is a dollar sign, "$&" the
   * matched text, "$`" the text before the match and "$'" the text after it; every other
   * character, including any other "$", stands for itself.
   */
  function Expand(rep: string, matched: string, before: string, after: string): (r: string)
    ensures '$' !in rep ==> r == rep
    decreases |rep|
  {
    if rep == [] then []
    else if rep[0] == '$' && |rep| >= 2 && rep[1] in "$&`'" then
      (if rep[1] == '$' then "$" else if rep[1] == '&' then matched else if rep[1] == '`' then before else after)
      + Expand(rep[2..], matched, before, after)
    else
      assert '$' !in rep ==> '$' !in rep[1..];
      [rep[0]] + Expand(rep[1..], matched, before, after)
  }

  /** "$$" collapses to one dollar sign, and "$&" writes the matched text back. */
  lemma ExpandEscapes(pre: string, post: string, matched: string, before: string, after: string)
    requires '$' !in pre && '$' !in post
    ensures Expand(pre + "$$" + post, matched, before, after) == pre + "$" + post
    ensures Expand("$&", matched, before, after) == matched
    decreases |pre|
  {
    if pre == [] {
      assert (pre + "$$" + post)[2..] == post;
    } else {
      assert (pre + "$$" + post)[1..] == pre[1..] + "$$" + post;
      ExpandEscapes(pre[1..], post, matched, before, after);
    }
  }

  /**
   * `s.replace(pattern, replacement)` with a string pattern: only the first occurrence changes,
   * and it becomes the replacement with its "$" patterns expanded.
   */
  function ReplaceFirst(s: string, pattern: string, replacement: string): (r: string)
    ensures !Contains(s, pattern) ==> r == s
    ensures Contains(s, pattern) ==>
      var i := IndexOf(s, pattern).value;
      r == s[..i] + Expand(replacement, pattern, s[..i], s[i + |pattern|..]) + s[i + |pattern|..]
  {
    match IndexOf(s, pattern)
    case None => s
    case Some(i) => s[..i] + Expand(replacement, pattern, s[..i], s[i + |pattern|..]) + s[i + |pattern|..]
  }

  /**
   * When nothing before an occurrence of `pattern` holds its first character, that occurrence is
   * the first, and it is the one `ReplaceFirst` replaces.
   */
  lemma ReplaceFirstAfter(a: string, pattern: string, b: string, replacement: string)
    requires |pattern| > 0 && forall k :: 0 <= k < |a| ==> a[k] != pattern[0]
    ensures ReplaceFirst(a + pattern + b, pattern, replacement) == a + Expand(replacement, pattern, a, b) + b
  {
    var s := a + pattern + b;
    assert OccursAt(s, pattern, |a|) by {
      assert s[|a|..|a| + |pattern|] == pattern;
    }
    var i := IndexOf(s, pattern).value;
    if i < |a| {
      OccurrenceCharAt(s, pattern, i, 0);
      assert false;
    }
    assert s[..i] == a && s[i + |pattern|..] == b;
  }

  /** An occurrence spells the pattern out character by character. */
  lemma OccurrenceCharAt(s: string, pattern: string, i: int, j: int)
    requires OccursAt(s, pattern, i) && 0 <= j < |pattern|
    ensures s[i + j] == pattern[j]
  {
    assert s[i..i + |pattern|][j] == s[i + j];
  }

  /** A string without a pattern's first character does not contain the pattern. */
  lemma LacksFirstChar(s: string, pattern: string)
    requires |pattern| > 0 && forall k :: 0 <= k < |s| ==> s[k] != pattern[0]
    ensures !Contains(s, pattern)
  {
    forall i | 0 <= i <= |s| - |pattern|
      ensures !OccursAt(s, pattern, i)
    {
      if OccursAt(s, pattern, i) {
        OccurrenceCharAt(s, pattern, i, 0);
        assert false;
      }
    }
  }

  /**
   * A pattern does not occur in `a + p + b` when its first character is not in `a` or after the
   * start of `p`, is followed in `b` by something other than its second character, and `p`
   * starts with the pattern's first character but not its second.
   */
  lemma AbsentAround(a: string, p: string, b: string, q: string)
    requires |p| >= 2 && |q| >= 2 && p[0] == q[0] && p[1] != q[1]
    requires forall k :: 0 <= k < |a| ==> a[k] != q[0]
    requires forall k :: 1 <= k < |p| ==> p[k] != q[0]
    requires forall k :: 0 <= k < |b| - 1 ==> !(b[k] == q[0] && b[k + 1] == q[1])
    ensures !Contains(a + p + b, q)
  {
    var s := a + p + b;
    forall i | 0 <= i <= |s| - |q|
      ensures !OccursAt(s, q, i)
    {
      if i >= |a| + |p| {
        assert s[i] == b[i - |a| - |p|] && s[i + 1] == b[i + 1 - |a| - |p|];
      }
      if OccursAt(s, q, i) {
        OccurrenceCharAt(s, q, i, 0);
        OccurrenceCharAt(s, q, i, 1);
        assert false;
      }
    }
  }

  /** No opening brace, so no `{name}` placeholder can start anywhere in the text. */
  predicate BraceFree(s: string)
  {
    forall k :: 0 <= k < |s| ==> s[k] != '{'
  }

  lemma BraceFreeConcat(a: string, b: string)
    requires BraceFree(a) && BraceFree(b)
    ensures BraceFree(a + b)
  {
    forall k | 0 <= k < |a + b|
      ensures (a + b)[k] != '{'
    {
      if k < |a| {
        assert (a + b)[k] == a[k];
      } else {
        assert (a + b)[k] == b[k - |a|];
      }
    }
  }

  /** The first occurrence of a pattern that nothing before it can start is at that position. */
  lemma IndexOfAfter(a: string, pattern: string, b: string)
    requires |pattern| > 0 && forall k :: 0 <= k < |a| ==> a[k] != pattern[0]
    ensures IndexOf(a + pattern + b, pattern) == Some(|a|)
  {
    var s := a + pattern + b;
    assert OccursAt(s, pattern, |a|) by {
      assert s[|a|..|a| + |pattern|] == pattern;
    }
    var i := IndexOf(s, pattern).value;
    if i < |a| {
      OccurrenceCharAt(s, pattern, i, 0);
      assert false;
    }
  }

  /** With the only placeholder start in front of `b` being the pattern's own, a global replace changes that one. */
  lemma ReplaceAllOnce(a: string, pattern: string, b: string, replacement: string)
    requires |pattern| > 0 && pattern[0] == '{' && BraceFree(a) && BraceFree(b)
    ensures ReplaceAll(a + pattern + b, pattern, replacement) == a + Expand(replacement, pattern, a, b) + b
  {
    var s := a + pattern + b;
    var j := |a| + |pattern|;
    assert s[..|a|] == a && s[0..|a|] == a && s[j..] == b;
    assert IndexOfFrom(s, pattern, 0) == Some(|a|) by {
      IndexOfAfter(a, pattern, b);
    }
    assert ReplaceAllFrom(s, pattern, replacement, j) == b by {
      LacksFirstChar(b, pattern);
      ReplaceAllFromNoMatch(s, pattern, replacement, j);
    }
    ReplaceAllFromStep(s, pattern, replacement, 0, |a|);
  }

  /** Where the rest of the text holds no match, the global replace leaves it as it is. */
  lemma ReplaceAllFromNoMatch(s: string, pattern: string, replacement: string, from: nat)
    requires |pattern| > 0 && from <= |s| && !Contains(s[from..], pattern)
    ensures ReplaceAllFrom(s, pattern, replacement, from) == s[from..]
  {
    assert IndexOfFrom(s, pattern, from).None? by {
      forall j | from <= j
        ensures !OccursAt(s, pattern, j)
      {
        NoOccurrenceInSuffix(s, pattern, from, j);
      }
    }
  }

  /** An occurrence at or after `from` would be one in `s[from..]`. */
  lemma NoOccurrenceInSuffix(s: string, sub: string, from: nat, j: int)
    requires from <= j && from <= |s| && !Contains(s[from..], sub)
    ensures !OccursAt(s, sub, j)
  {
    if j + |sub| <= |s| {
      assert s[from..][j - from..j - from + |sub|] == s[j..j + |sub|];
      assert !OccursAt(s[from..], sub, j - from);
    }
  }

  /**
   * The global replace from index `from` on. Each match is replaced by the replacement with its
   * "$" patterns expanded against the whole string, as `RegExp.prototype[Symbol.replace]` does.
   */
  function ReplaceAllFrom(s: string, pattern: string, replacement: string, from: nat): string
    requires |pattern| > 0 && from <= |s|
    decreases |s| - from
  {
    match IndexOfFrom(s, pattern, from)
    case None => s[from..]
    case Some(i) =>
      s[from..i] + Expand(replacement, pattern, s[..i], s[i + |pattern|..])
      + ReplaceAllFrom(s, pattern, replacement, i + |pattern|)
  }

  /** `s.replace(new RegExp(pattern, 'g'), replacement)` for a pattern with no regular-expression syntax. */
  function ReplaceAll(s: string, pattern: string, replacement: string): (r: string)
    requires |pattern| > 0
    ensures !Contains(s, pattern) ==> r == s
  {
    assert !Contains(s, pattern) ==> IndexOfFrom(s, pattern, 0).None?;
    ReplaceAllFrom(s, pattern, replacement, 0)
  }

  /** A match found from `from` on lies inside the text and spells the pattern. */
  lemma IndexOfFromFound(s: string, sub: string, from: nat, i: nat)
    requires IndexOfFrom(s, sub, from) == Some(i)
    ensures from <= i && i + |sub| <= |s| && s[i..i + |sub|] == sub
  {
  }

  /** One step of the global replace: the text up to the next match, its expansion, and the rest replaced. */
  lemma ReplaceAllFromStep(s: string, pattern: string, replacement: string, from: nat, i: nat)
    requires |pattern| > 0 && from <= i && i + |pattern| <= |s| && IndexOfFrom(s, pattern, from) == Some(i)
    ensures ReplaceAllFrom(s, pattern, replacement, from)
         == s[from..i] + Expand(replacement, pattern, s[..i], s[i + |pattern|..])
            + ReplaceAllFrom(s, pattern, replacement, i + |pattern|)
  {
  }

  /** From `from` on, replacing every match with the matched text itself ("$&") changes nothing. */
  lemma {:induction false} ReplaceAllFromMatched(s: string, pattern: string, from: nat)
    requires |pattern| > 0 && from <= |s|
    ensures ReplaceAllFrom(s, pattern, "$&", from) == s[from..]
    decreases |s| - from
  {
    match IndexOfFrom(s, pattern, from)
    case None =>
    case Some(i) =>
      IndexOfFromFound(s, pattern, from, i);
      ReplaceAllFromStep(s, pattern, "$&", from, i);
      ReplaceAllFromMatched(s, pattern, i + |pattern|);
      ExpandMatched(pattern, s[..i], s[i + |pattern|..]);
      SuffixAround(s, from, i, i + |pattern|);
  }

  /** A suffix is the part up to `i`, the part from `i` to `j`, and the rest. */
  lemma SuffixAround(s: string, from: nat, i: nat, j: nat)
    requires from <= i <= j <= |s|
    ensures s[from..] == s[from..i] + s[i..j] + s[j..]
  {
  }

  lemma ExpandMatched(matched: string, before: string, after: string)
    ensures Expand("$&", matched, before, after) == matched
  {
    ExpandEscapes("", "", matched, before, after);
  }

  /** Replacing every occurrence with "$&", the matched text, changes nothing, whatever the pattern. */
  lemma ReplaceAllSelf(s: string, pattern: string)
    requires |pattern| > 0
    ensures ReplaceAll(s, pattern, "$&") == s
  {
    ReplaceAllFromMatched(s, pattern, 0);
  }

  /** `parts.join(sep)`. */
  function Join(parts: seq<string>, sep: string): (r: string)
    ensures parts == [] ==> r == ""
    ensures |parts| == 1 ==> r == parts[0]
  {
    if parts == [] then ""
    else if |parts| == 1 then parts[0]
    else parts[0] + sep + Join(parts[1..], sep)
  }

  /** Joining splits at any inner boundary: the two joined halves with one separator between them. */
  lemma {:induction false} JoinSplit(parts: seq<string>, k: nat, sep: string)
    requires 0 < k < |parts|
    ensures Join(parts, sep) == Join(parts[..k], sep) + sep + Join(parts[k..], sep)
    decreases k
  {
    if k > 1 {
      JoinSplit(parts[1..], k - 1, sep);
      assert parts[1..][..k - 1] == parts[..k][1..];
      assert parts[1..][k - 1..] == parts[k..];
    } else {
      assert parts[..1] == [parts[0]];
    }
  }

  /** Sum of the lengths of the parts. */
  function TotalLength(parts: seq<string>): nat
  {
    if parts == [] then 0 else |parts[0]| + TotalLength(parts[1..])
  }

  /** The joined text holds every part and one separator between each two neighbours. */
  lemma {:induction false} JoinLength(parts: seq<string>, sep: string)
    requires parts != []
    ensures |Join(parts, sep)| == TotalLength(parts) + (|parts| - 1) * |sep|
  {
    if |parts| > 1 {
      JoinLength(parts[1..], sep);
    }
  }
}
