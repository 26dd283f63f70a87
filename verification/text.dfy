/** String operations the catalog uses to localise its generic entries:
    `toLowerCase()`, `replace(/\s+/g, '_')`, and `replace(/the area|local/, dest)`
    both as JavaScript evaluates it (the replacement string is scanned for
    `$` patterns) and as a literal insertion. */
module Text {
  import opened Wrappers

  /** The characters JavaScript's `\s` matches: WhiteSpace and LineTerminator. */
  predicate IsSpace(c: char)
  {
    || c == '\t' || c == '\n' || c == '\U{000B}' || c == '\U{000C}' || c == '\r'
    || c == ' ' || c == '\U{00A0}' || c == '\U{1680}'
    || ('\U{2000}' <= c <= '\U{200A}')
    || c == '\U{2028}' || c == '\U{2029}' || c == '\U{202F}' || c == '\U{205F}'
    || c == '\U{3000}' || c == '\U{FEFF}'
  }

  predicate NoSpace(s: string)
  {
    forall i :: 0 <= i < |s| ==> !IsSpace(s[i])
  }

  /** `toLowerCase` on one character, for the ASCII letters. */
  function LowerChar(c: char): (r: char)
    ensures 'A' <= c <= 'Z' ==> r as int == c as int + 32
    ensures !('A' <= c <= 'Z') ==> r == c
  {
    if 'A' <= c <= 'Z' then (c as int + 32) as char else c
  }

  function Lower(s: string): (r: string)
    ensures |r| == |s|
    ensures forall i :: 0 <= i < |s| ==> r[i] == LowerChar(s[i])
  {
    seq(|s|, i requires 0 <= i < |s| => LowerChar(s[i]))
  }

  predicate IsLowered(s: string)
  {
    forall i :: 0 <= i < |s| ==> LowerChar(s[i]) == s[i]
  }

  /** `s` with its leading run of whitespace removed. */
  function SkipSpaces(s: string): (r: string)
    ensures |r| <= |s| && r == s[|s| - |r|..]
    ensures |s| > 0 && IsSpace(s[0]) ==> |r| < |s|
    ensures |r| == 0 || !IsSpace(r[0])
    ensures forall i :: 0 <= i < |s| - |r| ==> IsSpace(s[i])
  {
    if |s| > 0 && IsSpace(s[0]) then
      var rest := SkipSpaces(s[1..]);
      assert forall i :: 1 <= i < |s| - |rest| ==> s[i] == s[1..][i - 1];
      rest
    else s
  }

  /** `s.replace(/\s+/g, '_')`: every maximal run of whitespace becomes one `_`. */
  function CollapseSpaces(s: string): (r: string)
    ensures |r| <= |s|
    ensures NoSpace(r)
    ensures IsLowered(s) ==> IsLowered(r)
    decreases |s|
  {
    if |s| == 0 then ""
    else if IsSpace(s[0]) then "_" + CollapseSpaces(SkipSpaces(s))
    else [s[0]] + CollapseSpaces(s[1..])
  }

  /** The id prefix of a localised entry: `dest.toLowerCase().replace(/\s+/g, '_')`. */
  function Normalise(dest: string): (r: string)
    ensures NoSpace(r) && IsLowered(r)
    ensures |r| <= |dest|
  {
    CollapseSpaces(Lower(dest))
  }

  /** A string without whitespace has no run to collapse. */
  lemma {:induction false} CollapseSpaceFree(s: string)
    requires NoSpace(s)
    ensures CollapseSpaces(s) == s
    decreases |s|
  {
    if |s| > 0 {
      CollapseSpaceFree(s[1..]);
    }
  }

  /** One whitespace run between a space-free word and the rest of the string
      turns into exactly one underscore. */
  lemma {:induction false} CollapseRun(word: string, run: string, rest: string)
    requires NoSpace(word)
    requires |run| > 0 && forall i :: 0 <= i < |run| ==> IsSpace(run[i])
    requires |rest| == 0 || !IsSpace(rest[0])
    ensures CollapseSpaces(word + run + rest) == word + "_" + CollapseSpaces(rest)
    decreases |word|
  {
    if |word| == 0 {
      assert word + run + rest == run + rest;
      CollapseLeadingRun(run, rest);
    } else {
      var tail := word[1..];
      assert word == [word[0]] + tail;
      assert NoSpace(tail) by {
        assert forall i :: 0 <= i < |tail| ==> tail[i] == word[i + 1];
      }
      CollapseKeeps(word[0], tail + run + rest);
      CollapseRun(tail, run, rest);
      ConcatAssoc(word[0], tail, run, rest);
      ConcatAssoc(word[0], tail, "_", CollapseSpaces(rest));
    }
  }

  lemma ConcatAssoc(c: char, t: string, u: string, v: string)
    ensures [c] + t + u + v == [c] + (t + u + v)
  {
  }

  lemma CollapseLeadingRun(run: string, rest: string)
    requires |run| > 0 && forall i :: 0 <= i < |run| ==> IsSpace(run[i])
    requires |rest| == 0 || !IsSpace(rest[0])
    ensures CollapseSpaces(run + rest) == "_" + CollapseSpaces(rest)
  {
    assert IsSpace((run + rest)[0]);
    SkipRun(run, rest);
  }

  /** A non-space character passes through unchanged. */
  lemma CollapseKeeps(c: char, t: string)
    requires !IsSpace(c)
    ensures CollapseSpaces([c] + t) == [c] + CollapseSpaces(t)
  {
    assert ([c] + t)[1..] == t;
  }

  lemma {:induction false} SkipRun(run: string, rest: string)
    requires forall i :: 0 <= i < |run| ==> IsSpace(run[i])
    requires |rest| == 0 || !IsSpace(rest[0])
    ensures SkipSpaces(run + rest) == rest
    decreases |run|
  {
    if |run| > 0 {
      SkipRun(run[1..], rest);
      assert (run + rest)[1..] == run[1..] + rest;
    }
  }

  /** Normalising an already normalised prefix changes nothing. */
  lemma NormaliseIdempotent(dest: string)
    ensures Normalise(Normalise(dest)) == Normalise(dest)
  {
    var n := Normalise(dest);
    assert Lower(n) == n;
    CollapseSpaceFree(n);
  }

  /** `s[i..]` begins with `w`. */
  predicate StartsAt(s: string, i: nat, w: string)
  {
    i + |w| <= |s| && s[i..i + |w|] == w
  }

  /** Length of the match of `/the area|local/` at position `i`, 0 when none;
      the alternatives are tried left to right. */
  function MatchLength(s: string, i: nat): (n: nat)
    ensures n == 0 || n == 5 || n == 8
    ensures n > 0 ==> i + n <= |s|
  {
    if StartsAt(s, i, "the area") then 8
    else if StartsAt(s, i, "local") then 5
    else 0
  }

  /** The leftmost position at or after `from` where the pattern matches. */
  function FirstMatchFrom(s: string, from: nat): (r: Option<nat>)
    requires from <= |s|
    ensures r.Some? ==> from <= r.value < |s| && MatchLength(s, r.value) > 0
    ensures r.Some? ==> forall j :: from <= j < r.value ==> MatchLength(s, j) == 0
    ensures r.None? ==> forall j :: from <= j <= |s| ==> MatchLength(s, j) == 0
    decreases |s| - from
  {
    if from == |s| then None
    else if MatchLength(s, from) > 0 then Some(from)
    else FirstMatchFrom(s, from + 1)
  }

  function FirstMatch(s: string): Option<nat>
  {
    FirstMatchFrom(s, 0)
  }

  /** A match at `k` with none between `from` and `k` is the first match from `from`. */
  lemma {:induction false} FirstMatchAt(s: string, from: nat, k: nat)
    requires from <= k < |s| && MatchLength(s, k) > 0
    requires forall j :: from <= j < k ==> MatchLength(s, j) == 0
    ensures FirstMatchFrom(s, from) == Some(k)
    decreases k - from
  {
    if from < k {
      FirstMatchAt(s, from + 1, k);
    }
  }

  /** The letters of "local" at `k` are a five-character match there. */
  lemma LocalAt(s: string, k: nat)
    requires k + 5 <= |s|
    requires s[k] == 'l' && s[k + 1] == 'o' && s[k + 2] == 'c' && s[k + 3] == 'a' && s[k + 4] == 'l'
    ensures MatchLength(s, k) == 5
  {
    assert s[k..k + 5] == "local";
    if k + 8 <= |s| {
      assert s[k..k + 8][0] == 'l';
    }
  }

  /** A match after a prefix holding neither `l` nor `t` is the first match. */
  lemma FirstMatchAfterPlainPrefix(s: string, k: nat)
    requires k < |s| && MatchLength(s, k) > 0
    requires forall j :: 0 <= j < k ==> s[j] != 'l' && s[j] != 't'
    ensures FirstMatch(s) == Some(k)
  {
    forall j | 0 <= j < k ensures MatchLength(s, j) == 0 {
      NoMatchAt(s, j);
    }
    FirstMatchAt(s, 0, k);
  }

  /** `s.replace(/the area|local/, dest)` with `dest` inserted literally: the
      leftmost occurrence of either phrase is replaced, nothing else changes. */
  function ReplaceFirst(s: string, dest: string): (r: string)
    ensures FirstMatch(s).None? ==> r == s
    ensures FirstMatch(s).Some? ==>
      var i := FirstMatch(s).value;
      r == s[..i] + dest + s[i + MatchLength(s, i)..]
  {
    match FirstMatch(s)
    case None => s
    case Some(i) => s[..i] + dest + s[i + MatchLength(s, i)..]
  }

  /** The replacement text JavaScript actually inserts for a string
      replacement `rep` (GetSubstitution, ECMAScript section 22.1.3.19.1, with
      no capture groups): `$$` is `$`, `$&` the matched text, `` $` `` the text
      before the match, `$'` the text after it; any other `$` is literal. */
  function Substitute(rep: string, matched: string, before: string, after: string): (r: string)
    ensures rep == "$$" ==> r == "$"
    ensures rep == "$&" ==> r == matched
    ensures rep == "$`" ==> r == before
    ensures rep == "$'" ==> r == after
    decreases |rep|
  {
    if |rep| == 0 then ""
    else if rep[0] == '$' && |rep| >= 2 && rep[1] == '$' then "$" + Substitute(rep[2..], matched, before, after)
    else if rep[0] == '$' && |rep| >= 2 && rep[1] == '&' then matched + Substitute(rep[2..], matched, before, after)
    else if rep[0] == '$' && |rep| >= 2 && rep[1] == '`' then before + Substitute(rep[2..], matched, before, after)
    else if rep[0] == '$' && |rep| >= 2 && rep[1] == '\'' then after + Substitute(rep[2..], matched, before, after)
    else [rep[0]] + Substitute(rep[1..], matched, before, after)
  }

  /** `s.replace(/the area|local/, dest)` exactly as JavaScript evaluates it. */
  function ReplaceFirstAsWritten(s: string, dest: string): (r: string)
    ensures FirstMatch(s).None? ==> r == s
    ensures FirstMatch(s).Some? ==>
      var i, n := FirstMatch(s).value, MatchLength(s, FirstMatch(s).value);
      && |r| >= i + |s| - (i + n)
      && r[..i] == s[..i]
      && r[|r| - (|s| - (i + n))..] == s[i + n..]
  {
    match FirstMatch(s)
    case None => s
    case Some(i) =>
      var n := MatchLength(s, i);
      s[..i] + Substitute(dest, s[i..i + n], s[..i], s[i + n..]) + s[i + n..]
  }

  /** Without a `$` the replacement string is inserted verbatim. */
  lemma {:induction false} SubstituteDollarFree(rep: string, matched: string, before: string, after: string)
    requires '$' !in rep
    ensures Substitute(rep, matched, before, after) == rep
    decreases |rep|
  {
    if |rep| > 0 {
      assert rep[0] in rep;
      assert forall c :: c in rep[1..] ==> c in rep;
      SubstituteDollarFree(rep[1..], matched, before, after);
    }
  }

  /** For destinations without `$`, JavaScript's replacement and the literal
      one agree. */
  lemma ReplaceFirstAgrees(s: string, dest: string)
    requires '$' !in dest
    ensures ReplaceFirstAsWritten(s, dest) == ReplaceFirst(s, dest)
  {
    match FirstMatch(s)
    case None =>
    case Some(i) =>
      var n := MatchLength(s, i);
      SubstituteDollarFree(dest, s[i..i + n], s[..i], s[i + n..]);
  }

  /** A destination spelled `$&` re-inserts whatever phrase matched, so the
      source leaves every description as it was, while the literal
      replacement changes each one that has a match. */
  lemma {:induction false} DollarAmpersandKeepsMatch(s: string)
    requires FirstMatch(s).Some?
    ensures ReplaceFirstAsWritten(s, "$&") == s
    ensures ReplaceFirst(s, "$&") != s
  {
    var i := FirstMatch(s).value;
    var n := MatchLength(s, i);
    assert Substitute("$&", s[i..i + n], s[..i], s[i + n..]) == s[i..i + n] by {
      assert Substitute("", s[i..i + n], s[..i], s[i + n..]) == "";
    }
    assert s[..i] + s[i..i + n] + s[i + n..] == s;
    assert |ReplaceFirst(s, "$&")| == |s| - n + 2;
  }

  /** No match starts at a character that starts neither phrase. */
  lemma NoMatchAt(s: string, j: nat)
    requires j < |s| && s[j] != 'l' && s[j] != 't'
    ensures MatchLength(s, j) == 0
  {
    if j + 5 <= |s| {
      assert s[j..j + 5][0] == s[j];
    }
    if j + 8 <= |s| {
      assert s[j..j + 8][0] == s[j];
    }
  }
}
