/** The string operations the monitoring script uses: `String.prototype.includes`,
    `String.prototype.split` with a one-character separator,
    `Array.prototype.join`, and the ASCII case folding behind a regular
    expression with the `i` flag but without the `u` flag. */
module Text {

  /** `pat` occurs in `text` starting at index `i`. */
  ghost predicate OccursAt(text: string, pat: string, i: int) {
    0 <= i && i + |pat| <= |text| && text[i..i + |pat|] == pat
  }

  lemma ShiftOccurrence(text: string, pat: string)
    requires |text| >= 1
    ensures forall i :: OccursAt(text[1..], pat, i) ==> OccursAt(text, pat, i + 1)
    ensures forall i :: 1 <= i && OccursAt(text, pat, i) ==> OccursAt(text[1..], pat, i - 1)
  {
    forall i | OccursAt(text[1..], pat, i)
      ensures OccursAt(text, pat, i + 1)
    {
      assert text[1..][i..i + |pat|] == text[i + 1..i + 1 + |pat|];
    }
    forall i | 1 <= i && OccursAt(text, pat, i)
      ensures OccursAt(text[1..], pat, i - 1)
    {
      assert text[1..][i - 1..i - 1 + |pat|] == text[i..i + |pat|];
    }
  }

  /** `text.includes(pat)`: true exactly when `pat` occurs somewhere in `text`. */
  function Contains(text: string, pat: string): (b: bool)
    ensures b <==> exists i :: OccursAt(text, pat, i)
    decreases |text|
  {
    if |pat| > |text| then false
    else if text[..|pat|] == pat then (assert OccursAt(text, pat, 0); true)
    else
      ShiftOccurrence(text, pat);
      assert !OccursAt(text, pat, 0);
      Contains(text[1..], pat)
  }

  /** Containment is transitive: a text that contains `mid` contains every
      substring of `mid`. */
  lemma ContainsTransitive(text: string, mid: string, pat: string)
    requires Contains(text, mid) && Contains(mid, pat)
    ensures Contains(text, pat)
  {
    var i :| OccursAt(text, mid, i);
    var j :| OccursAt(mid, pat, j);
    assert forall k :: 0 <= k < |pat| ==> text[i + j + k] == mid[j + k] == pat[k];
    assert text[i + j..i + j + |pat|] == pat;
    assert OccursAt(text, pat, i + j);
  }

  /** `s.startsWith(p)` */
  predicate StartsWith(s: string, p: string) {
    |p| <= |s| && s[..|p|] == p
  }

  /** Upper-case ASCII letters map to lower case; everything else is kept. */
  function FoldChar(c: char): char {
    if 'A' <= c <= 'Z' then (c as int + 32) as char else c
  }

  function Lower(s: string): (r: string)
    ensures |r| == |s|
    ensures forall i :: 0 <= i < |s| ==> r[i] == FoldChar(s[i])
  {
    seq(|s|, i requires 0 <= i < |s| => FoldChar(s[i]))
  }

  /** `parts.join(sep)` on strings. */
  function Join(parts: seq<string>, sep: string): string
    decreases |parts|
  {
    if |parts| == 0 then ""
    else if |parts| == 1 then parts[0]
    else parts[0] + sep + Join(parts[1..], sep)
  }

  /** Joining one more piece appends the separator and that piece. */
  lemma {:induction false} JoinSnoc(parts: seq<string>, last: string, sep: string)
    requires |parts| >= 1
    ensures Join(parts + [last], sep) == Join(parts, sep) + sep + last
    decreases |parts|
  {
    if |parts| == 1 {
      assert (parts + [last])[1..] == [last];
    } else {
      assert (parts + [last])[1..] == parts[1..] + [last];
      JoinSnoc(parts[1..], last, sep);
    }
  }

  /** The first two pieces of a join of two or more pieces, with the
      separator between them, either make up the whole text or are followed
      by another separator. */
  lemma JoinHead(parts: seq<string>, sep: string)
    requires |parts| >= 2
    ensures var p := parts[0] + sep + parts[1];
            Join(parts, sep) == p || StartsWith(Join(parts, sep), p + sep)
  {
    var p := parts[0] + sep + parts[1];
    assert parts[1..][0] == parts[1];
    if |parts| > 2 {
      assert parts[1..][1..] == parts[2..];
      var rest := Join(parts[2..], sep);
      assert Join(parts[1..], sep) == parts[1] + sep + rest;
      assert Join(parts, sep) == (p + sep) + rest;
    }
  }

  /** Position of the first `c` in `s`. */
  function IndexOf(s: string, c: char): (i: nat)
    requires c in s
    ensures i < |s| && s[i] == c
    ensures forall k :: 0 <= k < i ==> s[k] != c
  {
    if s[0] == c then 0 else IndexOf(s[1..], c) + 1
  }

  /** A position holding `c` with no `c` before it is the one `IndexOf` finds. */
  lemma IndexOfUnique(s: string, c: char, j: int)
    requires 0 <= j < |s| && s[j] == c
    requires forall k :: 0 <= k < j ==> s[k] != c
    ensures IndexOf(s, c) == j
  {
  }

  /** `s.split(sep)` for a one-character separator: the pieces between
      separators, in order. There is always at least one piece, no piece
      holds the separator, and joining the pieces back gives `s`. */
  function Split(s: string, sep: char): (parts: seq<string>)
    ensures |parts| >= 1
    ensures forall k :: 0 <= k < |parts| ==> sep !in parts[k]
    ensures Join(parts, [sep]) == s
    decreases |s|
  {
    if sep !in s then [s]
    else
      var i := IndexOf(s, sep);
      var rest := Split(s[i + 1..], sep);
      var parts := [s[..i]] + rest;
      assert parts[1..] == rest;
      assert s == s[..i] + [sep] + s[i + 1..];
      parts
  }

  /** A text without the separator splits into itself alone; a text with it
      splits into at least two pieces. */
  lemma SplitCount(s: string, sep: char)
    ensures sep !in s ==> Split(s, sep) == [s]
    ensures sep in s ==> |Split(s, sep)| >= 2
  {
    var parts := Split(s, sep);
    assert |parts| == 1 ==> Join(parts, [sep]) == parts[0];
    assert |parts| >= 2 ==> Join(parts, [sep])[|parts[0]|] == sep;
  }

  /** Splitting undoes joining: pieces free of the separator, joined with it,
      split back into exactly the same pieces. */
  lemma {:induction false} SplitOfJoin(parts: seq<string>, sep: char)
    requires |parts| >= 1
    requires forall k :: 0 <= k < |parts| ==> sep !in parts[k]
    ensures Split(Join(parts, [sep]), sep) == parts
    decreases |parts|
  {
    if |parts| == 1 {
      SplitCount(parts[0], sep);
    } else {
      var tail := Join(parts[1..], [sep]);
      var s := Join(parts, [sep]);
      var j := |parts[0]|;
      assert s == parts[0] + [sep] + tail;
      assert s[..j] == parts[0];
      assert s[j] == sep;
      IndexOfUnique(s, sep, j);
      assert s[j + 1..] == tail;
      SplitOfJoin(parts[1..], sep);
      assert Split(s, sep) == [parts[0]] + parts[1..];
    }
  }
}
