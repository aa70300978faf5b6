/** The Python string operations the annotation parser is built from, with
    Python's own edge cases: `str.split()` drops empty pieces while
    `str.split(sep)` keeps them, `str.find` counts a negative start from the
    end of the string, and `int()` accepts a sign. */
module PyStr {
  import opened Outcomes

  /** `str.isspace()` for one character: the separators of `str.split()` and
      the characters `str.rstrip()` removes. */
  predicate IsSpace(c: char) {
    || ('\t' <= c <= '\r')
    || ('\U{1C}' <= c <= ' ')
    || c == '\U{85}' || c == '\U{A0}' || c == '\U{1680}'
    || ('\U{2000}' <= c <= '\U{200A}')
    || c == '\U{2028}' || c == '\U{2029}' || c == '\U{202F}' || c == '\U{205F}' || c == '\U{3000}'
  }

  predicate NoSpace(w: string) {
    forall i :: 0 <= i < |w| ==> !IsSpace(w[i])
  }

  predicate AllSpace(w: string) {
    forall i :: 0 <= i < |w| ==> IsSpace(w[i])
  }

  /** A piece that `str.split()` can return. */
  predicate IsWord(w: string) {
    w != [] && NoSpace(w)
  }

  /** Length of the run of non-whitespace characters at the front of `s`. */
  function WordLen(s: string): (n: nat)
    ensures n <= |s|
    ensures forall i :: 0 <= i < n ==> !IsSpace(s[i])
    ensures n < |s| ==> IsSpace(s[n])
    ensures s != [] && !IsSpace(s[0]) ==> n > 0
  {
    if s == [] || IsSpace(s[0]) then 0 else 1 + WordLen(s[1..])
  }

  /** `s.split()`: the maximal runs of non-whitespace characters, in order. */
  function Words(s: string): (ws: seq<string>)
    ensures forall k :: 0 <= k < |ws| ==> IsWord(ws[k])
    decreases |s|
  {
    if s == [] then []
    else if IsSpace(s[0]) then Words(s[1..])
    else
      var n := WordLen(s);
      [s[..n]] + Words(s[n..])
  }

  /** `sep.join(parts)`. */
  function JoinWith(parts: seq<string>, sep: string): string {
    if |parts| == 0 then []
    else if |parts| == 1 then parts[0]
    else parts[0] + sep + JoinWith(parts[1..], sep)
  }

  /** `s.split(sep)` for a one-character separator: every piece between two
      separators, empty pieces included, so there is always at least one. */
  function SplitOn(s: string, sep: char): (parts: seq<string>)
    ensures |parts| >= 1
    ensures forall k :: 0 <= k < |parts| ==> sep !in parts[k]
  {
    if s == [] then [[]]
    else
      var rest := SplitOn(s[1..], sep);
      if s[0] == sep then [[]] + rest
      else [[s[0]] + rest[0]] + rest[1..]
  }

  /** `s.rstrip()`: `s` without its trailing whitespace. */
  function RStrip(s: string): (r: string)
    ensures r <= s
    ensures r == [] || !IsSpace(r[|r| - 1])
    ensures forall i :: |r| <= i < |s| ==> IsSpace(s[i])
    decreases |s|
  {
    if s != [] && IsSpace(s[|s| - 1]) then RStrip(s[..|s| - 1]) else s
  }

  /** `"".join(lines)`. */
  function Concat(lines: seq<string>): string {
    if lines == [] then [] else lines[0] + Concat(lines[1..])
  }

  /** `sub` occurs in `text` at index `i`. */
  predicate OccursAt(text: string, sub: string, i: int) {
    0 <= i && i + |sub| <= |text| && text[i..i + |sub|] == sub
  }

  /** CPython's adjustment of a slice start: a negative start counts back
      from the end of the string and is clamped at 0. */
  function AdjustStart(start: int, len: nat): nat {
    if start >= 0 then start
    else if start + len >= 0 then start + len
    else 0
  }

  function FindFrom(text: string, sub: string, i: nat): (r: int)
    ensures r == -1 || i <= r
    decreases |text| - i
  {
    if i + |sub| > |text| then -1
    else if text[i..i + |sub|] == sub then i
    else FindFrom(text, sub, i + 1)
  }

  /** The search from `i` finds the first occurrence at or after `i`, or -1
      when there is none. */
  lemma {:induction false} FindFromMeaning(text: string, sub: string, i: nat)
    ensures var r := FindFrom(text, sub, i);
      && (r == -1 || OccursAt(text, sub, r))
      && forall j :: i <= j && (r == -1 || j < r) ==> !OccursAt(text, sub, j)
    decreases |text| - i
  {
    if i + |sub| <= |text| && text[i..i + |sub|] != sub {
      FindFromMeaning(text, sub, i + 1);
    }
  }

  /** `text.find(sub, start)`: the lowest index at or after the adjusted start
      where `sub` occurs, or -1 when there is none (see `FindMeaning`). */
  function Find(text: string, sub: string, start: int): (r: int)
    ensures r >= -1
    ensures r != -1 ==> AdjustStart(start, |text|) <= r
  {
    FindFrom(text, sub, AdjustStart(start, |text|))
  }

  lemma FindMeaning(text: string, sub: string, start: int)
    ensures var r := Find(text, sub, start);
      && (r != -1 ==> OccursAt(text, sub, r))
      && forall j :: AdjustStart(start, |text|) <= j && (r == -1 || j < r) ==> !OccursAt(text, sub, j)
  {
    FindFromMeaning(text, sub, AdjustStart(start, |text|));
  }

  /** `sub in s`. */
  function Contains(s: string, sub: string): bool {
    Find(s, sub, 0) != -1
  }

  /** `sub in s` holds exactly when `sub` occurs somewhere in `s`. */
  lemma ContainsMeaning(s: string, sub: string)
    ensures Contains(s, sub) <==> exists i :: OccursAt(s, sub, i)
  {
    FindMeaning(s, sub, 0);
  }

  predicate IsDigit(c: char) {
    '0' <= c <= '9'
  }

  predicate AllDigits(s: string) {
    forall i :: 0 <= i < |s| ==> IsDigit(s[i])
  }

  function DigitsValue(s: string): nat
    requires AllDigits(s)
    decreases |s|
  {
    if s == [] then 0 else 10 * DigitsValue(s[..|s| - 1]) + (s[|s| - 1] as int - '0' as int)
  }

  /** `int(s)` on a piece produced by `str.split()`: an optional sign followed
      by at least one ASCII digit; anything else raises ValueError. */
  function ParseInt(s: string): Option<int> {
    if |s| > 0 && (s[0] == '+' || s[0] == '-') then
      if |s| > 1 && AllDigits(s[1..]) then
        Some(if s[0] == '-' then -(DigitsValue(s[1..]) as int) else DigitsValue(s[1..]))
      else None
    else if |s| > 0 && AllDigits(s) then Some(DigitsValue(s))
    else None
  }

  /** Decimal digits of `n`, most significant first. */
  function ShowNat(n: nat): (s: string)
    ensures s != [] && AllDigits(s) && DigitsValue(s) == n
    decreases n
  {
    if n < 10 then [('0' as int + n) as char]
    else
      var front := ShowNat(n / 10);
      var s := front + [('0' as int + n % 10) as char];
      assert s[..|s| - 1] == front;
      s
  }

  /** `str(n)` for an integer. */
  function ShowInt(n: int): string {
    if n < 0 then "-" + ShowNat(-n) else ShowNat(n)
  }

  // ---------------------------------------------------------------------------
  // Lemmas

  /** `int(str(n)) == n`, and `str(n)` is one whitespace-free word. */
  lemma ParseShowInt(n: int)
    ensures ParseInt(ShowInt(n)) == Some(n)
    ensures IsWord(ShowInt(n))
  {
    if n < 0 {
      var d := ShowNat(-n);
      assert ("-" + d)[1..] == d;
      assert forall i :: 0 <= i < |"-" + d| ==> ("-" + d)[i] == '-' || IsDigit(("-" + d)[i]);
    } else {
      var d := ShowNat(n);
      assert d[0] != '+' && d[0] != '-' by { assert IsDigit(d[0]); }
    }
  }

  /** A word followed by whitespace (or nothing) is split off as the first piece. */
  lemma {:induction false} WordLenOfWord(w: string, rest: string)
    requires NoSpace(w)
    requires rest == [] || IsSpace(rest[0])
    ensures WordLen(w + rest) == |w|
    decreases |w|
  {
    if w == [] {
      assert w + rest == rest;
    } else {
      assert (w + rest)[1..] == w[1..] + rest;
      WordLenOfWord(w[1..], rest);
    }
  }

  lemma WordsOfLeadingWord(w: string, rest: string)
    requires IsWord(w)
    requires rest == [] || IsSpace(rest[0])
    ensures Words(w + rest) == [w] + Words(rest)
  {
    WordLenOfWord(w, rest);
    assert (w + rest)[..|w|] == w;
    assert (w + rest)[|w|..] == rest;
  }

  /** Splitting words joined by single spaces gives the words back. */
  lemma {:induction false} WordsOfJoin(ws: seq<string>)
    requires forall k :: 0 <= k < |ws| ==> IsWord(ws[k])
    ensures Words(JoinWith(ws, " ")) == ws
  {
    if |ws| == 1 {
      WordsOfLeadingWord(ws[0], []);
      assert ws[0] + [] == ws[0];
    } else if |ws| > 1 {
      var tail := JoinWith(ws[1..], " ");
      var rest := " " + tail;
      assert JoinWith(ws, " ") == ws[0] + rest;
      WordsOfLeadingWord(ws[0], rest);
      assert rest[1..] == tail;
      WordsOfJoin(ws[1..]);
      assert [ws[0]] + ws[1..] == ws;
    }
  }

  lemma {:induction false} WordsOfSpaces(sp: string)
    requires AllSpace(sp)
    ensures Words(sp) == []
    decreases |sp|
  {
    if sp != [] {
      WordsOfSpaces(sp[1..]);
    }
  }

  /** Trailing whitespace does not change the words of a string. */
  lemma {:induction false} WordsIgnoreTrailingSpace(t: string, sp: string)
    requires AllSpace(sp)
    ensures Words(t + sp) == Words(t)
    decreases |t|
  {
    if t == [] {
      assert t + sp == sp;
      WordsOfSpaces(sp);
    } else if IsSpace(t[0]) {
      assert (t + sp)[1..] == t[1..] + sp;
      WordsIgnoreTrailingSpace(t[1..], sp);
    } else {
      var m := WordLen(t);
      var w, rest := t[..m], t[m..];
      assert t == w + rest;
      assert t + sp == w + (rest + sp);
      WordsOfLeadingWord(w, rest);
      WordsOfLeadingWord(w, rest + sp);
      WordsIgnoreTrailingSpace(rest, sp);
    }
  }

  /** `s.rstrip().split() == s.split()`. */
  lemma WordsOfRStrip(s: string)
    ensures Words(RStrip(s)) == Words(s)
  {
    var r := RStrip(s);
    var sp := s[|r|..];
    assert s == r + sp;
    WordsIgnoreTrailingSpace(r, sp);
  }

  /** Joining the pieces of `s.split(sep)` with `sep` gives `s` back. */
  lemma {:induction false} JoinOfSplit(s: string, sep: char)
    ensures JoinWith(SplitOn(s, sep), [sep]) == s
  {
    if s != [] {
      var rest := SplitOn(s[1..], sep);
      JoinOfSplit(s[1..], sep);
      if s[0] == sep {
        assert ([[]] + rest)[1..] == rest;
      } else if |rest| > 1 {
        var parts := [[s[0]] + rest[0]] + rest[1..];
        assert parts[1..] == rest[1..];
        assert JoinWith(rest, [sep]) == rest[0] + [sep] + JoinWith(rest[1..], [sep]);
      }
    }
  }

  /** The first piece of `s.split(sep)` is the text before the first `sep`. */
  lemma FirstPiece(s: string, sep: char)
    requires |SplitOn(s, sep)| >= 2
    ensures var p := SplitOn(s, sep)[0];
            |p| < |s| && s[..|p|] == p && s[|p|] == sep
  {
    var parts := SplitOn(s, sep);
    JoinOfSplit(s, sep);
    assert s == parts[0] + [sep] + JoinWith(parts[1..], [sep]);
  }

  lemma {:induction false} SplitWithoutSep(s: string, sep: char)
    requires sep !in s
    ensures SplitOn(s, sep) == [s]
  {
    if s != [] {
      SplitWithoutSep(s[1..], sep);
      assert s[0] != sep;
      assert [s[0]] + s[1..] == s;
    }
  }

  /** A piece without the separator, then the separator, is split off first. */
  lemma {:induction false} SplitAfterPiece(a: string, sep: char, b: string)
    requires sep !in a
    ensures SplitOn(a + [sep] + b, sep) == [a] + SplitOn(b, sep)
    decreases |a|
  {
    var s := a + [sep] + b;
    if a == [] {
      assert s[1..] == b;
    } else {
      assert s[1..] == a[1..] + [sep] + b;
      SplitAfterPiece(a[1..], sep, b);
      assert [a[0]] + a[1..] == a;
    }
  }

  /** `s.find(p) == 0` holds exactly when `p` is a prefix of `s`. */
  lemma FindZeroIsPrefix(s: string, p: string)
    ensures Find(s, p, 0) == 0 <==> p <= s
  {
    if p <= s {
      assert OccursAt(s, p, 0);
    }
  }

  /** The first word of a string that does not start with whitespace starts
      with the string's first character. */
  lemma WordsHead(s: string)
    requires s != [] && !IsSpace(s[0])
    ensures |Words(s)| > 0 && Words(s)[0] != [] && Words(s)[0][0] == s[0]
  {
  }

  /** The pieces of a whitespace-free string are whitespace-free. */
  lemma {:induction false} PiecesNoSpace(s: string, sep: char)
    requires NoSpace(s)
    ensures forall k :: 0 <= k < |SplitOn(s, sep)| ==> NoSpace(SplitOn(s, sep)[k])
  {
    if s != [] {
      PiecesNoSpace(s[1..], sep);
    }
  }

  lemma {:induction false} JoinAppend(a: seq<string>, b: seq<string>, sep: string)
    requires a != [] && b != []
    ensures JoinWith(a + b, sep) == JoinWith(a, sep) + sep + JoinWith(b, sep)
    decreases |a|
  {
    assert (a + b)[1..] == a[1..] + b;
    if |a| > 1 {
      JoinAppend(a[1..], b, sep);
    }
  }

  /** `(a + sep + b).split(sep) == [a, b]` when neither piece holds `sep`. */
  lemma SplitPair(a: string, sep: char, b: string)
    requires sep !in a && sep !in b
    ensures SplitOn(a + [sep] + b, sep) == [a, b]
  {
    SplitAfterPiece(a, sep, b);
    SplitWithoutSep(b, sep);
  }
}
