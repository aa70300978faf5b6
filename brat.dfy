/** The records the parser builds from a BRAT stand-off annotation file, and
    the first-match lookups it runs over them. */
module Brat {
  import opened Outcomes

  /** An entity annotation, one per `T` line: its id, entity type, character
      span in the text and the tokenised surface text. */
  datatype Tag = Tag(tagId: string, tagName: string, start: int, end: int, words: seq<string>)

  /** A typed relation between two tags, from an `E` (event) or `R` (relation) line. */
  datatype Link = Link(lId: string, lName: string, arg1: Tag, arg2: Tag)

  /** A word of the text with its BIO label. */
  datatype Token = Token(word: string, bioLabel: string)

  /** Lines read from a file with `readlines()` are never empty, so their first
      character (the annotation kind `T`, `E`, `R`, ...) always exists. */
  predicate AllNonEmpty(lines: seq<string>) {
    forall i :: 0 <= i < |lines| ==> lines[i] != []
  }

  /** The lines whose first character is one of `kinds`, in file order
      (the comprehensions `[t for t in self.ann if t[0] == ...]`). */
  function LinesOfKind(lines: seq<string>, kinds: set<char>): (r: seq<string>)
    requires AllNonEmpty(lines)
    ensures AllNonEmpty(r)
    ensures forall k :: 0 <= k < |r| ==> r[k][0] in kinds && r[k] in lines
    ensures forall i :: 0 <= i < |lines| && lines[i][0] in kinds ==> lines[i] in r
    ensures |r| <= |lines|
  {
    if lines == [] then []
    else (if lines[0][0] in kinds then [lines[0]] else []) + LinesOfKind(lines[1..], kinds)
  }

  /** One line is kept exactly when its kind is requested. */
  lemma LinesOfKindOne(line: string, kinds: set<char>)
    requires line != []
    ensures LinesOfKind([line], kinds) == if line[0] in kinds then [line] else []
  {
    assert [line][1..] == [];
  }

  /** Two runs of non-empty lines make a run of non-empty lines. */
  lemma AppendNonEmpty(a: seq<string>, b: seq<string>)
    requires AllNonEmpty(a) && AllNonEmpty(b)
    ensures AllNonEmpty(a + b)
  {
    forall i | 0 <= i < |a + b|
      ensures (a + b)[i] != []
    {
      if i >= |a| {
        assert (a + b)[i] == b[i - |a|];
      }
    }
  }

  /** The filter works line by line: filtering two runs of lines one after
      the other gives the two filtered runs, in the same order, with every
      kept line as often as it occurs. */
  lemma {:induction false} LinesOfKindAppend(a: seq<string>, b: seq<string>, kinds: set<char>)
    requires AllNonEmpty(a) && AllNonEmpty(b)
    ensures AllNonEmpty(a + b)
    ensures LinesOfKind(a + b, kinds) == LinesOfKind(a, kinds) + LinesOfKind(b, kinds)
    decreases |a|
  {
    AppendNonEmpty(a, b);
    if a == [] {
      assert a + b == b;
    } else {
      assert (a + b)[1..] == a[1..] + b;
      LinesOfKindAppend(a[1..], b, kinds);
    }
  }

  /** The index of the first element satisfying `p`: what a `for` loop with an
      early `return` (or `[x for x in xs if p(x)][0]`) finds. */
  function FirstWhere<T>(xs: seq<T>, p: T -> bool): (r: Option<nat>)
    ensures r.Some? ==> r.value < |xs| && p(xs[r.value])
    ensures r.Some? ==> forall j :: 0 <= j < r.value ==> !p(xs[j])
    ensures r.None? ==> forall j :: 0 <= j < |xs| ==> !p(xs[j])
  {
    if xs == [] then None
    else if p(xs[0]) then Some(0)
    else match FirstWhere(xs[1..], p)
      case None => None
      case Some(i) => Some(i + 1)
  }
}
