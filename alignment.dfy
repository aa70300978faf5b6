/** BIO alignment of tokenised sentences against the raw text. A cursor walks
    each sentence word by word while a character offset `start` moves through
    the text: a word is searched for from `start`; when a tag begins where it
    is found, the tag's words are labelled `B-name`, `I-name`, ... and the walk
    jumps past the tag; otherwise the word is labelled `O`. */
module Alignment {
  import opened Outcomes
  import opened PyStr
  import opened Brat
  import opened TagParsing

  /** `__contain`: span `[s1, e1]` lies within span `[s2, e2]`; a partial
      overlap, like any other case, is not containment. */
  function Contain(s1: int, e1: int, s2: int, e2: int): (r: bool)
    ensures r <==> s2 <= s1 && e1 <= e2
  {
    if s2 <= s1 && e1 <= e2 then true
    else if !((s2 >= s1 && e2 >= e1) || (s2 <= s1 && e2 <= e1)) then false
    else false
  }

  /** Python's `zip`: pairs up to the shorter of the two sequences. */
  function Zip<A, B>(xs: seq<A>, ys: seq<B>): (r: seq<(A, B)>)
    ensures |r| == if |xs| <= |ys| then |xs| else |ys|
    ensures forall k :: 0 <= k < |r| ==> r[k] == (xs[k], ys[k])
  {
    if xs == [] || ys == [] then [] else [(xs[0], ys[0])] + Zip(xs[1..], ys[1..])
  }

  /** The slice `xs[1:]`, which is empty for an empty `xs`. */
  function Tail<T>(xs: seq<T>): seq<T> {
    if xs == [] then [] else xs[1..]
  }

  /** `make_bio`: the words of a tag, the first labelled `B-name` and the
      others `I-name`. The label list always holds the `B-` label, so for a
      tag without words the zip is empty. */
  function MakeBio(tag: Tag): (pairs: seq<(string, string)>)
    ensures |pairs| == |tag.words|
    ensures forall k :: 0 <= k < |pairs| ==> pairs[k].0 == tag.words[k]
    ensures |pairs| > 0 ==> pairs[0].1 == "B-" + tag.tagName
    ensures forall k :: 1 <= k < |pairs| ==> pairs[k].1 == "I-" + tag.tagName
  {
    var labels := ["B-" + tag.tagName] + seq(|Tail(tag.words)|, _ => "I-" + tag.tagName);
    Zip(tag.words, labels)
  }

  /** The tag the aligner uses at offset `start`: the first tag starting
      there, dropped when a non-empty `labels` list does not allow its name.
      A later tag at the same offset is never considered. */
  function TagAt(tags: seq<Tag>, start: int, labels: seq<string>): (r: Option<Tag>)
    ensures r.Some? ==> r == GetTagByStart(tags, start) && (labels == [] || r.value.tagName in labels)
    ensures r.None? <==>
      (GetTagByStart(tags, start).None? || (labels != [] && GetTagByStart(tags, start).value.tagName !in labels))
  {
    match GetTagByStart(tags, start)
    case None => None
    case Some(t) => if labels != [] && t.tagName !in labels then None else Some(t)
  }

  /** The state of the walk over one sentence: the labelled pairs so far, the
      index of the next word, and the character offset. */
  datatype Cursor = Cursor(pairs: seq<(string, string)>, wi: nat, start: int)

  /** One turn of the `while wi < len(sent)` loop. */
  function Step(text: string, tags: seq<Tag>, labels: seq<string>, sent: seq<string>, c: Cursor): Cursor
    requires c.wi < |sent|
  {
    var word := sent[c.wi];
    var at := FindFrom(text, word, AdjustStart(c.start, |text|));
    match TagAt(tags, at, labels)
    case Some(t) => Cursor(c.pairs + MakeBio(t), c.wi + |t.words|, t.end)
    case None => Cursor(c.pairs + [(word, "O")], c.wi + 1, at + |word|)
  }

  /** The walk over one sentence from cursor `c`, taking at most `fuel` steps;
      None when it has not reached the end of the sentence by then. */
  function AlignSentence(text: string, tags: seq<Tag>, labels: seq<string>, sent: seq<string>, c: Cursor, fuel: nat): Option<Cursor>
    decreases fuel
  {
    if c.wi >= |sent| then Some(c)
    else if fuel == 0 then None
    else AlignSentence(text, tags, labels, sent, Step(text, tags, labels, sent, c), fuel - 1)
  }

  lemma AlignSentenceStep(text: string, tags: seq<Tag>, labels: seq<string>, sent: seq<string>, c: Cursor, fuel: nat)
    requires c.wi < |sent| && fuel > 0
    ensures AlignSentence(text, tags, labels, sent, c, fuel)
         == AlignSentence(text, tags, labels, sent, Step(text, tags, labels, sent, c), fuel - 1)
  {
  }

  function Tokens(pairs: seq<(string, string)>): (ts: seq<Token>)
    ensures |ts| == |pairs|
    ensures forall k :: 0 <= k < |pairs| ==> ts[k] == Token(pairs[k].0, pairs[k].1)
  {
    seq(|pairs|, k requires 0 <= k < |pairs| => Token(pairs[k].0, pairs[k].1))
  }

  /** The token lists of `sents`, the offset carried from each sentence into
      the next. */
  function GenTokensFrom(text: string, tags: seq<Tag>, labels: seq<string>, sents: seq<seq<string>>, start: int, fuel: nat): Result<seq<seq<Token>>> {
    if sents == [] then Ok([])
    else match AlignSentence(text, tags, labels, sents[0], Cursor([], 0, start), fuel)
      case None => Err(NoProgress)
      case Some(c) => Prepend([Tokens(c.pairs)], GenTokensFrom(text, tags, labels, sents[1..], c.start, fuel))
  }

  /** `gen_tokens` over the body sentences. The offset starts at the number of
      words of the first body sentence; there is no first sentence to count
      when the body is empty. */
  function GenTokensOf(text: string, tags: seq<Tag>, labels: seq<string>, sents: seq<seq<string>>, fuel: nat): Result<seq<seq<Token>>> {
    if sents == [] then Err(IndexError)
    else GenTokensFrom(text, tags, labels, sents, |sents[0]|, fuel)
  }

  /** More steps do not change a walk that has finished: the bound only
      decides whether the walk is cut short, never where it ends. */
  lemma {:induction false} AlignSentenceMoreFuel(text: string, tags: seq<Tag>, labels: seq<string>, sent: seq<string>,
                                                 c: Cursor, fuel: nat, fuel': nat)
    requires fuel <= fuel'
    requires AlignSentence(text, tags, labels, sent, c, fuel).Some?
    ensures AlignSentence(text, tags, labels, sent, c, fuel') == AlignSentence(text, tags, labels, sent, c, fuel)
    decreases fuel
  {
    if c.wi < |sent| {
      AlignSentenceMoreFuel(text, tags, labels, sent, Step(text, tags, labels, sent, c), fuel - 1, fuel' - 1);
    }
  }

  /** Likewise for the token lists of several sentences. */
  lemma {:induction false} GenTokensFromMoreFuel(text: string, tags: seq<Tag>, labels: seq<string>, sents: seq<seq<string>>,
                                                 start: int, fuel: nat, fuel': nat)
    requires fuel <= fuel'
    requires GenTokensFrom(text, tags, labels, sents, start, fuel).Ok?
    ensures GenTokensFrom(text, tags, labels, sents, start, fuel') == GenTokensFrom(text, tags, labels, sents, start, fuel)
    decreases |sents|
  {
    if sents != [] {
      var c0 := Cursor([], 0, start);
      var c := AlignSentence(text, tags, labels, sents[0], c0, fuel).value;
      AlignSentenceMoreFuel(text, tags, labels, sents[0], c0, fuel, fuel');
      GenTokensFromMoreFuel(text, tags, labels, sents[1..], c.start, fuel, fuel');
    }
  }

  /** So `gen_tokens` with a larger bound gives the same tokens whenever a
      smaller bound already succeeds. */
  lemma GenTokensOfMoreFuel(text: string, tags: seq<Tag>, labels: seq<string>, sents: seq<seq<string>>,
                            fuel: nat, fuel': nat)
    requires fuel <= fuel'
    requires GenTokensOf(text, tags, labels, sents, fuel).Ok?
    ensures GenTokensOf(text, tags, labels, sents, fuel') == GenTokensOf(text, tags, labels, sents, fuel)
  {
    GenTokensFromMoreFuel(text, tags, labels, sents, |sents[0]|, fuel, fuel');
  }

  // ---------------------------------------------------------------------------
  // What the labels are

  predicate IsInside(l: string) {
    |l| >= 2 && l[..2] == "I-"
  }

  /** `l` may follow `prev` under IOB2: `prev` begins or continues the entity
      that `l` continues. */
  predicate Continues(prev: string, l: string) {
    |prev| >= 2 && |l| >= 2 && (prev[..2] == "B-" || prev[..2] == "I-") && prev[2..] == l[2..]
  }

  /** IOB2: an `I-x` label never comes first and always follows `B-x` or `I-x`. */
  ghost predicate ValidIob2(pairs: seq<(string, string)>) {
    forall k :: 0 <= k < |pairs| && IsInside(pairs[k].1) ==> k > 0 && Continues(pairs[k - 1].1, pairs[k].1)
  }

  /** A label the aligner can emit: `O`, or `B-`/`I-` with the name of a tag
      the labels list allows. */
  ghost predicate AllowedLabel(tags: seq<Tag>, labels: seq<string>, l: string) {
    l == "O" ||
    exists i :: 0 <= i < |tags| && (labels == [] || tags[i].tagName in labels) &&
      (l == "B-" + tags[i].tagName || l == "I-" + tags[i].tagName)
  }

  /** What holds of the pairs of a walk over `sent`: they follow IOB2, every
      label is allowed, and every `O` pair holds the sentence word at its own
      position. */
  ghost predicate Aligned(tags: seq<Tag>, labels: seq<string>, sent: seq<string>, pairs: seq<(string, string)>) {
    && ValidIob2(pairs)
    && (forall k :: 0 <= k < |pairs| ==> AllowedLabel(tags, labels, pairs[k].1))
    && (forall k :: 0 <= k < |pairs| && pairs[k].1 == "O" ==> k < |sent| && pairs[k].0 == sent[k])
  }

  lemma PrefixOfJoin(p: string, x: string)
    requires |p| == 2
    ensures (p + x)[..2] == p && (p + x)[2..] == x
  {
  }

  lemma MakeBioIob2(pairs: seq<(string, string)>, t: Tag)
    requires ValidIob2(pairs)
    ensures ValidIob2(pairs + MakeBio(t))
  {
    var b := MakeBio(t);
    var all := pairs + b;
    PrefixOfJoin("B-", t.tagName);
    PrefixOfJoin("I-", t.tagName);
    forall k | 0 <= k < |all| && IsInside(all[k].1)
      ensures k > 0 && Continues(all[k - 1].1, all[k].1)
    {
      if k < |pairs| {
        assert all[k] == pairs[k] && all[k - 1] == pairs[k - 1];
      } else if k > |pairs| {
        assert all[k].1 == "I-" + t.tagName;
        assert all[k - 1] == b[k - 1 - |pairs|];
      }
    }
  }

  lemma AppendBioAligned(tags: seq<Tag>, labels: seq<string>, sent: seq<string>, pairs: seq<(string, string)>, i: nat)
    requires i < |tags| && (labels == [] || tags[i].tagName in labels)
    requires Aligned(tags, labels, sent, pairs)
    ensures Aligned(tags, labels, sent, pairs + MakeBio(tags[i]))
  {
    var b := MakeBio(tags[i]);
    var all := pairs + b;
    MakeBioIob2(pairs, tags[i]);
    forall k | |pairs| <= k < |all|
      ensures AllowedLabel(tags, labels, all[k].1) && all[k].1 != "O"
    {
      assert all[k] == b[k - |pairs|];
      assert all[k].1 == "B-" + tags[i].tagName || all[k].1 == "I-" + tags[i].tagName;
    }
    assert forall k :: 0 <= k < |pairs| ==> all[k] == pairs[k];
  }

  lemma AppendOAligned(tags: seq<Tag>, labels: seq<string>, sent: seq<string>, pairs: seq<(string, string)>)
    requires |pairs| < |sent|
    requires Aligned(tags, labels, sent, pairs)
    ensures Aligned(tags, labels, sent, pairs + [(sent[|pairs|], "O")])
  {
    var all := pairs + [(sent[|pairs|], "O")];
    assert forall k :: 0 <= k < |pairs| ==> all[k] == pairs[k];
    assert !IsInside("O");
  }

  /** One step keeps the walk aligned, adds as many pairs as it advances the
      word index, and keeps the pairs so far. */
  lemma StepKeepsAligned(text: string, tags: seq<Tag>, labels: seq<string>, sent: seq<string>, c: Cursor)
    requires c.wi < |sent| && |c.pairs| == c.wi
    requires Aligned(tags, labels, sent, c.pairs)
    ensures var c' := Step(text, tags, labels, sent, c);
      && |c'.pairs| == c'.wi >= c.wi
      && c'.pairs[..|c.pairs|] == c.pairs
      && Aligned(tags, labels, sent, c'.pairs)
  {
    var at := FindFrom(text, sent[c.wi], AdjustStart(c.start, |text|));
    var c' := Step(text, tags, labels, sent, c);
    assert c'.pairs[..|c.pairs|] == c.pairs;
    match TagAt(tags, at, labels)
    case Some(t) =>
      var i :| 0 <= i < |tags| && tags[i] == t;
      AppendBioAligned(tags, labels, sent, c.pairs, i);
    case None =>
      AppendOAligned(tags, labels, sent, c.pairs);
  }

  /** One turn of the loop: the word is searched for with `str.find` from
      the offset (the first occurrence at or after it, or -1); a tag found
      there and allowed adds its BIO pairs, moves the offset to the tag's end
      and skips its words; otherwise the word is labelled `O`, the offset
      moves past the word (from -1 too) and the index by one. */
  lemma StepMeaning(text: string, tags: seq<Tag>, labels: seq<string>, sent: seq<string>, c: Cursor)
    requires c.wi < |sent|
    ensures var w := sent[c.wi];
      var at := Find(text, w, c.start);
      var c' := Step(text, tags, labels, sent, c);
      && (at == -1 || OccursAt(text, w, at))
      && (forall j :: AdjustStart(c.start, |text|) <= j && (at == -1 || j < at) ==> !OccursAt(text, w, j))
      && match TagAt(tags, at, labels)
         case Some(t) => c'.pairs == c.pairs + MakeBio(t) && c'.wi == c.wi + |t.words| && c'.start == t.end
         case None => c'.pairs == c.pairs + [(w, "O")] && c'.wi == c.wi + 1 && c'.start == at + |w|
  {
    FindMeaning(text, sent[c.wi], c.start);
  }

  /** The walk over a sentence ends with every word covered, one pair per
      word index passed, the pairs it started with kept, and the walk aligned. */
  lemma {:induction false} AlignSentenceAligned(text: string, tags: seq<Tag>, labels: seq<string>, sent: seq<string>, c: Cursor, fuel: nat, c': Cursor)
    requires |c.pairs| == c.wi && Aligned(tags, labels, sent, c.pairs)
    requires AlignSentence(text, tags, labels, sent, c, fuel) == Some(c')
    ensures c'.wi >= |sent| && c'.wi >= c.wi && |c'.pairs| == c'.wi
    ensures c'.pairs[..|c.pairs|] == c.pairs
    ensures Aligned(tags, labels, sent, c'.pairs)
    decreases fuel
  {
    if c.wi < |sent| {
      var n := Step(text, tags, labels, sent, c);
      StepKeepsAligned(text, tags, labels, sent, c);
      AlignSentenceAligned(text, tags, labels, sent, n, fuel - 1, c');
      assert c'.pairs[..|c.pairs|] == c'.pairs[..|n.pairs|][..|c.pairs|];
    }
  }

  /** When every tag has words, each step advances the word index, so a walk
      with as much fuel as words left reaches the end of the sentence. */
  lemma {:induction false} AlignSentenceProgress(text: string, tags: seq<Tag>, labels: seq<string>, sent: seq<string>, c: Cursor, fuel: nat)
    requires forall i :: 0 <= i < |tags| ==> tags[i].words != []
    requires fuel + c.wi >= |sent|
    ensures AlignSentence(text, tags, labels, sent, c, fuel).Some?
    decreases fuel
  {
    if c.wi < |sent| {
      StepAdvances(text, tags, labels, sent, c);
      AlignSentenceProgress(text, tags, labels, sent, Step(text, tags, labels, sent, c), fuel - 1);
    }
  }

  /** When every tag has words, a step moves past at least one word. */
  lemma StepAdvances(text: string, tags: seq<Tag>, labels: seq<string>, sent: seq<string>, c: Cursor)
    requires forall i :: 0 <= i < |tags| ==> tags[i].words != []
    requires c.wi < |sent|
    ensures Step(text, tags, labels, sent, c).wi > c.wi
  {
    var at := FindFrom(text, sent[c.wi], AdjustStart(c.start, |text|));
    if TagAt(tags, at, labels).Some? {
      var i :| 0 <= i < |tags| && tags[i] == TagAt(tags, at, labels).value;
    }
  }

  /** `gen_tokens` yields one token list per body sentence; each has at least
      as many tokens as its sentence has words, follows IOB2, carries only
      `O` or labels of allowed tag names, and its `O` tokens hold the
      sentence's words at their own positions. */
  lemma {:induction false} GenTokensFromMeaning(text: string, tags: seq<Tag>, labels: seq<string>, sents: seq<seq<string>>, start: int, fuel: nat, out: seq<seq<Token>>)
    requires GenTokensFrom(text, tags, labels, sents, start, fuel) == Ok(out)
    ensures |out| == |sents|
    ensures forall s :: 0 <= s < |sents| ==>
      |out[s]| >= |sents[s]| &&
      exists pairs :: Tokens(pairs) == out[s] && Aligned(tags, labels, sents[s], pairs)
    decreases |sents|
  {
    if sents != [] {
      var c := AlignSentence(text, tags, labels, sents[0], Cursor([], 0, start), fuel).value;
      AlignSentenceAligned(text, tags, labels, sents[0], Cursor([], 0, start), fuel, c);
      var rest := GenTokensFrom(text, tags, labels, sents[1..], c.start, fuel).value;
      GenTokensFromMeaning(text, tags, labels, sents[1..], c.start, fuel, rest);
      assert out == [Tokens(c.pairs)] + rest;
      forall s | 0 <= s < |sents|
        ensures |out[s]| >= |sents[s]| && exists pairs :: Tokens(pairs) == out[s] && Aligned(tags, labels, sents[s], pairs)
      {
        if s == 0 {
          assert Tokens(c.pairs) == out[0];
        } else {
          assert sents[s] == sents[1..][s - 1] && out[s] == rest[s - 1];
        }
      }
    }
  }

  /** When every tag has words and the step bound is at least the length of
      every sentence, `gen_tokens` fails only on an empty body. */
  lemma {:induction false} GenTokensFromSucceeds(text: string, tags: seq<Tag>, labels: seq<string>, sents: seq<seq<string>>, start: int, fuel: nat)
    requires forall i :: 0 <= i < |tags| ==> tags[i].words != []
    requires forall s :: 0 <= s < |sents| ==> |sents[s]| <= fuel
    ensures GenTokensFrom(text, tags, labels, sents, start, fuel).Ok?
    decreases |sents|
  {
    if sents != [] {
      AlignSentenceProgress(text, tags, labels, sents[0], Cursor([], 0, start), fuel);
      var c := AlignSentence(text, tags, labels, sents[0], Cursor([], 0, start), fuel).value;
      assert forall s :: 0 <= s < |sents[1..]| ==> sents[1..][s] == sents[s + 1];
      GenTokensFromSucceeds(text, tags, labels, sents[1..], c.start, fuel);
    }
  }

  lemma GenTokensOfMeaning(text: string, tags: seq<Tag>, labels: seq<string>, sents: seq<seq<string>>, fuel: nat)
    requires forall i :: 0 <= i < |tags| ==> tags[i].words != []
    requires forall s :: 0 <= s < |sents| ==> |sents[s]| <= fuel
    ensures GenTokensOf(text, tags, labels, sents, fuel).Ok? <==> sents != []
    ensures GenTokensOf(text, tags, labels, sents, fuel).Ok? ==>
      var out := GenTokensOf(text, tags, labels, sents, fuel).value;
      |out| == |sents| &&
      forall s :: 0 <= s < |sents| ==>
        |out[s]| >= |sents[s]| &&
        exists pairs :: Tokens(pairs) == out[s] && Aligned(tags, labels, sents[s], pairs)
  {
    if sents != [] {
      GenTokensFromSucceeds(text, tags, labels, sents, |sents[0]|, fuel);
      GenTokensFromMeaning(text, tags, labels, sents, |sents[0]|, fuel, GenTokensOf(text, tags, labels, sents, fuel).value);
    }
  }
}
