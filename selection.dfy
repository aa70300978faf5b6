/** The small checks and summaries over a parsed file: the emptiness pretest,
    the choice of sentences that carry a positive label, and per-entity sums. */
module Selection {
  import opened Outcomes
  import opened PyStr
  import opened Brat

  /** `__pretest`: a file with fewer than two text lines fails with
      AttributeError, because the check logs `self.sents` before that
      attribute is set; an annotation file without lines is rejected
      (false); anything else passes. */
  function Pretest(lines: seq<string>, ann: seq<string>): (r: Result<bool>)
    ensures r.Err? <==> |lines| < 2
    ensures r.Err? ==> r.error == AttributeError
    ensures r == Ok(true) <==> |lines| >= 2 && ann != []
  {
    if |lines| < 2 then Err(AttributeError)
    else if |ann| < 1 then Ok(false)
    else Ok(true)
  }

  /** Some token's label contains `positive` as a substring. */
  function AnyPositive(tokens: seq<Token>, positive: string): bool {
    if tokens == [] then false
    else Contains(tokens[0].bioLabel, positive) || AnyPositive(tokens[1..], positive)
  }

  /** A sentence is kept exactly when the label of one of its tokens has
      `positive` in it. */
  lemma {:induction false} AnyPositiveMeaning(tokens: seq<Token>, positive: string)
    ensures AnyPositive(tokens, positive) <==>
      exists k :: 0 <= k < |tokens| && exists i :: OccursAt(tokens[k].bioLabel, positive, i)
  {
    if tokens != [] {
      ContainsMeaning(tokens[0].bioLabel, positive);
      AnyPositiveMeaning(tokens[1..], positive);
      var rest := tokens[1..];
      if exists k :: 0 <= k < |rest| && exists i :: OccursAt(rest[k].bioLabel, positive, i) {
        var k :| 0 <= k < |rest| && exists i :: OccursAt(rest[k].bioLabel, positive, i);
        assert tokens[k + 1] == rest[k];
      }
      if exists k :: 1 <= k < |tokens| && exists i :: OccursAt(tokens[k].bioLabel, positive, i) {
        var k :| 1 <= k < |tokens| && exists i :: OccursAt(tokens[k].bioLabel, positive, i);
        assert rest[k - 1] == tokens[k];
      }
    }
  }

  /** The indices below `n` of the sentences that have a positive label, in
      increasing order. */
  function KeptIndices(rows: seq<seq<Token>>, n: nat, positive: string): (idx: seq<nat>)
    requires n <= |rows|
    ensures forall k :: 0 <= k < |idx| ==> idx[k] < n
  {
    if n == 0 then []
    else
      var front := KeptIndices(rows, n - 1, positive);
      if AnyPositive(rows[n - 1], positive) then front + [n - 1] else front
  }

  /** The kept indices are exactly the positive sentences below `n`, each
      once, in increasing order. */
  lemma {:induction false} KeptIndicesMeaning(rows: seq<seq<Token>>, n: nat, positive: string)
    requires n <= |rows|
    ensures var idx := KeptIndices(rows, n, positive);
      && (forall k :: 0 <= k < |idx| ==> AnyPositive(rows[idx[k]], positive))
      && (forall k, l :: 0 <= k < l < |idx| ==> idx[k] < idx[l])
      && (forall i :: 0 <= i < n && AnyPositive(rows[i], positive) ==> i in idx)
    decreases n
  {
    if n > 0 {
      KeptIndicesMeaning(rows, n - 1, positive);
      var front := KeptIndices(rows, n - 1, positive);
      assert forall k :: 0 <= k < |front| ==> front[k] < n - 1 && AnyPositive(rows[front[k]], positive);
      if AnyPositive(rows[n - 1], positive) {
        KeptSnoc(rows, front, n - 1, positive);
      }
    }
  }

  /** Appending an index above all earlier ones keeps them increasing and
      positive. */
  lemma KeptSnoc(rows: seq<seq<Token>>, front: seq<nat>, i: nat, positive: string)
    requires i < |rows| && AnyPositive(rows[i], positive)
    requires forall k :: 0 <= k < |front| ==> front[k] < i && AnyPositive(rows[front[k]], positive)
    requires forall k, l :: 0 <= k < l < |front| ==> front[k] < front[l]
    requires forall j :: 0 <= j < i && AnyPositive(rows[j], positive) ==> j in front
    ensures forall k :: 0 <= k < |front + [i]| ==> (front + [i])[k] <= i && AnyPositive(rows[(front + [i])[k]], positive)
    ensures forall k, l :: 0 <= k < l < |front + [i]| ==> (front + [i])[k] < (front + [i])[l]
    ensures forall j :: 0 <= j <= i && AnyPositive(rows[j], positive) ==> j in front + [i]
  {
    var idx := front + [i];
    assert forall k :: 0 <= k < |front| ==> idx[k] == front[k];
  }

  /** The elements of `xs` at the indices `idx`, in that order. */
  function Pick<T>(xs: seq<T>, idx: seq<nat>): (r: seq<T>)
    requires forall k :: 0 <= k < |idx| ==> idx[k] < |xs|
    ensures |r| == |idx| && forall k :: 0 <= k < |idx| ==> r[k] == xs[idx[k]]
  {
    seq(|idx|, k requires 0 <= k < |idx| => xs[idx[k]])
  }

  lemma PickAppend<T>(xs: seq<T>, idx: seq<nat>, i: nat)
    requires forall k :: 0 <= k < |idx| ==> idx[k] < |xs|
    requires i < |xs|
    ensures Pick(xs, idx + [i]) == Pick(xs, idx) + [xs[i]]
  {
  }

  function Min3(a: nat, b: nat, c: nat): (m: nat)
    ensures m <= a && m <= b && m <= c && (m == a || m == b || m == c)
  {
    if a <= b && a <= c then a else if b <= c then b else c
  }

  /** `__ent_counter` over `tags`: for each requested entity type that occurs,
      the sum of `fn` over its tags. */
  function Tally(tags: seq<Tag>, types: seq<string>, fn: Tag -> int): map<string, int> {
    if tags == [] then map[]
    else AddTag(Tally(tags[..|tags| - 1], types, fn), types, fn, tags[|tags| - 1])
  }

  /** The tally has an entry exactly for the requested types that occur. */
  lemma {:induction false} TallyKeys(tags: seq<Tag>, types: seq<string>, fn: Tag -> int, name: string)
    ensures name in Tally(tags, types, fn) <==>
      name in types && exists i :: 0 <= i < |tags| && tags[i].tagName == name
  {
    if tags != [] {
      var front := tags[..|tags| - 1];
      TallyKeys(front, types, fn, name);
      if name in types && (exists i :: 0 <= i < |tags| && tags[i].tagName == name) && tags[|tags| - 1].tagName != name {
        var i :| 0 <= i < |tags| && tags[i].tagName == name;
        assert front[i] == tags[i];
      }
    }
  }

  /** One turn of the counting loop: the tag's `fn` added to its type's entry. */
  function AddTag(m: map<string, int>, types: seq<string>, fn: Tag -> int, t: Tag): (m': map<string, int>)
    ensures forall name :: name in m' <==> name in m || (name == t.tagName && name in types)
  {
    if t.tagName in types then
      if t.tagName in m then m[t.tagName := m[t.tagName] + fn(t)] else m[t.tagName := fn(t)]
    else m
  }

  lemma TallySnoc(tags: seq<Tag>, types: seq<string>, fn: Tag -> int, i: nat)
    requires i < |tags|
    ensures Tally(tags[..i + 1], types, fn) == AddTag(Tally(tags[..i], types, fn), types, fn, tags[i])
  {
    assert tags[..i + 1][..i] == tags[..i];
  }

  /** The sum of `fn` over the tags named `name`. */
  function SumFor(tags: seq<Tag>, name: string, fn: Tag -> int): int {
    if tags == [] then 0
    else SumFor(tags[..|tags| - 1], name, fn) + (if tags[|tags| - 1].tagName == name then fn(tags[|tags| - 1]) else 0)
  }

  /** How many tags are named `name`. */
  function CountOf(tags: seq<Tag>, name: string): (n: nat)
    ensures n <= |tags|
  {
    if tags == [] then 0
    else CountOf(tags[..|tags| - 1], name) + (if tags[|tags| - 1].tagName == name then 1 else 0)
  }

  /** Each entry of the tally is the sum of `fn` over the tags of that type. */
  lemma {:induction false} TallyIsSum(tags: seq<Tag>, types: seq<string>, fn: Tag -> int, name: string)
    requires name in Tally(tags, types, fn)
    ensures Tally(tags, types, fn)[name] == SumFor(tags, name, fn)
  {
    var front := tags[..|tags| - 1];
    var t := tags[|tags| - 1];
    TallyKeys(front, types, fn, name);
    if name in Tally(front, types, fn) {
      TallyIsSum(front, types, fn, name);
    } else {
      NoneSumZero(front, name, fn);
    }
  }

  lemma {:induction false} NoneSumZero(tags: seq<Tag>, name: string, fn: Tag -> int)
    requires forall i :: 0 <= i < |tags| ==> tags[i].tagName != name
    ensures SumFor(tags, name, fn) == 0
  {
    if tags != [] {
      NoneSumZero(tags[..|tags| - 1], name, fn);
    }
  }

  lemma {:induction false} SumOfOnes(tags: seq<Tag>, name: string)
    ensures SumFor(tags, name, _ => 1) == CountOf(tags, name)
  {
    if tags != [] {
      SumOfOnes(tags[..|tags| - 1], name);
    }
  }

  /** `ent_cnt`: the tally with `fn = 1` maps each requested type that occurs
      to the number of its tags, and has no other keys. */
  lemma EntCntMeaning(tags: seq<Tag>, types: seq<string>, name: string)
    ensures name in Tally(tags, types, _ => 1) <==>
      name in types && exists i :: 0 <= i < |tags| && tags[i].tagName == name
    ensures name in Tally(tags, types, _ => 1) ==> Tally(tags, types, _ => 1)[name] == CountOf(tags, name) > 0
  {
    TallyKeys(tags, types, _ => 1, name);
    if name in Tally(tags, types, _ => 1) {
      TallyIsSum(tags, types, _ => 1, name);
      SumOfOnes(tags, name);
      CountPositive(tags, name);
    }
  }

  lemma {:induction false} CountPositive(tags: seq<Tag>, name: string)
    requires exists i :: 0 <= i < |tags| && tags[i].tagName == name
    ensures CountOf(tags, name) > 0
  {
    var front := tags[..|tags| - 1];
    if tags[|tags| - 1].tagName != name {
      var i :| 0 <= i < |tags| && tags[i].tagName == name;
      assert front[i] == tags[i];
      CountPositive(front, name);
    }
  }

  /** The number of tokens over all sentences (`word_cnt`). */
  function TokenCount(rows: seq<seq<Token>>): nat {
    if rows == [] then 0 else |rows[0]| + TokenCount(rows[1..])
  }
}
