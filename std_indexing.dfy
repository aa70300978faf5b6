/** Standardisation of event references. An event line `E3<TAB>Action:T7 Using:E2`
    may name another event as an argument; every such `E` id is replaced by
    the trigger `T` id of the event it names, so that later every argument can
    be resolved among the tags. The annotation lines are rewritten one by one,
    in place: a lookup made while rewriting line `i` sees lines before `i`
    already rewritten. */
module StdIndexing {
  import opened Outcomes
  import opened PyStr
  import opened Brat

  /** `search_tag`: an id starting with `E` becomes the id after `:` in the
      second field of the first annotation line that starts with it (a prefix
      test, so `E1` also matches a line `E10 ...`); any other id is kept.
      None when no line starts with the id. */
  function SearchTag(ann: seq<string>, eId: string): Result<Option<string>> {
    if eId == [] then Err(IndexError)
    else if eId[0] == 'E' then
      match FirstWhere(ann, (l: string) => Find(l, eId, 0) == 0)
      case None => Ok(None)
      case Some(j) =>
        var spl := Words(ann[j]);
        if |spl| < 2 then Err(IndexError)
        else
          var pieces := SplitOn(spl[1], ':');
          if |pieces| < 2 then Err(IndexError) else Ok(Some(pieces[1]))
    else Ok(Some(eId))
  }

  /** Each argument `Role:Id` split at `:` (exactly two pieces, or ValueError)
      with its id looked up. */
  function ResolveArgs(ann: seq<string>, args: seq<string>): Result<seq<(string, Option<string>)>> {
    if args == [] then Ok([])
    else
      var parts := SplitOn(args[0], ':');
      if |parts| != 2 then Err(ValueError)
      else match SearchTag(ann, parts[1])
        case Err(e) => Err(e)
        case Ok(t) => Prepend([(parts[0], t)], ResolveArgs(ann, args[1..]))
  }

  /** Each resolved argument written back as `Role:Id`; an id that resolved
      to None makes the join raise TypeError. */
  function ArgStrings(pairs: seq<(string, Option<string>)>): (r: Result<seq<string>>)
    ensures r.Ok? <==> forall k :: 0 <= k < |pairs| ==> pairs[k].1.Some?
    ensures r.Ok? ==> |r.value| == |pairs|
    ensures r.Ok? ==> forall k :: 0 <= k < |pairs| ==> r.value[k] == pairs[k].0 + ":" + pairs[k].1.value
  {
    if pairs == [] then Ok([])
    else if pairs[0].1.None? then Err(TypeError)
    else Prepend([pairs[0].0 + ":" + pairs[0].1.value], ArgStrings(pairs[1..]))
  }

  /** The rewritten line: the kept front, a space, the rewritten arguments. */
  function Rewrite(ann: seq<string>, front: string, args: seq<string>): Result<string> {
    match ResolveArgs(ann, args)
    case Err(e) => Err(e)
    case Ok(pairs) =>
      match ArgStrings(pairs)
      case Err(e) => Err(e)
      case Ok(strs) => Ok(JoinWith([front, JoinWith(strs, " ")], " "))
  }

  /** `replace_Es`: an `E` line keeps its id and rewrites every argument; an
      `R` line keeps its id and relation name and rewrites the rest; any other
      line is returned unchanged. A rewritten line keeps its kind. */
  function ReplaceEs(ann: seq<string>, line: string): (r: Result<string>)
    requires line != []
    ensures line[0] != 'E' && line[0] != 'R' ==> r == Ok(line)
    ensures r.Ok? ==> r.value != [] && r.value[0] == line[0]
  {
    if line[0] == 'E' then
      WordsHead(line);
      var sp := Words(line);
      Rewrite(ann, sp[0], sp[1..])
    else if line[0] == 'R' then
      WordsHead(line);
      var sp := Words(line);
      if |sp| < 2 then Err(IndexError)
      else Rewrite(ann, JoinWith([sp[0], sp[1]], " "), sp[2..])
    else Ok(line)
  }

  /** `__std_index` from line `i` on, with lines before `i` already rewritten. */
  function StdIndexFrom(cur: seq<string>, i: nat): Result<seq<string>>
    requires AllNonEmpty(cur)
    decreases |cur| - i
  {
    if i >= |cur| then Ok(cur)
    else match ReplaceEs(cur, cur[i])
      case Err(e) => Err(e)
      case Ok(l) => StdIndexFrom(cur[i := l], i + 1)
  }

  // ---------------------------------------------------------------------------
  // What the rewriting means

  /** `t` is what `id` stands for in `ann`: `id` itself unless it starts with
      `E`; otherwise the id after `:` in the second field of the first line
      having `id` as a prefix. */
  ghost predicate Resolves(ann: seq<string>, id: string, t: string) {
    id != [] &&
    if id[0] != 'E' then t == id
    else exists j :: (0 <= j < |ann| && id <= ann[j] && (forall i :: 0 <= i < j ==> !(id <= ann[i])) &&
      var spl := Words(ann[j]);
      |spl| >= 2 && |SplitOn(spl[1], ':')| >= 2 && t == SplitOn(spl[1], ':')[1])
  }

  /** An argument `Role:Id` rewritten to `Role:Id'` where `Id'` is what `Id` stands for. */
  ghost predicate ArgRewritten(ann: seq<string>, arg: string, arg': string) {
    var p := SplitOn(arg, ':');
    var p' := SplitOn(arg', ':');
    |p| == 2 && |p'| == 2 && p'[0] == p[0] && Resolves(ann, p[1], p'[1])
  }

  /** `search_tag` finds exactly what an id stands for; what it finds is one
      piece of a word, so it holds neither whitespace nor `:`. */
  lemma SearchTagMeaning(ann: seq<string>, id: string, t: string)
    requires NoSpace(id) && ':' !in id
    ensures SearchTag(ann, id) == Ok(Some(t)) <==> Resolves(ann, id, t)
    ensures SearchTag(ann, id) == Ok(Some(t)) ==> NoSpace(t) && ':' !in t
  {
    if id != [] && id[0] == 'E' {
      var p := (l: string) => Find(l, id, 0) == 0;
      forall i | 0 <= i < |ann| ensures p(ann[i]) <==> id <= ann[i] {
        FindZeroIsPrefix(ann[i], id);
      }
      match FirstWhere(ann, p)
      case None =>
      case Some(j) =>
        var spl := Words(ann[j]);
        if |spl| >= 2 {
          PiecesNoSpace(spl[1], ':');
        }
        if Resolves(ann, id, t) {
          var j' :| 0 <= j' < |ann| && id <= ann[j'] && (forall i :: 0 <= i < j' ==> !(id <= ann[i])) &&
            var spl := Words(ann[j']);
            |spl| >= 2 && |SplitOn(spl[1], ':')| >= 2 && t == SplitOn(spl[1], ':')[1];
          assert !(j < j') && !(j' < j);
        }
    }
  }

  lemma {:induction false} ResolveArgsMeaning(ann: seq<string>, args: seq<string>, pairs: seq<(string, Option<string>)>)
    requires ResolveArgs(ann, args) == Ok(pairs)
    ensures |pairs| == |args|
    ensures forall k :: 0 <= k < |args| ==>
      var p := SplitOn(args[k], ':');
      |p| == 2 && pairs[k].0 == p[0] && SearchTag(ann, p[1]) == Ok(pairs[k].1)
  {
    if args != [] {
      var parts := SplitOn(args[0], ':');
      var t := SearchTag(ann, parts[1]).value;
      var rest := ResolveArgs(ann, args[1..]).value;
      ResolveArgsMeaning(ann, args[1..], rest);
      assert pairs == [(parts[0], t)] + rest;
      forall k | 1 <= k < |args|
        ensures var p := SplitOn(args[k], ':');
          |p| == 2 && pairs[k].0 == p[0] && SearchTag(ann, p[1]) == Ok(pairs[k].1)
      {
        assert args[k] == args[1..][k - 1];
      }
    }
  }

  /** One argument written back: a word that splits at `:` into its role and
      what its id stands for. */
  lemma ArgWord(ann: seq<string>, arg: string, role: string, t: string)
    requires IsWord(arg)
    requires var p := SplitOn(arg, ':'); |p| == 2 && role == p[0] && SearchTag(ann, p[1]) == Ok(Some(t))
    ensures IsWord(role + ":" + t) && ArgRewritten(ann, arg, role + ":" + t)
  {
    var p := SplitOn(arg, ':');
    PiecesNoSpace(arg, ':');
    SearchTagMeaning(ann, p[1], t);
    SplitPair(role, ':', t);
    assert role + ":" + t == role + [':'] + t;
    assert (role + ":" + t)[|role|] == ':';
    assert !IsSpace(':');
  }

  lemma ArgStringsMeaning(ann: seq<string>, args: seq<string>, pairs: seq<(string, Option<string>)>, strs: seq<string>)
    requires forall k :: 0 <= k < |args| ==> IsWord(args[k])
    requires ResolveArgs(ann, args) == Ok(pairs) && ArgStrings(pairs) == Ok(strs)
    ensures |strs| == |args|
    ensures forall k :: 0 <= k < |args| ==> IsWord(strs[k]) && ArgRewritten(ann, args[k], strs[k])
  {
    ResolveArgsMeaning(ann, args, pairs);
    forall k | 0 <= k < |args| ensures IsWord(strs[k]) && ArgRewritten(ann, args[k], strs[k]) {
      ArgWord(ann, args[k], pairs[k].0, pairs[k].1.value);
    }
  }

  /** The words of the front joined to the words of the arguments. */
  lemma WordsOfRewritten(fronts: seq<string>, strs: seq<string>)
    requires fronts != [] && forall k :: 0 <= k < |fronts| ==> IsWord(fronts[k])
    requires forall k :: 0 <= k < |strs| ==> IsWord(strs[k])
    ensures Words(JoinWith([JoinWith(fronts, " "), JoinWith(strs, " ")], " ")) == fronts + strs
  {
    var front := JoinWith(fronts, " ");
    var all := fronts + strs;
    if strs == [] {
      assert JoinWith([front, JoinWith(strs, " ")], " ") == front + " ";
      WordsIgnoreTrailingSpace(front, " ");
      WordsOfJoin(fronts);
      assert all == fronts;
    } else {
      JoinAppend(fronts, strs, " ");
      WordsOfJoin(all);
    }
  }

  /** The words of a rewritten line: the kept front words, then one
      `Role:Id'` word per argument, each the argument with its id resolved. */
  lemma RewriteMeaning(ann: seq<string>, fronts: seq<string>, args: seq<string>, out: string)
    requires fronts != [] && forall k :: 0 <= k < |fronts| ==> IsWord(fronts[k])
    requires forall k :: 0 <= k < |args| ==> IsWord(args[k])
    requires Rewrite(ann, JoinWith(fronts, " "), args) == Ok(out)
    ensures var ws := Words(out);
      |ws| == |fronts| + |args| && ws[..|fronts|] == fronts &&
      forall k :: 0 <= k < |args| ==> ArgRewritten(ann, args[k], ws[|fronts| + k])
  {
    var pairs := ResolveArgs(ann, args).value;
    var strs := ArgStrings(pairs).value;
    ArgStringsMeaning(ann, args, pairs, strs);
    WordsOfRewritten(fronts, strs);
    var ws := fronts + strs;
    assert ws[..|fronts|] == fronts;
    forall k | 0 <= k < |args| ensures ws[|fronts| + k] == strs[k] {}
  }

  /** `replace_Es` on an `E` or `R` line keeps the number of words and the
      leading id (and, for `R`, the relation name), and rewrites every argument
      `Role:Id` to `Role:Id'` where `Id'` is what `Id` stands for in `ann`. */
  lemma ReplaceEsMeaning(ann: seq<string>, line: string, out: string)
    requires line != [] && (line[0] == 'E' || line[0] == 'R')
    requires ReplaceEs(ann, line) == Ok(out)
    ensures var ws := Words(line);
      var h := if line[0] == 'E' then 1 else 2;
      |ws| >= h && |Words(out)| == |ws| && Words(out)[..h] == ws[..h] &&
      forall k :: h <= k < |ws| ==> ArgRewritten(ann, ws[k], Words(out)[k])
  {
    WordsHead(line);
    var ws := Words(line);
    var h := if line[0] == 'E' then 1 else 2;
    var fronts := ws[..h];
    var args := ws[h..];
    if line[0] == 'E' {
      assert JoinWith(fronts, " ") == ws[0];
    } else {
      assert fronts == [ws[0], ws[1]];
    }
    RewriteMeaning(ann, fronts, args, out);
    ArgsShift(ann, ws, h, Words(out));
  }

  lemma ArgsShift(ann: seq<string>, ws: seq<string>, h: nat, ws': seq<string>)
    requires h <= |ws| == |ws'|
    requires forall j :: 0 <= j < |ws[h..]| ==> ArgRewritten(ann, ws[h..][j], ws'[h + j])
    ensures forall k :: h <= k < |ws| ==> ArgRewritten(ann, ws[k], ws'[k])
  {
    forall k | h <= k < |ws| ensures ArgRewritten(ann, ws[k], ws'[k]) {
      var j := k - h;
      assert ArgRewritten(ann, ws[h..][j], ws'[h + j]);
      assert ws[h..][j] == ws[k];
    }
  }

  lemma {:induction false} StdIndexFromMeaning(cur: seq<string>, i: nat, out: seq<string>)
    requires AllNonEmpty(cur) && i <= |cur|
    requires StdIndexFrom(cur, i) == Ok(out)
    ensures |out| == |cur| && out[..i] == cur[..i]
    ensures forall k :: i <= k < |cur| ==> ReplaceEs(out[..k] + cur[k..], cur[k]) == Ok(out[k])
    decreases |cur| - i
  {
    if i < |cur| {
      var l := ReplaceEs(cur, cur[i]).value;
      var next := cur[i := l];
      StdIndexFromMeaning(next, i + 1, out);
      assert out[..i] == next[..i + 1][..i] == cur[..i];
      assert out[i] == next[..i + 1][i] == l;
      assert out[..i] + cur[i..] == cur;
      forall k | i < k < |cur| ensures ReplaceEs(out[..k] + cur[k..], cur[k]) == Ok(out[k]) {
        assert next[k..] == cur[k..];
      }
    }
  }

  /** `__std_index` keeps the number and order of the annotation lines and
      the kind of each; lines other than `E`/`R` lines are unchanged; and line
      `k` becomes `replace_Es` of it as seen with lines before `k` already
      rewritten and the rest as read. */
  lemma StdIndexMeaning(ann: seq<string>, out: seq<string>)
    requires AllNonEmpty(ann)
    requires StdIndexFrom(ann, 0) == Ok(out)
    ensures |out| == |ann| && AllNonEmpty(out)
    ensures forall k :: 0 <= k < |ann| ==> out[k][0] == ann[k][0]
    ensures forall k :: 0 <= k < |ann| && ann[k][0] != 'E' && ann[k][0] != 'R' ==> out[k] == ann[k]
    ensures forall k :: 0 <= k < |ann| ==> ReplaceEs(out[..k] + ann[k..], ann[k]) == Ok(out[k])
  {
    StdIndexFromMeaning(ann, 0, out);
  }
}
