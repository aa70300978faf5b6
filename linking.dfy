/** Links from the event (`E`) and relation (`R`) lines of an annotation file.
    An event line `E3 Action:T7 Using:T2 Site:T9` gives one link per role
    argument after its trigger, all from the trigger tag; a relation line
    `R1 Overlap Arg1:T4 Arg2:T5` gives one link. Ids resolve among the tags,
    or, for any id not starting with `T`, to the first argument of the first
    link already made with that id. */
module Linking {
  import opened Outcomes
  import opened PyStr
  import opened Brat

  /** `get_tag_by_id`: the first tag with id `tid` when it starts with `T`,
      otherwise the first argument of the first link with id `tid`;
      IndexError when there is none (or `tid` is empty). */
  function GetTagById(tags: seq<Tag>, links: seq<Link>, tid: string): Result<Tag> {
    if tid == [] then Err(IndexError)
    else if tid[0] == 'T' then
      match FirstWhere(tags, (t: Tag) => t.tagId == tid)
      case None => Err(IndexError)
      case Some(i) => Ok(tags[i])
    else
      match FirstWhere(links, (l: Link) => l.lId == tid)
      case None => Err(IndexError)
      case Some(i) => Ok(links[i].arg1)
  }

  /** The lookup fails only with IndexError, and exactly when no tag (for a
      `T` id) or no link (for any other id) has that id; what it finds is the
      first such tag, or the first argument of the first such link. */
  lemma GetTagByIdMeaning(tags: seq<Tag>, links: seq<Link>, tid: string)
    ensures var r := GetTagById(tags, links, tid);
      && (r.Err? ==> r.error == IndexError)
      && (r.Ok? <==> (tid != [] &&
            if tid[0] == 'T' then exists i :: 0 <= i < |tags| && tags[i].tagId == tid
            else exists i :: 0 <= i < |links| && links[i].lId == tid))
      && (r.Ok? && tid[0] == 'T' ==>
            exists i :: 0 <= i < |tags| && tags[i] == r.value && tags[i].tagId == tid &&
              forall j :: 0 <= j < i ==> tags[j].tagId != tid)
      && (r.Ok? && tid[0] != 'T' ==>
            exists i :: 0 <= i < |links| && links[i].arg1 == r.value && links[i].lId == tid &&
              forall j :: 0 <= j < i ==> links[j].lId != tid)
  {
  }

  /** The links of the role arguments `Role:Id` of event `eId`, all from `arg1`. */
  function RoleLinks(tags: seq<Tag>, links: seq<Link>, eId: string, arg1: Tag, rels: seq<string>): Result<seq<Link>> {
    if rels == [] then Ok([])
    else
      var p := SplitOn(rels[0], ':');
      if |p| != 2 then Err(ValueError)
      else match GetTagById(tags, links, p[1])
        case Err(e) => Err(e)
        case Ok(arg2) => Prepend([Link(eId, p[0], arg1, arg2)], RoleLinks(tags, links, eId, arg1, rels[1..]))
  }

  /** `__parse_e`: the event id, its trigger `Type:Id` resolved to a tag, and
      one link per further argument. `links` are those made before this line. */
  function ParseE(tags: seq<Tag>, links: seq<Link>, e: string): Result<seq<Link>> {
    var temp := Words(RStrip(e));
    if |temp| < 2 then Err(IndexError)
    else
      var p := SplitOn(temp[1], ':');
      if |p| < 2 then Err(IndexError)
      else match GetTagById(tags, links, p[1])
        case Err(err) => Err(err)
        case Ok(arg1) => RoleLinks(tags, links, temp[0], arg1, temp[2..])
  }

  /** `__parse_r`: exactly four fields `id name Arg1:Id Arg2:Id`, both ids resolved. */
  function ParseR(tags: seq<Tag>, links: seq<Link>, r: string): Result<Link> {
    var parts := Words(RStrip(r));
    if |parts| != 4 then Err(ValueError)
    else
      var a1 := SplitOn(parts[2], ':');
      var a2 := SplitOn(parts[3], ':');
      if |a1| < 2 || |a2| < 2 then Err(IndexError)
      else match (GetTagById(tags, links, a1[1]), GetTagById(tags, links, a2[1]))
        case (Ok(t1), Ok(t2)) => Ok(Link(parts[0], parts[1], t1, t2))
        case _ => Err(IndexError)
  }

  /** The links one line adds: those of `__parse_e` for an `E` line, the one
      of `__parse_r` for an `R` line, none otherwise. */
  function LineLinks(tags: seq<Tag>, links: seq<Link>, line: string): Result<seq<Link>>
    requires line != []
  {
    if line[0] == 'E' then ParseE(tags, links, line)
    else if line[0] == 'R' then
      match ParseR(tags, links, line)
      case Ok(l) => Ok([l])
      case Err(e) => Err(e)
    else Ok([])
  }

  /** The links after `acc` has been extended by those of every line in turn;
      each line's ids resolve against the links made before it. */
  function LinksFrom(tags: seq<Tag>, acc: seq<Link>, lines: seq<string>): Result<seq<Link>>
    requires AllNonEmpty(lines)
    decreases |lines|
  {
    if lines == [] then Ok(acc)
    else match LineLinks(tags, acc, lines[0])
      case Err(e) => Err(e)
      case Ok(added) => LinksFrom(tags, acc + added, lines[1..])
  }

  /** `__parse_links` on links `links0`: nothing to do when they are already
      there; otherwise the links of the `E` and `R` lines, in file order. */
  function ParseLinksOf(tags: seq<Tag>, links0: seq<Link>, ann: seq<string>): Result<seq<Link>>
    requires AllNonEmpty(ann)
  {
    if links0 != [] then Ok(links0)
    else LinksFrom(tags, [], LinesOfKind(ann, {'E', 'R'}))
  }

  // ---------------------------------------------------------------------------
  // What the links are

  /** How many links a line adds: one per role argument of an event line,
      one for a relation line. */
  ghost function LinkCount(line: string): nat
    requires line != []
  {
    if line[0] == 'E' then (if |Words(line)| >= 2 then |Words(line)| - 2 else 0)
    else if line[0] == 'R' then 1
    else 0
  }

  ghost function TotalLinkCount(lines: seq<string>): nat
    requires AllNonEmpty(lines)
  {
    if lines == [] then 0 else LinkCount(lines[0]) + TotalLinkCount(lines[1..])
  }

  lemma {:induction false} RoleLinksMeaning(tags: seq<Tag>, links: seq<Link>, eId: string, arg1: Tag, rels: seq<string>, ls: seq<Link>)
    requires RoleLinks(tags, links, eId, arg1, rels) == Ok(ls)
    ensures |ls| == |rels|
    ensures forall k :: 0 <= k < |rels| ==>
      var p := SplitOn(rels[k], ':');
      && ls[k].lId == eId && ls[k].arg1 == arg1
      && |p| == 2 && ls[k].lName == p[0] && GetTagById(tags, links, p[1]) == Ok(ls[k].arg2)
  {
    if rels != [] {
      var p := SplitOn(rels[0], ':');
      var arg2 := GetTagById(tags, links, p[1]).value;
      var rest := RoleLinks(tags, links, eId, arg1, rels[1..]).value;
      RoleLinksMeaning(tags, links, eId, arg1, rels[1..], rest);
      assert ls == [Link(eId, p[0], arg1, arg2)] + rest;
      forall k | 1 <= k < |rels|
        ensures var p := SplitOn(rels[k], ':');
          && ls[k].lId == eId && ls[k].arg1 == arg1
          && |p| == 2 && ls[k].lName == p[0] && GetTagById(tags, links, p[1]) == Ok(ls[k].arg2)
      {
        assert rels[k] == rels[1..][k - 1];
      }
    }
  }

  /** An event line with trigger `Type:Id` and k role arguments gives exactly
      k links; each has the event id as `l_id`, the trigger's tag as `arg1`,
      and the role and the resolved tag of its argument. */
  lemma ParseEMeaning(tags: seq<Tag>, links: seq<Link>, e: string, ls: seq<Link>)
    requires ParseE(tags, links, e) == Ok(ls)
    ensures var ws := Words(e);
      |ws| >= 2 && |ls| == |ws| - 2 &&
      var trigger := SplitOn(ws[1], ':');
      |trigger| >= 2 && GetTagById(tags, links, trigger[1]).Ok? &&
      forall k :: 0 <= k < |ls| ==>
        var p := SplitOn(ws[k + 2], ':');
        && ls[k].lId == ws[0] && ls[k].arg1 == GetTagById(tags, links, trigger[1]).value
        && |p| == 2 && ls[k].lName == p[0] && GetTagById(tags, links, p[1]) == Ok(ls[k].arg2)
  {
    WordsOfRStrip(e);
    var ws := Words(e);
    var p := SplitOn(ws[1], ':');
    RoleLinksMeaning(tags, links, ws[0], GetTagById(tags, links, p[1]).value, ws[2..], ls);
  }

  /** A relation line gives one link, named by its first two fields. */
  lemma ParseRMeaning(tags: seq<Tag>, links: seq<Link>, r: string, l: Link)
    requires ParseR(tags, links, r) == Ok(l)
    ensures var ws := Words(r);
      |ws| == 4 && l.lId == ws[0] && l.lName == ws[1] &&
      |SplitOn(ws[2], ':')| >= 2 && |SplitOn(ws[3], ':')| >= 2 &&
      GetTagById(tags, links, SplitOn(ws[2], ':')[1]) == Ok(l.arg1) &&
      GetTagById(tags, links, SplitOn(ws[3], ':')[1]) == Ok(l.arg2)
  {
    WordsOfRStrip(r);
  }

  lemma LineLinksCount(tags: seq<Tag>, links: seq<Link>, line: string, added: seq<Link>)
    requires line != []
    requires LineLinks(tags, links, line) == Ok(added)
    ensures |added| == LinkCount(line)
  {
    if line[0] == 'E' {
      ParseEMeaning(tags, links, line, added);
    }
  }

  /** Parsing keeps the links already made and adds exactly the expected number. */
  lemma {:induction false} LinksFromCount(tags: seq<Tag>, acc: seq<Link>, lines: seq<string>, out: seq<Link>)
    requires AllNonEmpty(lines)
    requires LinksFrom(tags, acc, lines) == Ok(out)
    ensures |out| == |acc| + TotalLinkCount(lines) && out[..|acc|] == acc
    decreases |lines|
  {
    if lines == [] {
      assert out[..|acc|] == out;
    } else {
      var added := LineLinks(tags, acc, lines[0]).value;
      LineLinksCount(tags, acc, lines[0], added);
      LinksFromCount(tags, acc + added, lines[1..], out);
      assert out[..|acc|] == out[..|acc + added|][..|acc|];
    }
  }

  /** `__parse_links` adds one link per role argument of each event line and
      one per relation line; run again on its own result it changes nothing. */
  lemma ParseLinksMeaning(tags: seq<Tag>, ann: seq<string>, out: seq<Link>)
    requires AllNonEmpty(ann)
    requires ParseLinksOf(tags, [], ann) == Ok(out)
    ensures |out| == TotalLinkCount(LinesOfKind(ann, {'E', 'R'}))
    ensures ParseLinksOf(tags, out, ann) == Ok(out)
  {
    LinksFromCount(tags, [], LinesOfKind(ann, {'E', 'R'}), out);
  }
}
