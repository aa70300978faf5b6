/** Parsing of the entity lines of a BRAT annotation file,
    `T1<TAB>Name start end<TAB>surface text`, into `Tag` records. The middle
    field may also describe a discontinuous span with four or five pieces
    (`Name 0 5;6 10`); the tag then runs from its first to its last offset. */
module TagParsing {
  import opened Outcomes
  import opened PyStr
  import opened Brat

  /** One `T` line to a tag. The Moses tokenizer that splits the surface text
      into words is a parameter. */
  function ParseTagLine(line: string, tokenize: string -> seq<string>): Result<Tag> {
    var temp := SplitOn(RStrip(line), '\t');
    if |temp| < 2 then Err(IndexError)
    else
      var f := Words(temp[1]);
      if !(3 <= |f| <= 5) then Err(ValueError)
      else
        var name := f[0];
        var start := f[1];
        var end := if |f| == 3 then f[2] else if |f| == 4 then f[3] else f[4];
        match (ParseInt(start), ParseInt(end))
        case (Some(s), Some(e)) =>
          if |temp| < 3 then Err(IndexError)
          else Ok(Tag(temp[0], name, s, e, tokenize(temp[2])))
        case _ => Err(ValueError)
  }

  /** The tags of `lines`, in order, or the error of the first line that fails. */
  function ParseTagLines(lines: seq<string>, tokenize: string -> seq<string>): Result<seq<Tag>> {
    if lines == [] then Ok([])
    else match ParseTagLine(lines[0], tokenize)
      case Err(e) => Err(e)
      case Ok(t) => Prepend([t], ParseTagLines(lines[1..], tokenize))
  }

  lemma ParseTagLinesUnfold(lines: seq<string>, tokenize: string -> seq<string>)
    requires lines != []
    ensures var t := ParseTagLine(lines[0], tokenize);
      ParseTagLines(lines, tokenize) ==
        if t.Err? then Err(t.error) else Prepend([t.value], ParseTagLines(lines[1..], tokenize))
  {
  }

  /** The tags of an annotation file: one per `T` line, in file order. */
  function ParseTagsOf(ann: seq<string>, tokenize: string -> seq<string>): Result<seq<Tag>>
    requires AllNonEmpty(ann)
  {
    ParseTagLines(LinesOfKind(ann, {'T'}), tokenize)
  }

  /** The first tag whose span starts at `start`, if any. */
  function GetTagByStart(tags: seq<Tag>, start: int): (r: Option<Tag>)
    ensures r.None? <==> forall i :: 0 <= i < |tags| ==> tags[i].start != start
    ensures r.Some? ==> r.value.start == start
    ensures r.Some? ==>
      exists i :: 0 <= i < |tags| && tags[i] == r.value && forall j :: 0 <= j < i ==> tags[j].start != start
  {
    match FirstWhere(tags, (t: Tag) => t.start == start)
    case None => None
    case Some(i) => Some(tags[i])
  }

  // ---------------------------------------------------------------------------
  // What a parsed tag is

  /** The shape `ParseTagLine` accepts: at least three tab-separated fields,
      the middle one holding a name and two to four further pieces, of which
      the first and the last are integers. */
  ghost predicate WellFormedTagLine(line: string) {
    var fields := SplitOn(RStrip(line), '\t');
    |fields| >= 3 &&
    var mid := Words(fields[1]);
    3 <= |mid| <= 5 && ParseInt(mid[1]).Some? && ParseInt(mid[|mid| - 1]).Some?
  }

  /** A tag line parses exactly when it is well formed. Then the id is the text
      before the first tab of the line, the name the first piece of the middle
      field, `start` its first number and `end` its last, whether the field has
      three, four or five pieces, and the words those of the third field. */
  lemma ParseTagLineMeaning(line: string, tokenize: string -> seq<string>)
    ensures ParseTagLine(line, tokenize).Ok? <==> WellFormedTagLine(line)
    ensures ParseTagLine(line, tokenize).Ok? ==>
      var t := ParseTagLine(line, tokenize).value;
      var fields := SplitOn(RStrip(line), '\t');
      var mid := Words(fields[1]);
      && |t.tagId| < |line| && line[..|t.tagId|] == t.tagId && line[|t.tagId|] == '\t' && '\t' !in t.tagId
      && t.tagName == mid[0]
      && Some(t.start) == ParseInt(mid[1])
      && Some(t.end) == ParseInt(mid[|mid| - 1])
      && t.words == tokenize(fields[2])
  {
    var r := ParseTagLine(line, tokenize);
    if r.Ok? {
      var s := RStrip(line);
      FirstPiece(s, '\t');
      assert s <= line;
    }
  }

  /** A tag line as BRAT writes it. `inner` holds the offsets between the
      first and the last of a discontinuous span (none for a plain span). */
  ghost function TagLine(id: string, name: string, start: int, inner: seq<string>, end: int, text: string): string {
    id + "\t" + JoinWith([name, ShowInt(start)] + inner + [ShowInt(end)], " ") + "\t" + text + "\n"
  }

  lemma {:induction false} NoTabInJoin(ws: seq<string>)
    requires forall k :: 0 <= k < |ws| ==> NoSpace(ws[k])
    ensures '\t' !in JoinWith(ws, " ")
  {
    if |ws| == 1 {
      assert IsSpace('\t');
    } else if |ws| > 1 {
      NoTabInJoin(ws[1..]);
      assert IsSpace('\t');
    }
  }

  lemma RStripOfLine(x: string)
    requires x != [] && !IsSpace(x[|x| - 1])
    ensures RStrip(x + "\n") == x
  {
    assert (x + "\n")[..|x|] == x;
  }

  /** The three tab-separated fields of a written line. */
  lemma FieldsOfTagLine(id: string, mid: string, text: string)
    requires '\t' !in id && '\t' !in mid && '\t' !in text
    requires text != [] && !IsSpace(text[|text| - 1])
    ensures SplitOn(RStrip(id + "\t" + mid + "\t" + text + "\n"), '\t') == [id, mid, text]
  {
    var tail := mid + ['\t'] + text;
    var x := id + ['\t'] + tail;
    assert id + "\t" + mid + "\t" + text + "\n" == x + "\n";
    assert x[|x| - 1] == text[|text| - 1];
    RStripOfLine(x);
    SplitAfterPiece(mid, '\t', text);
    SplitWithoutSep(text, '\t');
    assert SplitOn(tail, '\t') == [mid, text];
    SplitAfterPiece(id, '\t', tail);
  }

  /** Parsing a written tag line gives back the tag it was written from. */
  lemma TagLineRoundTrip(id: string, name: string, start: int, inner: seq<string>, end: int, text: string,
                         tokenize: string -> seq<string>)
    requires '\t' !in id && '\t' !in text
    requires IsWord(name) && |inner| <= 2 && forall k :: 0 <= k < |inner| ==> IsWord(inner[k])
    requires text != [] && !IsSpace(text[|text| - 1])
    ensures ParseTagLine(TagLine(id, name, start, inner, end, text), tokenize)
         == Ok(Tag(id, name, start, end, tokenize(text)))
  {
    var ws := [name, ShowInt(start)] + inner + [ShowInt(end)];
    ParseShowInt(start);
    ParseShowInt(end);
    assert forall k :: 0 <= k < |ws| ==> IsWord(ws[k]);
    var mid := JoinWith(ws, " ");
    WordsOfJoin(ws);
    NoTabInJoin(ws);
    var line := TagLine(id, name, start, inner, end, text);
    assert line == id + "\t" + mid + "\t" + text + "\n";
    FieldsOfTagLine(id, mid, text);
    ParseOfFields(line, id, mid, ws, text, tokenize);
  }

  /** A line whose fields are `id`, `mid` and `text`, where `mid` splits into
      a name and two to four further pieces, parses to the tag they describe. */
  lemma ParseOfFields(line: string, id: string, mid: string, ws: seq<string>, text: string, tokenize: string -> seq<string>)
    requires SplitOn(RStrip(line), '\t') == [id, mid, text]
    requires Words(mid) == ws && 3 <= |ws| <= 5
    requires ParseInt(ws[1]).Some? && ParseInt(ws[|ws| - 1]).Some?
    ensures ParseTagLine(line, tokenize)
         == Ok(Tag(id, ws[0], ParseInt(ws[1]).value, ParseInt(ws[|ws| - 1]).value, tokenize(text)))
  {
  }

  // ---------------------------------------------------------------------------
  // The whole file

  /** The tags of `lines` are one per line, each that line parsed, exactly
      when every line parses. */
  lemma ParseTagLinesMeaning(lines: seq<string>, tokenize: string -> seq<string>, ts: seq<Tag>)
    ensures ParseTagLines(lines, tokenize) == Ok(ts) <==>
      |ts| == |lines| && forall k :: 0 <= k < |lines| ==> ParseTagLine(lines[k], tokenize) == Ok(ts[k])
  {
    if ParseTagLines(lines, tokenize) == Ok(ts) {
      ParseTagLinesSound(lines, tokenize, ts);
    }
    if |ts| == |lines| && forall k :: 0 <= k < |lines| ==> ParseTagLine(lines[k], tokenize) == Ok(ts[k]) {
      ParseTagLinesComplete(lines, tokenize, ts);
    }
  }

  lemma {:induction false} ParseTagLinesSound(lines: seq<string>, tokenize: string -> seq<string>, ts: seq<Tag>)
    requires ParseTagLines(lines, tokenize) == Ok(ts)
    ensures |ts| == |lines| && forall k :: 0 <= k < |lines| ==> ParseTagLine(lines[k], tokenize) == Ok(ts[k])
    decreases |lines|
  {
    if lines != [] {
      var rest := lines[1..];
      var t := ParseTagLine(lines[0], tokenize).value;
      var tail := ParseTagLines(rest, tokenize).value;
      ParseTagLinesSound(rest, tokenize, tail);
      assert ts == [t] + tail;
      forall k | 0 <= k < |lines| ensures ParseTagLine(lines[k], tokenize) == Ok(ts[k]) {
        if k > 0 {
          assert lines[k] == rest[k - 1];
        }
      }
    }
  }

  lemma {:induction false} ParseTagLinesComplete(lines: seq<string>, tokenize: string -> seq<string>, ts: seq<Tag>)
    requires |ts| == |lines| && forall k :: 0 <= k < |lines| ==> ParseTagLine(lines[k], tokenize) == Ok(ts[k])
    ensures ParseTagLines(lines, tokenize) == Ok(ts)
    decreases |lines|
  {
    if lines != [] {
      var rest := lines[1..];
      forall k | 0 <= k < |rest| ensures ParseTagLine(rest[k], tokenize) == Ok(ts[1..][k]) {
        assert rest[k] == lines[k + 1];
      }
      ParseTagLinesComplete(rest, tokenize, ts[1..]);
      assert ParseTagLine(lines[0], tokenize) == Ok(ts[0]);
      assert ts == [ts[0]] + ts[1..];
    }
  }

  /** The tags of a file are one per `T` line, in file order, each that line
      parsed; the file fails to parse exactly when one of its `T` lines does. */
  lemma ParseTagsOfMeaning(ann: seq<string>, tokenize: string -> seq<string>, ts: seq<Tag>)
    requires AllNonEmpty(ann)
    ensures var tLines := LinesOfKind(ann, {'T'});
      ParseTagsOf(ann, tokenize) == Ok(ts) <==>
        |ts| == |tLines| && forall k :: 0 <= k < |tLines| ==> ParseTagLine(tLines[k], tokenize) == Ok(ts[k])
  {
    ParseTagLinesMeaning(LinesOfKind(ann, {'T'}), tokenize, ts);
  }

  /** Parsing fails exactly when some line fails. */
  lemma {:induction false} ParseTagLinesFails(lines: seq<string>, tokenize: string -> seq<string>)
    ensures ParseTagLines(lines, tokenize).Err? <==> exists k :: 0 <= k < |lines| && ParseTagLine(lines[k], tokenize).Err?
    decreases |lines|
  {
    if lines != [] {
      var rest := lines[1..];
      ParseTagLinesFails(rest, tokenize);
      if exists k :: 1 <= k < |lines| && ParseTagLine(lines[k], tokenize).Err? {
        var k :| 1 <= k < |lines| && ParseTagLine(lines[k], tokenize).Err?;
        assert rest[k - 1] == lines[k];
      }
      if exists k :: 0 <= k < |rest| && ParseTagLine(rest[k], tokenize).Err? {
        var k :| 0 <= k < |rest| && ParseTagLine(rest[k], tokenize).Err?;
        assert rest[k] == lines[k + 1];
      }
    }
  }
}
