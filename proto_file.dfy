/** One annotated protocol: its text lines, its BRAT annotation lines, and
    everything the parser derives from them, computed step by step into the
    object's fields as the Python class does. */
module ProtoFiles {
  import opened Outcomes
  import opened PyStr
  import opened Brat
  import opened TagParsing
  import opened StdIndexing
  import opened Linking
  import opened Alignment
  import opened Selection

  /** The sentences with every token's word passed through `unescape`
      (`clean_html_tag`), labels kept. */
  function Unescaped(rows: seq<seq<Token>>, unescape: string -> string): seq<seq<Token>> {
    seq(|rows|, i requires 0 <= i < |rows| =>
      seq(|rows[i]|, j requires 0 <= j < |rows[i]| => Token(unescape(rows[i][j].word), rows[i][j].bioLabel)))
  }

  /** Unescaping keeps the shape of the rows and every label, and maps each
      word through `unescape`. */
  lemma UnescapedMeaning(rows: seq<seq<Token>>, unescape: string -> string)
    ensures var r := Unescaped(rows, unescape);
      && |r| == |rows|
      && forall i :: 0 <= i < |rows| ==> (|r[i]| == |rows[i]| &&
           forall j :: 0 <= j < |rows[i]| ==> r[i][j] == Token(unescape(rows[i][j].word), rows[i][j].bioLabel))
  {
  }

  /** The fields that parsing a file fills in. */
  datatype Parsed = Parsed(heading: seq<string>, sents: seq<seq<string>>, tags: seq<Tag>,
                           uniqueTags: set<string>, ann: seq<string>, links: seq<Link>)

  /** What a successful parse of the annotation lines `ann0` yields: the tags
      of the `T` lines and the set of their names, the annotation lines
      standardised, and the links of the `E` and `R` lines. */
  ghost predicate AnnotationsOf(ann0: seq<string>, tokenize: string -> seq<string>,
                                tags: seq<Tag>, uniqueTags: set<string>, ann: seq<string>, links: seq<Link>)
  {
    && AllNonEmpty(ann0) && AllNonEmpty(ann)
    && ParseTagsOf(ann0, tokenize) == Ok(tags)
    && uniqueTags == (set t | t in tags :: t.tagName)
    && StdIndexFrom(ann0, 0) == Ok(ann)
    && ParseLinksOf(tags, [], ann) == Ok(links)
  }

  /** What a successful parse of the text lines `lines` and the annotation
      lines `ann0` yields: the heading and body sentences are the tokenised
      text lines, the tags those of the `T` lines, the annotation lines
      standardised, the links those of the `E` and `R` lines, and the
      alignment succeeds. */
  ghost predicate IsParseOf(lines: seq<string>, text: string, ann0: seq<string>, tokenize: string -> seq<string>,
                            labels: seq<string>, fuel: nat, p: Parsed)
  {
    && AllNonEmpty(ann0) && AllNonEmpty(p.ann) && |lines| >= 2
    && p.heading == tokenize(lines[0])
    && |p.sents| == |lines| - 1 && (forall i :: 0 <= i < |p.sents| ==> p.sents[i] == tokenize(lines[i + 1]))
    && AnnotationsOf(ann0, tokenize, p.tags, p.uniqueTags, p.ann, p.links)
    && GenTokensOf(text, p.tags, labels, p.sents, fuel).Ok?
  }

  /** The words of every text line, the heading first. */
  function Tokenised(lines: seq<string>, tokenize: string -> seq<string>): seq<seq<string>> {
    seq(|lines|, i requires 0 <= i < |lines| => tokenize(lines[i]))
  }

  /** The annotation steps of `__init__` in order: the tags, the
      standardised lines and the links, or the error of the first step that
      raises. */
  function AnnotationsResult(ann0: seq<string>, tokenize: string -> seq<string>)
    : Result<(seq<Tag>, seq<string>, seq<Link>)>
    requires AllNonEmpty(ann0)
  {
    match ParseTagsOf(ann0, tokenize)
    case Err(e) => Err(e)
    case Ok(tags) =>
      match StdIndexFrom(ann0, 0)
      case Err(e) => Err(e)
      case Ok(ann) =>
        StdIndexMeaning(ann0, ann);
        match ParseLinksOf(tags, [], ann)
        case Err(e) => Err(e)
        case Ok(links) => Ok((tags, ann, links))
  }

  /** How the parse of a file that passed the pretest ends: the error of
      the first annotation step that raises, else the error of the
      alignment, else success. */
  function ParseOutcome(lines: seq<string>, text: string, ann0: seq<string>, tokenize: string -> seq<string>,
                        labels: seq<string>, fuel: nat): Outcome
    requires AllNonEmpty(ann0) && |lines| >= 2
  {
    match AnnotationsResult(ann0, tokenize)
    case Err(e) => Fail(e)
    case Ok(a) =>
      match GenTokensOf(text, a.0, labels, Tokenised(lines, tokenize)[1..], fuel)
      case Err(e) => Fail(e)
      case Ok(_) => Pass
  }

  /** How `__init__` ends for a file that passed the pretest: the parse's
      error, or else AttributeError when filtering is asked for without
      features (`filter` reads `self.pos_tags`, which only features set). */
  function BuildOutcome(lines: seq<string>, text: string, ann0: seq<string>, tokenize: string -> seq<string>,
                        labels: seq<string>, fuel: nat, hasFeatures: bool, toFilter: bool): Outcome
    requires AllNonEmpty(ann0) && |lines| >= 2
  {
    match ParseOutcome(lines, text, ann0, tokenize, labels, fuel)
    case Fail(e) => Fail(e)
    case Pass => if toFilter && !hasFeatures then Fail(AttributeError) else Pass
  }

  /** How `__init__` ends once the files are read: the pretest's error, or
      success when the pretest returns False, or else how the rest ends. */
  function LoadOutcome(lines: seq<string>, text: string, ann0: seq<string>, tokenize: string -> seq<string>,
                       labels: seq<string>, fuel: nat, hasFeatures: bool, toFilter: bool): Outcome
    requires AllNonEmpty(ann0)
  {
    match Pretest(lines, ann0)
    case Err(e) => Fail(e)
    case Ok(pass) =>
      if !pass then Pass
      else BuildOutcome(lines, text, ann0, tokenize, labels, fuel, hasFeatures, toFilter)
  }

  /** The annotation steps succeed exactly when their results are those that
      `AnnotationsOf` describes. */
  lemma AnnotationsResultMeaning(ann0: seq<string>, tokenize: string -> seq<string>,
                                 tags: seq<Tag>, ann: seq<string>, links: seq<Link>)
    requires AllNonEmpty(ann0)
    ensures AnnotationsResult(ann0, tokenize) == Ok((tags, ann, links)) <==>
      AnnotationsOf(ann0, tokenize, tags, set t | t in tags :: t.tagName, ann, links)
  {
    if StdIndexFrom(ann0, 0) == Ok(ann) {
      StdIndexMeaning(ann0, ann);
    }
  }

  /** Fields that `IsParseOf` describes are the ones the parse computes. */
  lemma IsParseOfUnique(lines: seq<string>, text: string, ann0: seq<string>, tokenize: string -> seq<string>,
                        labels: seq<string>, fuel: nat, p: Parsed)
    requires IsParseOf(lines, text, ann0, tokenize, labels, fuel, p)
    ensures AnnotationsResult(ann0, tokenize) == Ok((p.tags, p.ann, p.links))
    ensures p.sents == Tokenised(lines, tokenize)[1..]
  {
    AnnotationsResultMeaning(ann0, tokenize, p.tags, p.ann, p.links);
  }

  /** The fields the parse computes are ones that `IsParseOf` describes when
      the alignment succeeds. */
  lemma IsParseOfResult(lines: seq<string>, text: string, ann0: seq<string>, tokenize: string -> seq<string>,
                        labels: seq<string>, fuel: nat, tags: seq<Tag>, ann: seq<string>, links: seq<Link>)
    requires AllNonEmpty(ann0) && |lines| >= 2
    requires AnnotationsResult(ann0, tokenize) == Ok((tags, ann, links))
    requires GenTokensOf(text, tags, labels, Tokenised(lines, tokenize)[1..], fuel).Ok?
    ensures IsParseOf(lines, text, ann0, tokenize, labels, fuel,
      Parsed(tokenize(lines[0]), Tokenised(lines, tokenize)[1..], tags, set t | t in tags :: t.tagName, ann, links))
  {
    AnnotationsResultMeaning(ann0, tokenize, tags, ann, links);
  }

  /** The parse succeeds exactly when there are fields that `IsParseOf`
      describes. */
  lemma ParseOutcomeMeaning(lines: seq<string>, text: string, ann0: seq<string>, tokenize: string -> seq<string>,
                            labels: seq<string>, fuel: nat)
    requires AllNonEmpty(ann0) && |lines| >= 2
    ensures ParseOutcome(lines, text, ann0, tokenize, labels, fuel).Pass? <==>
      exists p :: IsParseOf(lines, text, ann0, tokenize, labels, fuel, p)
  {
    if ParseOutcome(lines, text, ann0, tokenize, labels, fuel).Pass? {
      var a := AnnotationsResult(ann0, tokenize).value;
      IsParseOfResult(lines, text, ann0, tokenize, labels, fuel, a.0, a.1, a.2);
    } else {
      forall p | IsParseOf(lines, text, ann0, tokenize, labels, fuel, p)
        ensures false
      {
        IsParseOfUnique(lines, text, ann0, tokenize, labels, fuel, p);
      }
    }
  }

  /** `__init__` ends without an exception exactly when the text has at
      least two lines and, if the annotation file has a line, the parse
      succeeds and filtering is not asked for without features. */
  lemma LoadOutcomeMeaning(lines: seq<string>, text: string, ann0: seq<string>, tokenize: string -> seq<string>,
                           labels: seq<string>, fuel: nat, hasFeatures: bool, toFilter: bool)
    requires AllNonEmpty(ann0)
    ensures LoadOutcome(lines, text, ann0, tokenize, labels, fuel, hasFeatures, toFilter).Pass? <==>
      |lines| >= 2 &&
      (ann0 != [] ==> (exists p :: IsParseOf(lines, text, ann0, tokenize, labels, fuel, p)) && (toFilter ==> hasFeatures))
  {
    if |lines| >= 2 {
      ParseOutcomeMeaning(lines, text, ann0, tokenize, labels, fuel);
    }
  }

  class ProtoFile {
    var lines: seq<string>          // the text file's lines
    var text: string                // the full text
    var ann: seq<string>            // the annotation file's lines
    var status: bool
    var links: seq<Link>
    var heading: seq<string>        // the words of the first text line
    var sents: seq<seq<string>>     // the words of every further text line
    var tags: seq<Tag>
    var uniqueTags: set<string>
    var tokens2d: seq<seq<Token>>
    var wordCnt: nat
    var hasFeatures: bool           // whether `pos_tags` and `conll_deps` were set
    var posTags: seq<seq<(string, string)>>
    var conllDeps: seq<string>

    ghost predicate Valid()
      reads this
    {
      AllNonEmpty(ann)
    }

    /** The file contents as read, before any parsing. */
    constructor (lines: seq<string>, ann: seq<string>)
      requires AllNonEmpty(ann)
      ensures Valid()
      ensures this.lines == lines && text == Concat(lines) && this.ann == ann
      ensures !status && links == [] && tags == [] && tokens2d == [] && !hasFeatures
    {
      this.lines := lines;
      text := Concat(lines);
      this.ann := ann;
      status := false;
      links := [];
      heading := [];
      sents := [];
      tags := [];
      uniqueTags := {};
      tokens2d := [];
      wordCnt := 0;
      hasFeatures := false;
      posTags := [];
      conllDeps := [];
    }

    /** `__parse_tags`: one tag per `T` line, in order. */
    method ParseTags(tokenize: string -> seq<string>) returns (r: Result<seq<Tag>>)
      requires Valid()
      ensures r == ParseTagsOf(ann, tokenize)
    {
      var only := LinesOfKind(ann, {'T'});
      var acc: seq<Tag> := [];
      var i := 0;
      PrependNothing(ParseTagLines(only, tokenize));
      while i < |only|
        invariant 0 <= i <= |only|
        invariant ParseTagLines(only, tokenize) == Prepend(acc, ParseTagLines(only[i..], tokenize))
      {
        assert only[i..][0] == only[i] && only[i..][1..] == only[i + 1..];
        ParseTagLinesUnfold(only[i..], tokenize);
        var t := ParseTagLine(only[i], tokenize);
        if t.Err? {
          assert ParseTagLines(only, tokenize) == Err(t.error);
          return Err(t.error);
        }
        PrependPrepend(acc, [t.value], ParseTagLines(only[i + 1..], tokenize));
        acc := acc + [t.value];
        i := i + 1;
      }
      assert only[i..] == [] && acc + [] == acc;
      assert ParseTagLines(only, tokenize) == Ok(acc);
      return Ok(acc);
    }

    /** `__std_index`: every annotation line rewritten in place, in order. */
    method StdIndex() returns (o: Outcome)
      requires Valid()
      modifies this`ann
      ensures Valid() && |ann| == |old(ann)|
      ensures o.Pass? <==> StdIndexFrom(old(ann), 0).Ok?
      ensures o.Pass? ==> StdIndexFrom(old(ann), 0) == Ok(ann)
      ensures o.Fail? ==> StdIndexFrom(old(ann), 0) == Err(o.error)
    {
      var i := 0;
      while i < |ann|
        invariant 0 <= i <= |ann| == |old(ann)|
        invariant AllNonEmpty(ann)
        invariant StdIndexFrom(ann, i) == StdIndexFrom(old(ann), 0)
      {
        var l := ReplaceEs(ann, ann[i]);
        if l.Err? {
          return Fail(l.error);
        }
        ann := ann[i := l.value];
        i := i + 1;
      }
      return Pass;
    }

    /** `__parse_links`: the links of the `E` and `R` lines, appended in file
        order; nothing is done when links are already there. */
    method ParseLinks() returns (o: Outcome)
      requires Valid()
      modifies this`links
      ensures ParseLinksOf(tags, old(links), ann) == if o.Pass? then Ok(links) else Err(o.error)
    {
      if links != [] {
        return Pass;
      }
      var only := LinesOfKind(ann, {'E', 'R'});
      var i := 0;
      while i < |only|
        invariant 0 <= i <= |only|
        invariant LinksFrom(tags, [], only) == LinksFrom(tags, links, only[i..])
      {
        assert only[i..][1..] == only[i + 1..];
        var added := LineLinks(tags, links, only[i]);
        if added.Err? {
          return Fail(added.error);
        }
        links := links + added.value;
        i := i + 1;
      }
      return Pass;
    }

    /** The `while wi < len(sent)` loop of `gen_tokens` over one sentence,
        from offset `start`, taking at most `fuel` steps. */
    method WalkSentence(labels: seq<string>, sent: seq<string>, start0: int, fuel: nat) returns (r: Option<Cursor>)
      ensures r == AlignSentence(text, tags, labels, sent, Cursor([], 0, start0), fuel)
    {
      var pairs: seq<(string, string)> := [];
      var wi: nat := 0;
      var start := start0;
      var left := fuel;
      while wi < |sent|
        invariant AlignSentence(text, tags, labels, sent, Cursor([], 0, start0), fuel)
               == AlignSentence(text, tags, labels, sent, Cursor(pairs, wi, start), left)
        decreases left
      {
        if left == 0 {
          return None;
        }
        AlignSentenceStep(text, tags, labels, sent, Cursor(pairs, wi, start), left);
        pairs, wi, start := Advance(labels, sent, pairs, wi, start);
        left := left - 1;
      }
      return Some(Cursor(pairs, wi, start));
    }

    /** One turn of that loop: the word at `wi` is searched for from
        `start`; a tag found there (and allowed) is labelled and skipped,
        otherwise the word is labelled `O`. */
    method Advance(labels: seq<string>, sent: seq<string>, pairs: seq<(string, string)>, wi: nat, start: int)
      returns (pairs': seq<(string, string)>, wi': nat, start': int)
      requires wi < |sent|
      ensures var c' := Step(text, tags, labels, sent, Cursor(pairs, wi, start));
        pairs' == c'.pairs && wi' == c'.wi && start' == c'.start
    {
      var word := sent[wi];
      start' := FindFrom(text, word, AdjustStart(start, |text|));
      var tag := GetTagByStart(tags, start');
      if labels != [] {
        if tag.Some? && tag.value.tagName !in labels {
          tag := None;
        }
      }
      assert tag == TagAt(tags, start', labels);
      if tag.Some? {
        pairs' := pairs + MakeBio(tag.value);
        start' := tag.value.end;
        wi' := wi + |tag.value.words|;
      } else {
        pairs' := pairs + [(word, "O")];
        start' := start' + |word|;
        wi' := wi + 1;
      }
    }

    /** `gen_tokens`: the BIO-labelled tokens of every body sentence. The walk
        over a sentence takes at most `fuel` steps and fails with NoProgress
        beyond that. */
    method GenTokens(labels: seq<string>, fuel: nat) returns (r: Result<seq<seq<Token>>>)
      ensures r == GenTokensOf(text, tags, labels, sents, fuel)
    {
      if sents == [] {
        return Err(IndexError);
      }
      var start := |sents[0]|;
      var ret: seq<seq<Token>> := [];
      var s := 0;
      assert sents[s..] == sents;
      PrependNothing(GenTokensFrom(text, tags, labels, sents, start, fuel));
      while s < |sents|
        invariant 0 <= s <= |sents|
        invariant GenTokensOf(text, tags, labels, sents, fuel) == Prepend(ret, GenTokensFrom(text, tags, labels, sents[s..], start, fuel))
      {
        var sent := sents[s];
        assert sents[s..][0] == sent && sents[s..][1..] == sents[s + 1..];
        var walked := WalkSentence(labels, sent, start, fuel);
        if walked.None? {
          assert GenTokensFrom(text, tags, labels, sents[s..], start, fuel) == Err(NoProgress);
          return Err(NoProgress);
        }
        var pairs := walked.value.pairs;
        start := walked.value.start;
        PrependPrepend(ret, [Tokens(pairs)], GenTokensFrom(text, tags, labels, sents[s + 1..], start, fuel));
        ret := ret + [Tokens(pairs)];
        s := s + 1;
      }
      assert sents[s..] == [] && ret + [] == ret;
      return Ok(ret);
    }

    /** `filter`: keeps, among the sentences the three-way zip reaches, those
        with a token label containing `positive`, in order, and keeps the
        POS tags and dependency parses in step with them. Without features
        those attributes do not exist and the call fails. */
    method Filter(positive: string) returns (o: Outcome)
      modifies this`tokens2d, this`posTags, this`conllDeps
      ensures o.Fail? <==> !hasFeatures
      ensures o.Fail? ==> o.error == AttributeError && unchanged(this)
      ensures o.Pass? ==>
        var idx := KeptIndices(old(tokens2d), Min3(|old(tokens2d)|, |old(posTags)|, |old(conllDeps)|), positive);
        && tokens2d == Pick(old(tokens2d), idx)
        && posTags == Pick(old(posTags), idx)
        && conllDeps == Pick(old(conllDeps), idx)
    {
      if !hasFeatures {
        return Fail(AttributeError);
      }
      var rows, pos, deps := KeepPositive(tokens2d, posTags, conllDeps, positive);
      tokens2d := rows;
      posTags := pos;
      conllDeps := deps;
      return Pass;
    }

    /** The loop of `filter`: the first `Min3` sentences, with their POS tags
        and parses, kept where a label is positive. */
    method KeepPositive(rows: seq<seq<Token>>, pos: seq<seq<(string, string)>>, deps: seq<string>, positive: string)
      returns (rows': seq<seq<Token>>, pos': seq<seq<(string, string)>>, deps': seq<string>)
      ensures var idx := KeptIndices(rows, Min3(|rows|, |pos|, |deps|), positive);
        && rows' == Pick(rows, idx)
        && pos' == Pick(pos, idx)
        && deps' == Pick(deps, idx)
    {
      var n := Min3(|rows|, |pos|, |deps|);
      rows', pos', deps' := [], [], [];
      var i := 0;
      while i < n
        invariant 0 <= i <= n
        invariant rows' == Pick(rows, KeptIndices(rows, i, positive))
        invariant pos' == Pick(pos, KeptIndices(rows, i, positive))
        invariant deps' == Pick(deps, KeptIndices(rows, i, positive))
      {
        PickAppend(rows, KeptIndices(rows, i, positive), i);
        PickAppend(pos, KeptIndices(rows, i, positive), i);
        PickAppend(deps, KeptIndices(rows, i, positive), i);
        if AnyPositive(rows[i], positive) {
          rows' := rows' + [rows[i]];
          pos' := pos' + [pos[i]];
          deps' := deps' + [deps[i]];
        }
        i := i + 1;
      }
    }

    /** `__ent_counter`: for each requested entity type, the sum of `fn` over
        its tags; nothing when the file did not pass the pretest. */
    method EntCounter(types: seq<string>, fn: Tag -> int) returns (m: map<string, int>)
      ensures m == if status then Tally(tags, types, fn) else map[]
    {
      m := map[];
      if status {
        var ts := tags;
        var i := 0;
        while i < |ts|
          invariant 0 <= i <= |ts|
          invariant m == Tally(ts[..i], types, fn)
        {
          var tag := ts[i];
          TallySnoc(ts, types, fn, i);
          var name := tag.tagName;
          var value := fn(tag);
          if name in types {
            if name in m {
              m := m[name := m[name] + value];
            } else {
              m := m[name := value];
            }
          }
          i := i + 1;
        }
        assert ts[..i] == ts;
      }
    }

    /** `ent_cnt`: for each requested entity type that occurs, its number of
        tags; no other keys. */
    method EntCnt(types: seq<string>) returns (m: map<string, int>)
      ensures !status ==> m == map[]
      ensures status ==> forall name :: name in m <==>
        name in types && exists i :: 0 <= i < |tags| && tags[i].tagName == name
      ensures status ==> forall name :: name in m ==> m[name] == CountOf(tags, name) > 0
    {
      m := EntCounter(types, _ => 1);
      forall name | status
        ensures name in m <==> name in types && exists i :: 0 <= i < |tags| && tags[i].tagName == name
        ensures name in m ==> m[name] == CountOf(tags, name) > 0
      {
        EntCntMeaning(tags, types, name);
      }
    }

    /** The fields that a successful parse fills in hold what `IsParseOf`
        describes. */
    ghost predicate ParsedFrom(ann0: seq<string>, tokenize: string -> seq<string>, labels: seq<string>, fuel: nat)
      reads this`lines, this`text, this`heading, this`sents, this`tags, this`uniqueTags, this`ann, this`links
    {
      IsParseOf(lines, text, ann0, tokenize, labels, fuel, Parsed(heading, sents, tags, uniqueTags, ann, links))
    }

    /** The words of every text line: the first line is the heading, the
        others the body sentences. */
    method Tokenise(tokenize: string -> seq<string>)
      requires |lines| >= 2
      modifies this`heading, this`sents
      ensures heading == tokenize(lines[0])
      ensures |sents| == |lines| - 1 && forall i :: 0 <= i < |sents| ==> sents[i] == tokenize(lines[i + 1])
    {
      var ls := lines;
      var all := seq(|ls|, i requires 0 <= i < |ls| => tokenize(ls[i]));
      heading := all[0];
      sents := all[1..];
    }

    /** The annotation part of `__init__`: the tags, the standardised
        annotation lines and the links. */
    method ParseAnnotations(tokenize: string -> seq<string>) returns (o: Outcome)
      requires Valid() && links == []
      modifies this`tags, this`uniqueTags, this`ann, this`links
      ensures Valid()
      ensures AnnotationsResult(old(ann), tokenize) == if o.Pass? then Ok((tags, ann, links)) else Err(o.error)
      ensures o.Pass? ==> AnnotationsOf(old(ann), tokenize, tags, uniqueTags, ann, links)
    {
      var parsed := ParseTags(tokenize);
      if parsed.Err? {
        return Fail(parsed.error);
      }
      tags := parsed.value;
      uniqueTags := set t | t in tags :: t.tagName;
      o := StdIndex();
      if o.Pass? {
        o := ParseLinks();
      }
    }

    /** The body of `__init__` for a file that passed the pretest: the words
        of every line (the first is the heading), the annotations, and the
        BIO tokens with unescaped words and their count. */
    method Parse(tokenize: string -> seq<string>, unescape: string -> string, labels: seq<string>, fuel: nat)
      returns (o: Outcome)
      requires Valid() && |lines| >= 2 && links == []
      modifies this`heading, this`sents, this`tags, this`uniqueTags, this`ann, this`links, this`tokens2d, this`wordCnt
      ensures Valid()
      ensures o == ParseOutcome(lines, text, old(ann), tokenize, labels, fuel)
      ensures o.Pass? ==>
        && ParsedFrom(old(ann), tokenize, labels, fuel)
        && tokens2d == Unescaped(GenTokensOf(text, tags, labels, sents, fuel).value, unescape)
        && wordCnt == TokenCount(tokens2d)
    {
      Tokenise(tokenize);
      assert sents == Tokenised(lines, tokenize)[1..];
      o := ParseAnnotations(tokenize);
      if o.Fail? {
        return;
      }
      var generated := GenTokens(labels, fuel);
      if generated.Err? {
        return Fail(generated.error);
      }
      tokens2d := Unescaped(generated.value, unescape);
      wordCnt := TokenCount(tokens2d);
      assert ParsedFrom(old(ann), tokenize, labels, fuel);
    }

    /** What `__init__` leaves in the fields of a file that passed the
        pretest: the parse, the word count of the aligned tokens, the
        features when asked for, and the tokens (kept only where a label is
        positive when filtering is asked for). */
    ghost predicate BuiltFrom(ann0: seq<string>, tokenize: string -> seq<string>, unescape: string -> string,
                              labels: seq<string>, fuel: nat,
                              features: Option<(seq<seq<(string, string)>>, seq<string>)>, toFilter: bool, positive: string)
      reads this`lines, this`text, this`heading, this`sents, this`tags, this`uniqueTags, this`ann, this`links
      reads this`tokens2d, this`wordCnt, this`hasFeatures, this`posTags, this`conllDeps
    {
      && ParsedFrom(ann0, tokenize, labels, fuel)
      && hasFeatures == features.Some?
      && var rows := Unescaped(GenTokensOf(text, tags, labels, sents, fuel).value, unescape);
      && wordCnt == TokenCount(rows)
      && match features
         case None => !toFilter && tokens2d == rows
         case Some((pos, deps)) =>
           if toFilter then
             var idx := KeptIndices(rows, Min3(|rows|, |pos|, |deps|), positive);
             tokens2d == Pick(rows, idx) && posTags == Pick(pos, idx) && conllDeps == Pick(deps, idx)
           else tokens2d == rows && posTags == pos && conllDeps == deps
    }

    /** The part of `__init__` that runs once the pretest has passed. */
    method Build(tokenize: string -> seq<string>, unescape: string -> string, labels: seq<string>, fuel: nat,
                 features: Option<(seq<seq<(string, string)>>, seq<string>)>, toFilter: bool, positive: string)
      returns (o: Outcome)
      requires Valid() && |lines| >= 2 && links == []
      modifies this`heading, this`sents, this`tags, this`uniqueTags, this`ann, this`links, this`tokens2d, this`wordCnt
      modifies this`hasFeatures, this`posTags, this`conllDeps
      ensures Valid()
      ensures o == BuildOutcome(lines, text, old(ann), tokenize, labels, fuel, features.Some?, toFilter)
      ensures o.Pass? ==> BuiltFrom(old(ann), tokenize, unescape, labels, fuel, features, toFilter, positive)
    {
      o := Parse(tokenize, unescape, labels, fuel);
      if o.Fail? {
        return;
      }
      o := Finish(features, toFilter, positive);
    }

    /** The features and the optional filter, applied to the aligned
        tokens. */
    method Finish(features: Option<(seq<seq<(string, string)>>, seq<string>)>, toFilter: bool, positive: string)
      returns (o: Outcome)
      modifies this`tokens2d, this`hasFeatures, this`posTags, this`conllDeps
      ensures hasFeatures == features.Some?
      ensures o.Fail? <==> toFilter && features.None?
      ensures o.Fail? ==> o.error == AttributeError
      ensures o.Pass? ==>
        match features
        case None => tokens2d == old(tokens2d)
        case Some((pos, deps)) =>
          if toFilter then
            var idx := KeptIndices(old(tokens2d), Min3(|old(tokens2d)|, |pos|, |deps|), positive);
            tokens2d == Pick(old(tokens2d), idx) && posTags == Pick(pos, idx) && conllDeps == Pick(deps, idx)
          else tokens2d == old(tokens2d) && posTags == pos && conllDeps == deps
    {
      SetFeatures(features);
      o := Pass;
      if toFilter {
        o := Filter(positive);
      }
    }

    /** `__init__` after the files are read: the pretest and, when it passes,
        the parse, the optional features and the optional filter.
        `features` holds what the POS tagger and the dependency parser produce
        when features are asked for. */
    method Load(tokenize: string -> seq<string>, unescape: string -> string, labels: seq<string>, fuel: nat,
                features: Option<(seq<seq<(string, string)>>, seq<string>)>, toFilter: bool, positive: string)
      returns (o: Outcome)
      requires Valid()
      modifies this`status, this`heading, this`sents, this`tags, this`uniqueTags, this`ann, this`links
      modifies this`tokens2d, this`wordCnt, this`hasFeatures, this`posTags, this`conllDeps
      ensures Valid()
      ensures o == LoadOutcome(lines, text, old(ann), tokenize, labels, fuel, features.Some?, toFilter)
      ensures o.Pass? ==> Pretest(lines, old(ann)) == Ok(status)
      ensures o.Pass? && !status ==> links == [] && ann == old(ann)
      ensures o.Pass? && status ==> BuiltFrom(old(ann), tokenize, unescape, labels, fuel, features, toFilter, positive)
    {
      var pre := Pretest(lines, ann);
      if pre.Err? {
        return Fail(pre.error);
      }
      status := pre.value;
      links := [];
      if !status {
        return Pass;
      }
      o := Build(tokenize, unescape, labels, fuel, features, toFilter, positive);
    }

    /** The POS tags and dependency parses, when features are asked for. */
    method SetFeatures(features: Option<(seq<seq<(string, string)>>, seq<string>)>)
      modifies this`hasFeatures, this`posTags, this`conllDeps
      ensures hasFeatures == features.Some?
      ensures features.Some? ==> posTags == features.value.0 && conllDeps == features.value.1
    {
      match features {
        case Some(f) =>
          hasFeatures := true;
          posTags := f.0;
          conllDeps := f.1;
        case None =>
          hasFeatures := false;
      }
    }
  }
}
