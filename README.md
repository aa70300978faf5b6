# BRAT annotation parser and BIO aligner

This project is a Dafny model of the `ProtoFile` class of the WLP-Parser
corpus reader (`corpus/ProtoFile.py`). A protocol is a text file plus a
BRAT stand-off annotation file. `ProtoFile` does the following:

- reads both files and runs a pretest;
- parses the entity lines (`T1<TAB>Name start end<TAB>text`) into tags;
- rewrites event references (`Using:E2`) into the trigger tag id of the
  event they name;
- turns event (`E`) and relation (`R`) lines into links;
- aligns every tokenised text line against the raw text to give each word a
  BIO label (`B-name`, `I-name`, `O`);
- optionally keeps only the sentences that carry a positive label;
- counts tags per entity type.

Modules:

- `Outcomes`: `Option`, `Result`, and the Python exceptions the code can
  raise (IndexError, ValueError, TypeError, AttributeError), which become
  error values.
- `PyStr`: the Python string operations the code relies on, written out
  with their CPython semantics. These are `str.split()`, `str.split(c)`,
  `rstrip`, `str.find` (with its adjustment of a negative start), `in`,
  `int()` and `" ".join`.
- `Brat`: the `Tag`, `Link` and `Token` records, the "lines of kind"
  comprehensions and the first-match lookups.
- `TagParsing`: `__parse_tags` and `get_tag_by_start`.
- `StdIndexing`: `__std_index` with `search_tag` and `replace_Es`.
- `Linking`: `__parse_links`, `__parse_e`, `__parse_r` and `get_tag_by_id`.
- `Alignment`: `__contain`, `make_bio` and `gen_tokens`.
- `Selection`: `__pretest`, the filter's choice of sentences, and the
  per-entity counters.
- `ProtoFiles`: the class `ProtoFile`, whose fields are updated in place by
  methods with `while` loops. Each loop is proved equal to a specification
  function from the modules above, and the properties are proved about
  those functions.

The Moses tokenizer, `html.unescape`, the `fn` callback of the counter, and
the POS tagger and dependency parser output are parameters of the model.

Source behaviours the model keeps as written:

- The alignment offset starts at `len(self.sents[0])`, a word count used as
  a character offset (`GenTokensOf`).
- A failed `str.find` sets the offset to -1. Unless a tag starts at -1, the
  same turn labels the word `O` and moves the offset to `len(word) - 1`.
  The walk therefore rewinds to the front of the text for the next word
  (`Step`, `StepMeaning`). The offset stays at -1 only after an empty word
  or a tag that ends at -1, and a search from -1 starts at the last
  character, as CPython's negative start does (`Find`).
- An event id is looked up by line prefix, so `E1` also matches a line
  `E10 ...` that comes first (`SearchTag`, `Resolves`).
- `__std_index` rewrites `self.ann` in place. The lookup for line `i`
  therefore sees the lines before `i` already rewritten (`StdIndexFrom`).
- `__pretest` with fewer than two text lines logs `self.sents` before that
  attribute exists, so it raises AttributeError instead of returning False
  (`Pretest`).
- Only the first tag at an offset is considered. When `labels_allowed`
  rejects its name, the word becomes `O` even if a later tag at the same
  offset would be allowed (`TagAt`).
- `make_bio` of a tag without words is empty, because `zip` truncates.
  Such a tag leaves the word index where it is and moves the offset to
  `tag.end`, so the same word is searched for again from there. The walk
  only repeats forever when that search keeps landing on a tag without
  words. Two examples: a tag without words whose end equals its start, once
  the word is found there; or a tag without words starting at -1 when the
  word does not occur in the rest of the text. `tag.end <= tag.start` alone
  neither causes the repetition nor is needed for it (see the step bound
  under "Left out").

## Model

| member | source | states |
|---|---|---|
| PyStr.FindFromMeaning | corpus/ProtoFile.py:350 | the search from `i` returns the first index at or after `i` where the word occurs, or -1 when it occurs nowhere from there |
| PyStr.FindMeaning | corpus/ProtoFile.py:350 | `text.find(word, start)` returns the first occurrence at or after the adjusted start (a negative start counts from the end), or -1 |
| PyStr.FindZeroIsPrefix | corpus/ProtoFile.py:196 | `line.find(id) == 0` holds exactly when `id` is a prefix of `line` |
| PyStr.ContainsMeaning | corpus/ProtoFile.py:87 | `positive in label` holds exactly when `positive` occurs somewhere in `label` |
| PyStr.ParseShowInt | corpus/ProtoFile.py:303-304 | `int()` of a written integer gives that integer back, and the written integer is one word |
| PyStr.WordsOfJoin | corpus/ProtoFile.py:221-224 | splitting a space-joined list of words gives back the words |
| PyStr.WordsOfRStrip | corpus/ProtoFile.py:266-267 | `split()` after `rstrip()` gives the same words as `split()` |
| PyStr.JoinOfSplit | corpus/ProtoFile.py:292 | joining the pieces of `split(c)` with `c` gives back the string |
| Brat.LinesOfKind | corpus/ProtoFile.py:249 | the kept lines are exactly the lines of the requested kinds, none is empty, and there are no more of them than lines |
| Brat.LinesOfKindOne | corpus/ProtoFile.py:249 | a single line is kept exactly when its kind is requested |
| Brat.LinesOfKindAppend | corpus/ProtoFile.py:249 | filtering two runs of lines gives the two filtered runs one after the other, so the kept lines keep their order and multiplicity |
| Brat.FirstWhere | corpus/ProtoFile.py:330-335 | the result is the first index whose element satisfies the test, or None when no element does |
| TagParsing.ParseTagLineMeaning | corpus/ProtoFile.py:287-308 | a `T` line parses exactly when it has at least three tab fields and a middle field of 3 to 5 pieces whose second and last are integers; the tag id is the text before the first tab, the name is the first piece, `start` is the first number and `end` the last, and the words are the tokenised third field |
| TagParsing.TagLineRoundTrip | corpus/ProtoFile.py:287-308 | parsing a `T` line written from an id, a name, a span (plain or discontinuous) and a surface text gives back that tag |
| TagParsing.ParseTagLinesMeaning | corpus/ProtoFile.py:288-308 | the tags are one per line, in order, each that line parsed, exactly when every line parses |
| TagParsing.ParseTagLinesFails | corpus/ProtoFile.py:288-308 | parsing fails exactly when some line fails to parse |
| TagParsing.ParseTagsOfMeaning | corpus/ProtoFile.py:287-308 | the tags of a file are one per `T` line, in file order |
| TagParsing.GetTagByStart | corpus/ProtoFile.py:329-335 | None exactly when no tag starts at the offset; otherwise the first tag that does |
| ProtoFiles.ProtoFile.ParseTags | corpus/ProtoFile.py:287-308 | the loop appending tags returns the parse of the `T` lines, or the first line's error |
| StdIndexing.SearchTagMeaning | corpus/ProtoFile.py:193-201 | `search_tag` finds an id exactly when the id resolves: a non-`E` id to itself, an `E` id to the id after `:` in the second field of the first line having it as a prefix; what it finds holds no space and no `:` |
| StdIndexing.ResolveArgsMeaning | corpus/ProtoFile.py:210-219 | each argument splits at `:` into exactly two pieces, its role is kept, and its id is what `search_tag` returns |
| StdIndexing.ArgStrings | corpus/ProtoFile.py:221 | the join succeeds exactly when every id was found; each string is `role:id` |
| StdIndexing.ReplaceEs | corpus/ProtoFile.py:203-227 | lines other than `E`/`R` lines come back unchanged; a rewritten line keeps its first character |
| StdIndexing.RewriteMeaning | corpus/ProtoFile.py:219-224 | the rewritten line has the kept front words followed by one `role:id'` word per argument, where `id'` is what the argument's id stands for |
| StdIndexing.ReplaceEsMeaning | corpus/ProtoFile.py:203-227 | an `E`/`R` line keeps its number of words and its id (and relation name), and every argument is rewritten to the resolved id |
| StdIndexing.StdIndexFromMeaning | corpus/ProtoFile.py:229-230 | the in-place pass keeps the lines before the current one, and each later line becomes `replace_Es` of it as seen with earlier lines already rewritten |
| StdIndexing.StdIndexMeaning | corpus/ProtoFile.py:186-230 | `__std_index` keeps the number, order, non-emptiness and kind of the lines, leaves non-`E`/`R` lines unchanged, and rewrites line `k` as `replace_Es` sees it after lines before `k` were rewritten |
| ProtoFiles.ProtoFile.StdIndex | corpus/ProtoFile.py:229-230 | the in-place loop succeeds exactly when the specification does, leaves `ann` as the specification's result, and fails with the specification's error |
| Linking.GetTagByIdMeaning | corpus/ProtoFile.py:257-262 | the lookup fails only with IndexError and exactly when no tag (for a `T` id) or no link (for any other id) has the id; it finds the first tag, or the `arg1` of the first link, with that id |
| Linking.RoleLinksMeaning | corpus/ProtoFile.py:273-277 | one link per role argument, each from the event id and the trigger tag, with the argument's role and resolved tag |
| Linking.ParseEMeaning | corpus/ProtoFile.py:264-278 | an event line with k role arguments gives exactly k links, each with the event id as `l_id`, the trigger's tag as `arg1`, and its role and resolved tag |
| Linking.ParseRMeaning | corpus/ProtoFile.py:280-285 | a relation line has exactly four words and gives one link named by the first two, whose arguments are the tags of the two ids |
| Linking.LineLinksCount | corpus/ProtoFile.py:249-255 | a line adds as many links as it has role arguments (event) or one (relation) |
| Linking.LinksFromCount | corpus/ProtoFile.py:249-255 | the links already made are kept, and the total number added is the sum over the lines |
| Linking.ParseLinksMeaning | corpus/ProtoFile.py:245-255 | the links number one per event argument plus one per relation line, and a second call leaves them unchanged |
| ProtoFiles.ProtoFile.ParseLinks | corpus/ProtoFile.py:245-255 | the in-place loop leaves `links` as the specification's result, or fails with its error |
| Alignment.Zip | corpus/ProtoFile.py:327 | `zip` pairs the elements at each position, up to the shorter length |
| Alignment.Contain | corpus/ProtoFile.py:310-317 | the result is true exactly when `s2 <= s1 && e1 <= e2`; partial overlaps and all other cases give false |
| Alignment.MakeBio | corpus/ProtoFile.py:319-327 | one pair per word of the tag, holding that word; the first label is `B-name` and every later one `I-name`; no words gives no pairs |
| Alignment.TagAt | corpus/ProtoFile.py:352-356 | the tag used is the first tag at the offset when its name is allowed (or no list is given); None exactly when there is no tag there or its name is not allowed |
| Alignment.StepMeaning | corpus/ProtoFile.py:348-371 | one loop turn searches the word from the offset; a found, allowed tag adds its BIO pairs, moves the offset to the tag's end and skips its words; otherwise the word is labelled `O`, the offset moves by the word's length and the index by one |
| Alignment.StepKeepsAligned | corpus/ProtoFile.py:348-371 | a turn keeps the pairs made so far, makes one pair per word index passed, and keeps the labels IOB2-valid, allowed, and `O` only on the sentence's own word at that position |
| Alignment.AlignSentenceAligned | corpus/ProtoFile.py:345-373 | a finished walk has passed every word, made one pair per word index passed, and is aligned |
| Alignment.AlignSentenceProgress | corpus/ProtoFile.py:348-371 | when every tag has words, a walk with as many steps as words left reaches the end of the sentence |
| Alignment.GenTokensFromMeaning | corpus/ProtoFile.py:337-377 | one token list per body sentence; each has at least as many tokens as the sentence has words, follows IOB2, uses only `O` or allowed names, and has its `O` tokens on the sentence's own words |
| Alignment.GenTokensOfMeaning | corpus/ProtoFile.py:337-377 | when every tag has words and the step bound covers every sentence, `gen_tokens` succeeds exactly when the body is not empty, with the properties above |
| Alignment.AlignSentenceMoreFuel | corpus/ProtoFile.py:348-371 | once a walk finishes within a step bound, any larger bound gives the same result, so the bound never changes where a finished walk ends |
| Alignment.GenTokensFromMoreFuel | corpus/ProtoFile.py:344-375 | the same holds for the token lists of several sentences with the offset carried between them |
| Alignment.GenTokensOfMoreFuel | corpus/ProtoFile.py:337-377 | `gen_tokens` with a larger step bound gives the same tokens whenever a smaller bound succeeds |
| ProtoFiles.ProtoFile.WalkSentence | corpus/ProtoFile.py:345-373 | the `while wi < len(sent)` loop gives the specification's walk of that sentence |
| ProtoFiles.ProtoFile.Advance | corpus/ProtoFile.py:349-371 | one turn of the loop body gives the pairs, word index and offset of the specification's step |
| ProtoFiles.ProtoFile.GenTokens | corpus/ProtoFile.py:337-377 | the loop over sentences returns the specification's token lists, with the offset carried from sentence to sentence |
| Selection.Pretest | corpus/ProtoFile.py:232-243 | fewer than two text lines raise AttributeError; otherwise the file passes exactly when the annotation file has a line |
| Selection.AnyPositiveMeaning | corpus/ProtoFile.py:87 | a sentence is kept exactly when some token label contains the positive label |
| Selection.KeptIndicesMeaning | corpus/ProtoFile.py:82-90 | the kept indices are exactly the positive sentences among those the zip reaches, in increasing order |
| Selection.Pick | corpus/ProtoFile.py:88-90 | one element per kept index, in the order of the indices |
| Selection.Min3 | corpus/ProtoFile.py:82 | the zip reaches the least of the three lengths |
| ProtoFiles.ProtoFile.KeepPositive | corpus/ProtoFile.py:79-90 | the loop keeps the kept sentences, their POS tags and their parses, in order and in step |
| ProtoFiles.ProtoFile.Filter | corpus/ProtoFile.py:77-94 | without features it fails with AttributeError and changes nothing; otherwise `tokens2d`, `pos_tags` and `conll_deps` become the kept rows of each |
| Selection.TallyKeys | corpus/ProtoFile.py:153-163 | the counter has an entry exactly for each requested name that some tag has |
| Selection.AddTag | corpus/ProtoFile.py:157-161 | after one tag, the counter has a key exactly for the keys it had and the tag's name when that name is requested |
| Selection.TallyIsSum | corpus/ProtoFile.py:153-163 | each entry is the sum of `fn` over the tags with that name |
| Selection.EntCntMeaning | corpus/ProtoFile.py:165-168 | with `fn = 1`, each requested name that occurs maps to its number of tags, which is positive, and there are no other keys |
| ProtoFiles.ProtoFile.EntCounter | corpus/ProtoFile.py:153-163 | the dictionary-updating loop returns the specification's tally, or an empty map when the pretest failed |
| ProtoFiles.ProtoFile.EntCnt | corpus/ProtoFile.py:165-168 | keys are exactly the requested names that occur, each mapped to its positive tag count; empty when the pretest failed |
| ProtoFiles.UnescapedMeaning | corpus/ProtoFile.py:72-75 | unescaping keeps the shape of the rows and every label, and maps each word through `html.unescape` |
| ProtoFiles.ProtoFile.constructor | corpus/ProtoFile.py:42-46 | the fields hold the lines read, their concatenation and the annotation lines |
| ProtoFiles.ProtoFile.Tokenise | corpus/ProtoFile.py:49-51 | the heading is the first tokenised line and the body sentences are the rest, in order |
| ProtoFiles.ProtoFile.ParseAnnotations | corpus/ProtoFile.py:52-55 | the steps succeed exactly when the tags, standardisation and links all succeed, with those results in the fields (and the set of tag names); otherwise the call fails with the error of the first step that raises |
| ProtoFiles.ProtoFile.Parse | corpus/ProtoFile.py:49-60 | the call fails exactly when an annotation step or the alignment raises, with that error; on success the fields hold the tokenised lines, the parsed annotations, the unescaped aligned tokens and their number |
| ProtoFiles.ProtoFile.Build | corpus/ProtoFile.py:49-70 | the call fails with the parse's error, or with AttributeError when filtering is asked for without features; on success `tokens2d`, `pos_tags` and `conll_deps` are the parse's tokens and the features, all three picked at the same kept indices when filtering |
| ProtoFiles.ProtoFile.Load | corpus/ProtoFile.py:38-70 | the call fails exactly as `__init__` raises: with the pretest's error, else the parse's, else AttributeError for filtering without features; a failed pretest leaves no links and the annotation lines as read; a passed one leaves the fields as built |
| ProtoFiles.ProtoFile.Finish | corpus/ProtoFile.py:61-70 | filtering without features fails with AttributeError; otherwise `pos_tags` and `conll_deps` are the features, and with filtering all three lists are picked at the same kept indices |
| ProtoFiles.ProtoFile.SetFeatures | corpus/ProtoFile.py:62-67 | the features flag says whether features were given, and then `pos_tags` and `conll_deps` are their two parts |
| ProtoFiles.AnnotationsResultMeaning | corpus/ProtoFile.py:52-55 | the annotation steps succeed with given tags, lines and links exactly when those are the tags of the `T` lines, the standardised lines and the links of the `E`/`R` lines |
| ProtoFiles.ParseOutcomeMeaning | corpus/ProtoFile.py:49-58 | the parse succeeds exactly when there are fields that are the tokenised lines, the annotations' results and a successful alignment |
| ProtoFiles.LoadOutcomeMeaning | corpus/ProtoFile.py:38-70 | `__init__` ends without an exception exactly when the text has at least two lines and, if the annotation file has a line, the parse succeeds and filtering is not asked for without features |

## Left out

- File reading (`io.open`, `readlines`), file names and the derived
  protocol name: the text and annotation lines are inputs.
- The Moses tokenizer, `html.unescape` and the `fn` callback of
  `__ent_counter`: these are foreign code, so they are function parameters.
- POS tagging and dependency parsing (`__gen_pos_genia`,
  `__gen_pos_stanford`, `__gen_dep`, `get_deps`) with their pickle caches:
  they call external tools. Their output is a parameter (`features`).
- `cnt_words`, `ent_w_cnt` and `ent_span_len`: the last two read
  `tag.word`, which the `Tag` record does not have, and `ent_w_cnt` calls
  `nltk.word_tokenize`. `cnt_words` is a one-line sum that the core does
  not use.
- `get_label_counts` and `count_labels`: they iterate `tokens2d` as if it
  were flat, and `Counter.most_common` ordering is not modelled.
- `tag_0_id`, `tag_0_name`, `f_df` and `Token.feature_values`: constants
  that the core does not read.
- Logging: it has no effect on the results, except in `__pretest`, where the
  AttributeError it raises is modelled.
- `int()` accepts only an optional sign followed by ASCII digits here.
  Surrounding whitespace, underscores and non-ASCII digits are not
  modelled. The pieces it is given come from `split()`, so they hold no
  whitespace.
- `ProtoFiles.ProtoFile.WalkSentence`: the `while` loop of `gen_tokens` can
  run forever when the search keeps landing on tags without words. The model
  bounds each sentence's walk by `fuel` steps and reports NoProgress beyond
  that. `GenTokensOfMeaning` shows that `fuel` at least the sentence length
  always suffices when every tag has words. When a tag has no words, a walk
  the source finishes can need more steps than the sentence has words, so
  such a `fuel` can report NoProgress where the source still returns.
- `ProtoFiles.ProtoFile.Parse`: `clean_html_tag` rewrites each token's word
  in place. The model builds new tokens instead (`Unescaped`). No other list
  holds those token objects, so only the in-place update itself is not
  captured.
- The `__main__` block and the other repository files (training and
  evaluation scripts, the DataLoader test): they are not part of the
  parser.
