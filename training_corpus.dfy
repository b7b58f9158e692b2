/** The text classifier's training corpus: the words of training documents
    counted per category and over the whole vocabulary, a stop list, the
    trimming of rare words and the smoothed per-category word
    probabilities. Directory listings and file contents are parameters: a
    document is the sequence of its lines. */
module TrainingCorpora {
  import opened Wrappers
  import opened Text
  import opened Sums
  import NaiveBayesian
  import Reals
  import FoldCrossValidating

  /** A training document: its lines, in file order. */
  type Document = seq<string>

  // ---------------------------------------------------------------------
  // match_from_text

  /** The longest prefix of s made of ASCII letters and digits. */
  function AlnumRun(s: string): (r: string)
    ensures |r| <= |s| && r == s[..|r|]
    ensures forall i :: 0 <= i < |r| ==> IsAsciiAlnum(r[i])
    ensures |r| < |s| ==> !IsAsciiAlnum(s[|r|])
  {
    if s != [] && IsAsciiAlnum(s[0]) then [s[0]] + AlnumRun(s[1..]) else []
  }

  /** The position of the first ASCII letter or digit, |text| if none. */
  function FirstAlnum(text: string): (p: nat)
    ensures p <= |text|
    ensures forall i :: 0 <= i < p ==> !IsAsciiAlnum(text[i])
    ensures p < |text| ==> IsAsciiAlnum(text[p])
  {
    if text == [] || IsAsciiAlnum(text[0]) then 0 else 1 + FirstAlnum(text[1..])
  }

  /** `re.search(r'[A-Za-z0-9]+', text)`: the leftmost match, which the
      greedy `+` makes a maximal run, or None. */
  function MatchFromText(text: string): Option<string>
  {
    if text == [] then None
    else if IsAsciiAlnum(text[0]) then Some(AlnumRun(text))
    else MatchFromText(text[1..])
  }

  /** A match is found exactly when the token holds a letter or digit, and
      it is then the longest run of letters and digits that starts at the
      first one. */
  lemma {:induction false} MatchFromTextFirstRun(text: string)
    ensures MatchFromText(text).Some? <==> exists i :: 0 <= i < |text| && IsAsciiAlnum(text[i])
    ensures MatchFromText(text)
         == if FirstAlnum(text) < |text| then Some(AlnumRun(text[FirstAlnum(text)..])) else None
  {
    if text != [] && !IsAsciiAlnum(text[0]) {
      MatchFromTextFirstRun(text[1..]);
      assert text[1..][FirstAlnum(text[1..])..] == text[FirstAlnum(text)..];
      forall i | 0 <= i < |text| && IsAsciiAlnum(text[i])
        ensures exists j :: 0 <= j < |text[1..]| && IsAsciiAlnum(text[1..][j])
      {
        assert text[1..][i - 1] == text[i];
      }
    }
  }

  /** What a match is: non-empty, letters and digits only. */
  lemma MatchIsRun(text: string)
    requires MatchFromText(text).Some?
    ensures MatchFromText(text).value != []
    ensures forall i :: 0 <= i < |MatchFromText(text).value| ==> IsAsciiAlnum(MatchFromText(text).value[i])
  {
    MatchFromTextFirstRun(text);
  }

  // ---------------------------------------------------------------------
  // The words a document contributes

  /** The word a whitespace-separated token contributes: its match,
      lower-cased, unless that is a stop word. */
  function CountedWord(stopWords: map<string, nat>, token: string): seq<string>
  {
    match MatchFromText(token)
    case None => []
    case Some(m) => if Lower(m) in stopWords then [] else [Lower(m)]
  }

  /** The words the tokens contribute, in token order. */
  function TokensWords(stopWords: map<string, nat>, tokens: seq<string>): seq<string>
  {
    if tokens == [] then []
    else TokensWords(stopWords, tokens[..|tokens| - 1]) + CountedWord(stopWords, tokens[|tokens| - 1])
  }

  /** The words of the lines, each split as `line.split()` splits it. */
  function LinesWords(stopWords: map<string, nat>, lines: seq<string>): seq<string>
  {
    if lines == [] then []
    else LinesWords(stopWords, lines[..|lines| - 1]) + TokensWords(stopWords, Words(lines[|lines| - 1]))
  }

  /** The words of the documents, in listing order. */
  function DocumentsWords(stopWords: map<string, nat>, documents: seq<Document>): seq<string>
  {
    if documents == [] then []
    else DocumentsWords(stopWords, documents[..|documents| - 1]) + LinesWords(stopWords, documents[|documents| - 1])
  }

  /** The words of the documents of a category's buckets, bucket by bucket;
      `listing(category, b)` is the documents under the bucket's directory. */
  function BucketsWords(stopWords: map<string, nat>, buckets: seq<nat>, category: string,
                        listing: (string, nat) -> seq<Document>): seq<string>
  {
    if buckets == [] then []
    else
      var last := buckets[|buckets| - 1];
      BucketsWords(stopWords, buckets[..|buckets| - 1], category, listing) + DocumentsWords(stopWords, listing(category, last))
  }

  /** A word as counted: non-empty, ASCII letters and digits only, none of
      them upper case, and not on the stop list. */
  predicate CleanWord(stopWords: map<string, nat>, w: string)
  {
    && w != []
    && (forall i :: 0 <= i < |w| ==> IsAsciiAlnum(w[i]) && !IsAsciiUpper(w[i]))
    && w !in stopWords
  }

  predicate AllClean(stopWords: map<string, nat>, words: seq<string>)
  {
    forall k :: 0 <= k < |words| ==> CleanWord(stopWords, words[k])
  }

  lemma CleanAppend(stopWords: map<string, nat>, a: seq<string>, b: seq<string>)
    requires AllClean(stopWords, a) && AllClean(stopWords, b)
    ensures AllClean(stopWords, a + b)
  {
    forall k | 0 <= k < |a + b| ensures CleanWord(stopWords, (a + b)[k]) {
      if k >= |a| { assert (a + b)[k] == b[k - |a|]; }
    }
  }

  lemma CountedWordClean(stopWords: map<string, nat>, token: string)
    ensures AllClean(stopWords, CountedWord(stopWords, token))
  {
    var m := MatchFromText(token);
    if m.Some? && Lower(m.value) !in stopWords {
      MatchIsRun(token);
      var w := Lower(m.value);
      forall i | 0 <= i < |w| ensures IsAsciiAlnum(w[i]) && !IsAsciiUpper(w[i]) {
        assert IsAsciiAlnum(m.value[i]);
      }
    }
  }

  lemma {:induction false} TokensWordsClean(stopWords: map<string, nat>, tokens: seq<string>)
    ensures AllClean(stopWords, TokensWords(stopWords, tokens))
    decreases |tokens|
  {
    if tokens != [] {
      TokensWordsClean(stopWords, tokens[..|tokens| - 1]);
      CountedWordClean(stopWords, tokens[|tokens| - 1]);
      CleanAppend(stopWords, TokensWords(stopWords, tokens[..|tokens| - 1]), CountedWord(stopWords, tokens[|tokens| - 1]));
    }
  }

  lemma {:induction false} LinesWordsClean(stopWords: map<string, nat>, lines: seq<string>)
    ensures AllClean(stopWords, LinesWords(stopWords, lines))
    decreases |lines|
  {
    if lines != [] {
      LinesWordsClean(stopWords, lines[..|lines| - 1]);
      TokensWordsClean(stopWords, Words(lines[|lines| - 1]));
      CleanAppend(stopWords, LinesWords(stopWords, lines[..|lines| - 1]), TokensWords(stopWords, Words(lines[|lines| - 1])));
    }
  }

  lemma {:induction false} DocumentsWordsClean(stopWords: map<string, nat>, documents: seq<Document>)
    ensures AllClean(stopWords, DocumentsWords(stopWords, documents))
    decreases |documents|
  {
    if documents != [] {
      DocumentsWordsClean(stopWords, documents[..|documents| - 1]);
      LinesWordsClean(stopWords, documents[|documents| - 1]);
      CleanAppend(stopWords, DocumentsWords(stopWords, documents[..|documents| - 1]), LinesWords(stopWords, documents[|documents| - 1]));
    }
  }

  lemma {:induction false} BucketsWordsClean(stopWords: map<string, nat>, buckets: seq<nat>, category: string,
                                             listing: (string, nat) -> seq<Document>)
    ensures AllClean(stopWords, BucketsWords(stopWords, buckets, category, listing))
    decreases |buckets|
  {
    if buckets != [] {
      BucketsWordsClean(stopWords, buckets[..|buckets| - 1], category, listing);
      DocumentsWordsClean(stopWords, listing(category, buckets[|buckets| - 1]));
      CleanAppend(stopWords, BucketsWords(stopWords, buckets[..|buckets| - 1], category, listing),
                  DocumentsWords(stopWords, listing(category, buckets[|buckets| - 1])));
    }
  }

  /** The documents of a bucket not in the list play no part. */
  lemma {:induction false} BucketsWordsIgnoreOthers(stopWords: map<string, nat>, buckets: seq<nat>, category: string,
                                                    listing: (string, nat) -> seq<Document>,
                                                    other: (string, nat) -> seq<Document>)
    requires forall b :: b in buckets ==> listing(category, b) == other(category, b)
    ensures BucketsWords(stopWords, buckets, category, listing) == BucketsWords(stopWords, buckets, category, other)
    decreases |buckets|
  {
    if buckets != [] {
      var init := buckets[..|buckets| - 1];
      assert forall b :: b in init ==> b in buckets;
      BucketsWordsIgnoreOthers(stopWords, init, category, listing, other);
    }
  }

  // ---------------------------------------------------------------------
  // Counting

  function Get(m: map<string, nat>, w: string): nat
  {
    if w in m then m[w] else 0
  }

  /** `m.setdefault(w, 0)` followed by `m[w] += 1`. */
  function Increment(m: map<string, nat>, w: string): map<string, nat>
  {
    m[w := Get(m, w) + 1]
  }

  /** m after one increment per word of words, in order. */
  function Tally(m: map<string, nat>, words: seq<string>): map<string, nat>
  {
    if words == [] then m
    else Increment(Tally(m, words[..|words| - 1]), words[|words| - 1])
  }

  lemma TallyStep(m: map<string, nat>, words: seq<string>, x: string)
    ensures Tally(m, words + [x]) == Increment(Tally(m, words), x)
  {
    assert (words + [x])[..|words|] == words;
  }

  /** Tallying two runs of words one after the other is tallying them
      together. */
  lemma {:induction false} TallyAppend(m: map<string, nat>, a: seq<string>, b: seq<string>)
    ensures Tally(Tally(m, a), b) == Tally(m, a + b)
    decreases |b|
  {
    if b == [] {
      assert a + b == a;
    } else {
      var init, x := b[..|b| - 1], b[|b| - 1];
      TallyAppend(m, a, init);
      assert a + b == (a + init) + [x];
      TallyStep(m, a + init, x);
    }
  }

  /** What the increments add up to: the keys are those of m and the words,
      and each word's count grows by its number of occurrences. */
  lemma {:induction false} TallyCounts(m: map<string, nat>, words: seq<string>)
    ensures Tally(m, words).Keys == m.Keys + NaiveBayesian.Distinct(words)
    ensures forall w :: Get(Tally(m, words), w) == Get(m, w) + multiset(words)[w]
    decreases |words|
  {
    if words != [] {
      var init, x := words[..|words| - 1], words[|words| - 1];
      TallyCounts(m, init);
      assert words == init + [x];
      assert multiset(words) == multiset(init) + multiset{x};
      assert NaiveBayesian.Distinct(words) == NaiveBayesian.Distinct(init) + {x};
    }
  }

  /** A count table as the terms of a sum. */
  function CountTerms(m: map<string, nat>): string -> real
  {
    w => Get(m, w) as real
  }

  /** Counting from nothing, the counts add up to the number of words
      counted: the `total` train_directory and train_category return is
      the sum of the counts they return. */
  lemma CountsAddUp(words: seq<string>)
    ensures SetSum(Tally(map[], words).Keys, CountTerms(Tally(map[], words))) == |words| as real
  {
    var t := Tally(map[], words);
    var f := CountTerms(t);
    TallyCounts(map[], words);
    forall w | w in t.Keys ensures f(w) == NaiveBayesian.CountOf(words)(w) {
      assert Get(t, w) == multiset(words)[w];
    }
    SetSumCongruent(t.Keys, f, NaiveBayesian.CountOf(words));
    assert t.Keys == NaiveBayesian.Distinct(words);
    NaiveBayesian.CountsTotal(words);
  }

  /** Every word with a count is a counted word: lower-case letters and
      digits, never a stop word. */
  lemma TallyKeysClean(stopWords: map<string, nat>, m: map<string, nat>, words: seq<string>)
    requires forall w :: w in m ==> CleanWord(stopWords, w)
    requires AllClean(stopWords, words)
    ensures forall w :: w in Tally(m, words) ==> CleanWord(stopWords, w)
  {
    TallyCounts(m, words);
    forall w | w in Tally(m, words) ensures CleanWord(stopWords, w) {
      if w !in m {
        var k :| 0 <= k < |words| && words[k] == w;
      }
    }
  }

  /** The innermost loop of train_directory and train_category: the tokens
      of one line. */
  method CountTokens(stopWords: map<string, nat>, tokens: seq<string>,
                     vocabulary: map<string, nat>, counts: map<string, nat>, total: nat)
    returns (vocabularyAfter: map<string, nat>, countsAfter: map<string, nat>, totalAfter: nat)
    ensures vocabularyAfter == Tally(vocabulary, TokensWords(stopWords, tokens))
    ensures countsAfter == Tally(counts, TokensWords(stopWords, tokens))
    ensures totalAfter == total + |TokensWords(stopWords, tokens)|
  {
    vocabularyAfter, countsAfter, totalAfter := vocabulary, counts, total;
    for i := 0 to |tokens|
      invariant vocabularyAfter == Tally(vocabulary, TokensWords(stopWords, tokens[..i]))
      invariant countsAfter == Tally(counts, TokensWords(stopWords, tokens[..i]))
      invariant totalAfter == total + |TokensWords(stopWords, tokens[..i])|
    {
      ghost var before := TokensWords(stopWords, tokens[..i]);
      ghost var added := CountedWord(stopWords, tokens[i]);
      assert tokens[..i + 1][..i] == tokens[..i];
      assert TokensWords(stopWords, tokens[..i + 1]) == before + added;
      var found := MatchFromText(tokens[i]);
      if found.Some? && Lower(found.value) !in stopWords {
        var word := Lower(found.value);
        assert added == [word];
        TallyStep(vocabulary, before, word);
        TallyStep(counts, before, word);
        vocabularyAfter := Increment(vocabularyAfter, word);
        countsAfter := Increment(countsAfter, word);
        totalAfter := totalAfter + 1;
      } else {
        assert added == [];
        assert before + added == before;
      }
    }
    assert tokens[..|tokens|] == tokens;
  }

  /** The loop over a document's lines. */
  method CountLines(stopWords: map<string, nat>, lines: seq<string>,
                    vocabulary: map<string, nat>, counts: map<string, nat>, total: nat)
    returns (vocabularyAfter: map<string, nat>, countsAfter: map<string, nat>, totalAfter: nat)
    ensures vocabularyAfter == Tally(vocabulary, LinesWords(stopWords, lines))
    ensures countsAfter == Tally(counts, LinesWords(stopWords, lines))
    ensures totalAfter == total + |LinesWords(stopWords, lines)|
  {
    vocabularyAfter, countsAfter, totalAfter := vocabulary, counts, total;
    for i := 0 to |lines|
      invariant vocabularyAfter == Tally(vocabulary, LinesWords(stopWords, lines[..i]))
      invariant countsAfter == Tally(counts, LinesWords(stopWords, lines[..i]))
      invariant totalAfter == total + |LinesWords(stopWords, lines[..i])|
    {
      ghost var before := LinesWords(stopWords, lines[..i]);
      ghost var added := TokensWords(stopWords, Words(lines[i]));
      assert lines[..i + 1][..i] == lines[..i];
      vocabularyAfter, countsAfter, totalAfter := CountTokens(stopWords, Words(lines[i]), vocabularyAfter, countsAfter, totalAfter);
      TallyAppend(vocabulary, before, added);
      TallyAppend(counts, before, added);
      assert LinesWords(stopWords, lines[..i + 1]) == before + added;
    }
    assert lines[..|lines|] == lines;
  }

  /** The loop over the files of a directory. */
  method CountDocuments(stopWords: map<string, nat>, documents: seq<Document>,
                        vocabulary: map<string, nat>, counts: map<string, nat>, total: nat)
    returns (vocabularyAfter: map<string, nat>, countsAfter: map<string, nat>, totalAfter: nat)
    ensures vocabularyAfter == Tally(vocabulary, DocumentsWords(stopWords, documents))
    ensures countsAfter == Tally(counts, DocumentsWords(stopWords, documents))
    ensures totalAfter == total + |DocumentsWords(stopWords, documents)|
  {
    vocabularyAfter, countsAfter, totalAfter := vocabulary, counts, total;
    for i := 0 to |documents|
      invariant vocabularyAfter == Tally(vocabulary, DocumentsWords(stopWords, documents[..i]))
      invariant countsAfter == Tally(counts, DocumentsWords(stopWords, documents[..i]))
      invariant totalAfter == total + |DocumentsWords(stopWords, documents[..i])|
    {
      ghost var before := DocumentsWords(stopWords, documents[..i]);
      ghost var added := LinesWords(stopWords, documents[i]);
      assert documents[..i + 1][..i] == documents[..i];
      vocabularyAfter, countsAfter, totalAfter := CountLines(stopWords, documents[i], vocabularyAfter, countsAfter, totalAfter);
      TallyAppend(vocabulary, before, added);
      TallyAppend(counts, before, added);
      assert DocumentsWords(stopWords, documents[..i + 1]) == before + added;
    }
    assert documents[..|documents|] == documents;
  }

  /** The loop over the buckets train_category trains on. */
  method CountBuckets(stopWords: map<string, nat>, buckets: seq<nat>, category: string,
                      listing: (string, nat) -> seq<Document>,
                      vocabulary: map<string, nat>, counts: map<string, nat>, total: nat)
    returns (vocabularyAfter: map<string, nat>, countsAfter: map<string, nat>, totalAfter: nat)
    ensures vocabularyAfter == Tally(vocabulary, BucketsWords(stopWords, buckets, category, listing))
    ensures countsAfter == Tally(counts, BucketsWords(stopWords, buckets, category, listing))
    ensures totalAfter == total + |BucketsWords(stopWords, buckets, category, listing)|
  {
    vocabularyAfter, countsAfter, totalAfter := vocabulary, counts, total;
    for i := 0 to |buckets|
      invariant vocabularyAfter == Tally(vocabulary, BucketsWords(stopWords, buckets[..i], category, listing))
      invariant countsAfter == Tally(counts, BucketsWords(stopWords, buckets[..i], category, listing))
      invariant totalAfter == total + |BucketsWords(stopWords, buckets[..i], category, listing)|
    {
      ghost var before := BucketsWords(stopWords, buckets[..i], category, listing);
      ghost var added := DocumentsWords(stopWords, listing(category, buckets[i]));
      assert buckets[..i + 1][..i] == buckets[..i];
      vocabularyAfter, countsAfter, totalAfter := CountDocuments(stopWords, listing(category, buckets[i]), vocabularyAfter, countsAfter, totalAfter);
      TallyAppend(vocabulary, before, added);
      TallyAppend(counts, before, added);
      assert BucketsWords(stopWords, buckets[..i + 1], category, listing) == before + added;
    }
    assert buckets[..|buckets|] == buckets;
  }

  // ---------------------------------------------------------------------
  // trim_vocabulary

  /** The vocabulary without the words seen fewer than three times. */
  function Trimmed(vocabulary: map<string, nat>): map<string, nat>
  {
    map w | w in vocabulary && vocabulary[w] >= 3 :: vocabulary[w]
  }

  /** Trimming removes exactly the words counted fewer than three times and
      keeps every other entry as it was. */
  lemma TrimmedExact(vocabulary: map<string, nat>, w: string)
    ensures w in Trimmed(vocabulary) <==> w in vocabulary && vocabulary[w] >= 3
    ensures w in Trimmed(vocabulary) ==> Trimmed(vocabulary)[w] == vocabulary[w]
  {
  }

  /** Trimming twice is trimming once. */
  lemma TrimmedIdempotent(vocabulary: map<string, nat>)
    ensures Trimmed(Trimmed(vocabulary)) == Trimmed(vocabulary)
  {
    assert Trimmed(Trimmed(vocabulary)).Keys == Trimmed(vocabulary).Keys;
  }

  /** The first loop of trim_vocabulary: the words to delete, each once. */
  method RareWords(vocabulary: map<string, nat>) returns (delete: seq<string>)
    ensures forall w :: w in delete <==> w in vocabulary && vocabulary[w] < 3
    ensures forall i, j :: 0 <= i < j < |delete| ==> delete[i] != delete[j]
  {
    delete := [];
    var remaining := vocabulary.Keys;
    while remaining != {}
      invariant remaining <= vocabulary.Keys
      invariant forall w :: w in delete <==> w in vocabulary && w !in remaining && vocabulary[w] < 3
      invariant forall i, j :: 0 <= i < j < |delete| ==> delete[i] != delete[j]
      decreases |remaining|
    {
      var word :| word in remaining;
      if vocabulary[word] < 3 {
        delete := delete + [word];
      }
      remaining := remaining - {word};
    }
  }

  /** The second loop of trim_vocabulary: `del` of each listed word. */
  method DeleteWords(vocabulary: map<string, nat>, delete: seq<string>) returns (r: map<string, nat>)
    requires forall w :: w in delete ==> w in vocabulary
    requires forall i, j :: 0 <= i < j < |delete| ==> delete[i] != delete[j]
    ensures r == vocabulary - NaiveBayesian.Distinct(delete)
  {
    r := vocabulary;
    for i := 0 to |delete|
      invariant r == vocabulary - NaiveBayesian.Distinct(delete[..i])
    {
      assert delete[i] in r by {
        assert forall j :: 0 <= j < i ==> delete[j] != delete[i];
      }
      assert NaiveBayesian.Distinct(delete[..i + 1]) == NaiveBayesian.Distinct(delete[..i]) + {delete[i]};
      r := r - {delete[i]};
    }
    assert delete[..|delete|] == delete;
  }

  // ---------------------------------------------------------------------
  // read_stop_words

  /** `[x.strip() for x in lines if len(x) > 0]`: the test is on the line
      before stripping, so a line of blanks gives the empty word. */
  function StrippedLines(lines: seq<string>): seq<string>
  {
    if lines == [] then []
    else (if |lines[0]| > 0 then [Strip(lines[0])] else []) + StrippedLines(lines[1..])
  }

  /** The stop list a file's text gives: every stripped non-empty line,
      mapped to 0. */
  function StopWordsOf(text: string): map<string, nat>
  {
    map w | w in StrippedLines(Split(text, '\n')) :: 0
  }

  lemma {:induction false} StrippedLinesMembers(lines: seq<string>, w: string)
    ensures w in StrippedLines(lines) <==> exists x :: x in lines && |x| > 0 && Strip(x) == w
    decreases |lines|
  {
    if lines != [] {
      StrippedLinesMembers(lines[1..], w);
      if w in StrippedLines(lines[1..]) {
        var x :| x in lines[1..] && |x| > 0 && Strip(x) == w;
        assert x in lines;
      }
      forall x | x in lines && x != lines[0]
        ensures x in lines[1..]
      {
        var k :| 0 <= k < |lines| && lines[k] == x;
        assert lines[1..][k - 1] == x;
      }
    }
  }

  /** Every non-empty line of the stop-word file, stripped, is a stop word
      with value 0, and nothing else is. */
  lemma StopWordsExact(text: string, w: string)
    ensures w in StopWordsOf(text) <==> exists x :: x in Split(text, '\n') && |x| > 0 && Strip(x) == w
    ensures w in StopWordsOf(text) ==> StopWordsOf(text)[w] == 0
  {
    StrippedLinesMembers(Split(text, '\n'), w);
  }

  // ---------------------------------------------------------------------
  // compute_probabilities

  /** The count a category gives a word: its own, or 1 when the category
      never saw the word. */
  function SmoothedCount(counts: map<string, nat>, w: string): nat
  {
    if w in counts then counts[w] else 1
  }

  /** (count + 1) / (the category's total + the vocabulary size). */
  function WordProbability(counts: map<string, nat>, w: string, denominator: nat): real
    requires denominator > 0
  {
    (SmoothedCount(counts, w) as real + 1.0) / (denominator as real)
  }

  /** A category's probabilities over the given words. */
  function Row(words: set<string>, counts: map<string, nat>, denominator: nat): map<string, real>
    requires words != {} ==> denominator > 0
  {
    map w | w in words :: WordProbability(counts, w, denominator)
  }

  /** One more word done is one more entry. */
  lemma RowStep(words: set<string>, remaining: set<string>, w: string, counts: map<string, nat>, denominator: nat)
    requires denominator > 0 && w in remaining && remaining <= words
    ensures Row(words - (remaining - {w}), counts, denominator)
         == Row(words - remaining, counts, denominator)[w := WordProbability(counts, w, denominator)]
  {
    var done := words - remaining;
    assert words - (remaining - {w}) == done + {w};
    assert Row(done + {w}, counts, denominator).Keys == Row(done, counts, denominator)[w := WordProbability(counts, w, denominator)].Keys;
  }

  lemma RowEmpty(counts: map<string, nat>, denominator: nat)
    ensures Row({}, counts, denominator) == map[]
  {
  }

  lemma SizeOfNonEmpty(vocabulary: map<string, nat>)
    requires vocabulary != map[]
    ensures |vocabulary| > 0
  {
    var w :| w in vocabulary;
    assert vocabulary.Keys != {};
  }

  /** The probabilities of one category over the whole vocabulary. */
  function CategoryProbabilities(vocabulary: map<string, nat>, counts: map<string, nat>, total: nat): map<string, real>
  {
    if vocabulary == map[] then map[]
    else
      SizeOfNonEmpty(vocabulary);
      Row(vocabulary.Keys, counts, total + |vocabulary|)
  }

  /** What compute_probabilities needs: a total for every category and,
      when the vocabulary is not empty, its word counts. */
  predicate ProbabilitiesDefined(categories: seq<string>, totals: map<string, nat>,
                                 wordCounts: map<string, map<string, nat>>, vocabulary: map<string, nat>)
  {
    forall c :: c in categories ==> c in totals && (vocabulary != map[] ==> c in wordCounts)
  }

  function CountsOf(wordCounts: map<string, map<string, nat>>, c: string): map<string, nat>
  {
    if c in wordCounts then wordCounts[c] else map[]
  }

  /** The table compute_probabilities builds. */
  function Probabilities(categories: seq<string>, totals: map<string, nat>,
                         wordCounts: map<string, map<string, nat>>, vocabulary: map<string, nat>): map<string, map<string, real>>
    requires ProbabilitiesDefined(categories, totals, wordCounts, vocabulary)
  {
    map c | c in categories :: CategoryProbabilities(vocabulary, CountsOf(wordCounts, c), totals[c])
  }

  /** The probabilities of a category are exactly over the vocabulary, each
      (count + 1) / (total + |vocabulary|), positive, and at most 1 when
      the count stays below the denominator. */
  lemma CategoryProbabilitiesValues(vocabulary: map<string, nat>, counts: map<string, nat>, total: nat, w: string)
    ensures w in CategoryProbabilities(vocabulary, counts, total) <==> w in vocabulary
    ensures w in vocabulary ==>
      && |vocabulary| > 0
      && CategoryProbabilities(vocabulary, counts, total)[w]
         == (SmoothedCount(counts, w) as real + 1.0) / ((total + |vocabulary|) as real)
      && CategoryProbabilities(vocabulary, counts, total)[w] > 0.0
      && (SmoothedCount(counts, w) < total + |vocabulary| ==> CategoryProbabilities(vocabulary, counts, total)[w] <= 1.0)
  {
    if w in vocabulary {
      SizeOfNonEmpty(vocabulary);
      var d := (total + |vocabulary|) as real;
      var n := SmoothedCount(counts, w) as real + 1.0;
      if SmoothedCount(counts, w) < total + |vocabulary| {
        Reals.QuotientInUnitInterval(n, d);
      } else {
        Reals.QuotientMonotone(d, n, d);
        Reals.QuotientSelf(d);
      }
    }
  }

  /** A word the category never saw gets the probability of a word it saw
      once, and a word seen more often never gets less. */
  lemma ProbabilitiesOrdered(vocabulary: map<string, nat>, counts: map<string, nat>, total: nat, u: string, v: string)
    requires u in vocabulary && v in vocabulary && v in counts
    requires if u in counts then counts[u] <= counts[v] else counts[v] == 1
    ensures CategoryProbabilities(vocabulary, counts, total)[u] <= CategoryProbabilities(vocabulary, counts, total)[v]
    ensures u !in counts ==> CategoryProbabilities(vocabulary, counts, total)[u] == CategoryProbabilities(vocabulary, counts, total)[v]
  {
    CategoryProbabilitiesValues(vocabulary, counts, total, u);
    CategoryProbabilitiesValues(vocabulary, counts, total, v);
    Reals.QuotientMonotone(SmoothedCount(counts, u) as real + 1.0, SmoothedCount(counts, v) as real + 1.0, (total + |vocabulary|) as real);
  }

  /** The inner loop of compute_probabilities: one category over the
      vocabulary, in the dictionary's order. */
  method CategoryRow(vocabulary: map<string, nat>, counts: map<string, nat>, total: nat)
    returns (row: map<string, real>)
    ensures row == CategoryProbabilities(vocabulary, counts, total)
  {
    var denominator := total + |vocabulary|;
    row := map[];
    var remaining := vocabulary.Keys;
    RowEmpty(counts, denominator);
    assert vocabulary.Keys - remaining == {};
    while remaining != {}
      invariant remaining <= vocabulary.Keys
      invariant row == Row(vocabulary.Keys - remaining, counts, denominator)
      decreases |remaining|
    {
      var word :| word in remaining;
      SizeOfNonEmpty(vocabulary);
      var count := if word in counts then counts[word] else 1;
      var numerator := count as real + 1.0;
      var p := numerator / denominator as real;
      RowStep(vocabulary.Keys, remaining, word, counts, denominator);
      row := row[word := p];
      remaining := remaining - {word};
    }
    assert vocabulary.Keys - remaining == vocabulary.Keys;
  }

  /** The first loop of compute_probabilities: an empty row per category. */
  method EmptyTable(categories: seq<string>) returns (table: map<string, map<string, real>>)
    ensures table.Keys == NaiveBayesian.Distinct(categories)
    ensures forall c :: c in table ==> table[c] == map[]
  {
    table := map[];
    for i := 0 to |categories|
      invariant table.Keys == NaiveBayesian.Distinct(categories[..i])
      invariant forall c :: c in table ==> table[c] == map[]
    {
      assert NaiveBayesian.Distinct(categories[..i + 1]) == NaiveBayesian.Distinct(categories[..i]) + {categories[i]};
      table := table[categories[i] := map[]];
    }
    assert categories[..|categories|] == categories;
  }

  /** A table with a row per category, each the category's probabilities,
      is the one compute_probabilities builds. */
  lemma TableIsProbabilities(table: map<string, map<string, real>>, categories: seq<string>, totals: map<string, nat>,
                             wordCounts: map<string, map<string, nat>>, vocabulary: map<string, nat>)
    requires ProbabilitiesDefined(categories, totals, wordCounts, vocabulary)
    requires table.Keys == NaiveBayesian.Distinct(categories)
    requires forall c :: c in categories ==> table[c] == CategoryProbabilities(vocabulary, CountsOf(wordCounts, c), totals[c])
    ensures table == Probabilities(categories, totals, wordCounts, vocabulary)
  {
    assert table.Keys == Probabilities(categories, totals, wordCounts, vocabulary).Keys;
  }

  /** The loops of compute_probabilities, on values: the new table, or
      KeyError for the first category without a total or, over a
      non-empty vocabulary, without word counts. */
  method ProbabilityTable(categories: seq<string>, totals: map<string, nat>,
                          wordCounts: map<string, map<string, nat>>, vocabulary: map<string, nat>)
    returns (table: map<string, map<string, real>>, r: Result<()>)
    ensures r.Ok? <==> ProbabilitiesDefined(categories, totals, wordCounts, vocabulary)
    ensures r.Err? ==> r.error == KeyError
    ensures r.Ok? ==> table == Probabilities(categories, totals, wordCounts, vocabulary)
  {
    table := EmptyTable(categories);
    for i := 0 to |categories|
      invariant ProbabilitiesDefined(categories[..i], totals, wordCounts, vocabulary)
      invariant table.Keys == NaiveBayesian.Distinct(categories)
      invariant forall c :: c in categories[..i] ==> table[c] == CategoryProbabilities(vocabulary, CountsOf(wordCounts, c), totals[c])
    {
      var category := categories[i];
      assert forall c :: c in categories[..i + 1] <==> c in categories[..i] || c == category;
      if category !in totals {
        return table, Err(KeyError);
      }
      var n := totals[category];
      var counts := map[];
      if vocabulary != map[] {
        if category !in wordCounts {
          return table, Err(KeyError);
        }
        counts := wordCounts[category];
      }
      var row := CategoryRow(vocabulary, counts, n);
      table := table[category := row];
    }
    assert categories[..|categories|] == categories;
    TableIsProbabilities(table, categories, totals, wordCounts, vocabulary);
    r := Ok(());
  }

  // ---------------------------------------------------------------------
  // The corpus

  class TrainingCorpus {
    const name: string
    var categories: seq<string>
    /** category -> word -> probability */
    var probabilities: map<string, map<string, real>>
    /** word -> 0, for every stop word */
    var stopWords: map<string, nat>
    /** category -> the number of words counted for it */
    var totals: map<string, nat>
    /** word -> the number of times it was counted, over all categories */
    var vocabulary: map<string, nat>
    /** category -> word -> count */
    var wordCounts: map<string, map<string, nat>>
    /** The bucket count; the inherited fold cross-validator starts it at
        10. */
    var numberOfBuckets: nat

    constructor (name: string)
      ensures this.name == name
      ensures categories == [] && probabilities == map[] && stopWords == map[]
      ensures totals == map[] && vocabulary == map[] && wordCounts == map[]
      ensures numberOfBuckets == 10
    {
      this.name := name;
      categories := [];
      probabilities := map[];
      stopWords := map[];
      totals := map[];
      vocabulary := map[];
      wordCounts := map[];
      numberOfBuckets := 10;
    }

    /** The stop list from the text of its file. */
    method ReadStopWords(text: string)
      modifies this`stopWords
      ensures stopWords == StopWordsOf(text)
    {
      var lines := Split(text, '\n');
      var kept := StrippedLines(lines);
      stopWords := map w | w in kept :: 0;
    }

    /** Counts the words of one category's documents, adding them to the
        vocabulary; returns the category's counts and their total. */
    method TrainDirectory(documents: seq<Document>) returns (counts: map<string, nat>, total: nat)
      modifies this`vocabulary
      ensures vocabulary == Tally(old(vocabulary), DocumentsWords(stopWords, documents))
      ensures counts == Tally(map[], DocumentsWords(stopWords, documents))
      ensures total == |DocumentsWords(stopWords, documents)|
    {
      counts, total := map[], 0;
      vocabulary, counts, total := CountDocuments(stopWords, documents, vocabulary, counts, total);
    }

    /** The header of fold_cross_validation: the bucket count and the
        category directories. */
    method SetUpFolds(buckets: nat, listed: seq<string>)
      modifies this`numberOfBuckets, this`categories
      ensures numberOfBuckets == buckets && categories == listed
    {
      numberOfBuckets := buckets;
      categories := listed;
    }

    /** Counts the words of a category's documents in every bucket but the
        excluded one, ascending, adding them to the vocabulary; returns the
        category's counts and their total. */
    method TrainCategory(category: string, exclude: nat, listing: (string, nat) -> seq<Document>)
      returns (counts: map<string, nat>, total: nat)
      modifies this`vocabulary
      ensures var words := BucketsWords(stopWords, FoldCrossValidating.TrainingBuckets(numberOfBuckets, exclude), category, listing);
        && counts == Tally(map[], words) && total == |words|
        && vocabulary == Tally(old(vocabulary), words)
    {
      var buckets := FoldCrossValidating.TrainingBuckets(numberOfBuckets, exclude);
      vocabulary, counts, total := CountBuckets(stopWords, buckets, category, listing, vocabulary, map[], 0);
    }

    /** Deletes every word counted fewer than three times. */
    method TrimVocabulary()
      modifies this`vocabulary
      ensures vocabulary == Trimmed(old(vocabulary))
    {
      var delete := RareWords(vocabulary);
      vocabulary := DeleteWords(vocabulary, delete);
      assert vocabulary.Keys == Trimmed(old(vocabulary)).Keys;
    }

    /** Replaces the probability table; on a KeyError it stays as it was. */
    method ComputeProbabilities() returns (r: Result<()>)
      modifies this`probabilities
      ensures r.Ok? <==> ProbabilitiesDefined(categories, totals, wordCounts, vocabulary)
      ensures r.Err? ==> r.error == KeyError && probabilities == old(probabilities)
      ensures r.Ok? ==> probabilities == Probabilities(categories, totals, wordCounts, vocabulary)
    {
      var table;
      table, r := ProbabilityTable(categories, totals, wordCounts, vocabulary);
      if r.Ok? {
        probabilities := table;
      }
    }
  }

  /** Training from empty counts gives words that are all counted words and
      whose counts add up to the total returned. */
  lemma TrainedCounts(stopWords: map<string, nat>, documents: seq<Document>)
    ensures var words := DocumentsWords(stopWords, documents);
      && (forall w :: w in Tally(map[], words) ==> CleanWord(stopWords, w))
      && SetSum(Tally(map[], words).Keys, CountTerms(Tally(map[], words))) == |words| as real
  {
    DocumentsWordsClean(stopWords, documents);
    TallyKeysClean(stopWords, map[], DocumentsWords(stopWords, documents));
    CountsAddUp(DocumentsWords(stopWords, documents));
  }

  /** The excluded bucket's documents never reach a category's counts. */
  lemma HeldOutIgnored(stopWords: map<string, nat>, n: nat, exclude: nat, category: string,
                       listing: (string, nat) -> seq<Document>, other: (string, nat) -> seq<Document>)
    requires forall b: nat :: b != exclude ==> listing(category, b) == other(category, b)
    ensures BucketsWords(stopWords, FoldCrossValidating.TrainingBuckets(n, exclude), category, listing)
         == BucketsWords(stopWords, FoldCrossValidating.TrainingBuckets(n, exclude), category, other)
  {
    BucketsWordsIgnoreOthers(stopWords, FoldCrossValidating.TrainingBuckets(n, exclude), category, listing, other);
  }
}
