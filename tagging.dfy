/** The lexical half of the content script (src/content/content-script.js):
    which pieces of page text are English words, which part-of-speech tag each
    gets, whether a page looks English, and how a text node is cut into pieces,
    wrapped in tagged spans and unwrapped again. DOM nodes are modelled as a
    sequence of tokens. */
module Tagging {
  import opened Strings

  // ---------------------------------------------------------------------
  // Tags

  /** The tags the local classifier hands out. */
  datatype Tag = Noun | Verb | Adverb | Preposition | Pronoun | Conjunction | Determiner

  /** The value of a span's `data-pos` attribute and the suffix of its CSS class. */
  function TagName(t: Tag): string {
    match t
    case Noun => "noun"
    case Verb => "verb"
    case Adverb => "adverb"
    case Preposition => "preposition"
    case Pronoun => "pronoun"
    case Conjunction => "conjunction"
    case Determiner => "determiner"
  }

  /** The class attribute of a word span: `ela-word ela-<tag>`. */
  function ClassName(t: Tag): string {
    "ela-word ela-" + TagName(t)
  }

  /** The classifier never produces the adjective tag. This holds by the type
      alone: `Tag` has no adjective member, since no rule of the classifier
      returns one, and no tag's name spells "adjective". */
  lemma {:induction false} NeverAdjective(word: string)
    ensures TagName(GuessPartOfSpeech(word)) != "adjective"
  {
    var t := GuessPartOfSpeech(word);
    assert TagName(t)[0] != 'a' || TagName(t) == "adverb";
  }

  // ---------------------------------------------------------------------
  // isEnglishWord

  predicate IsAsciiLetter(c: char) {
    IsLowerAscii(c) || IsUpperAscii(c)
  }

  /** `isEnglishWord`: the trimmed, lower-cased word is two or more letters a to z. */
  predicate IsEnglishWord(word: string) {
    var clean := ToLower(Trim(word));
    (forall i :: 0 <= i < |clean| ==> IsLowerAscii(clean[i])) && |clean| > 1
  }

  /** The same test stated on the word as written: its trim is at least two
      ASCII letters, of either case. */
  lemma EnglishWordIsLetters(word: string)
    ensures IsEnglishWord(word) <==>
      |Trim(word)| >= 2 && forall i :: 0 <= i < |Trim(word)| ==> IsAsciiLetter(Trim(word)[i])
  {
    var t := Trim(word);
    assert forall i :: 0 <= i < |t| ==> ToLower(t)[i] == LowerChar(t[i]);
  }

  /** The empty string and single letters are not English words, even padded. */
  lemma TooShortWords()
    ensures !IsEnglishWord("") && !IsEnglishWord("a") && !IsEnglishWord(" I ")
  {
    assert Trim("a") == "a";
    assert TrimStart(" I ") == "I " && Trim(" I ") == "I";
  }

  /** Digits, apostrophes, hyphens and non-ASCII letters disqualify a word. */
  lemma DigitsRejected()
    ensures !IsEnglishWord("42")
  {
    NonLetterRejected("42", 0);
  }

  lemma ApostropheRejected()
    ensures !IsEnglishWord("don't")
  {
    NonLetterRejected("don't", 3);
  }

  lemma HyphenRejected()
    ensures !IsEnglishWord("co-op")
  {
    NonLetterRejected("co-op", 2);
  }

  lemma AccentRejected()
    ensures !IsEnglishWord("caf\U{E9}")
  {
    NonLetterRejected("caf\U{E9}", 3);
  }

  /** A word without white space that holds a character other than an ASCII
      letter is not an English word. */
  lemma NonLetterRejected(w: string, k: nat)
    requires NoSpace(w) && k < |w| && !IsAsciiLetter(w[k])
    ensures !IsEnglishWord(w)
  {
    TrimNoSpace(w);
    EnglishWordIsLetters(w);
  }

  /** Surrounding white space and capitals do not stop a word from counting. */
  lemma AcceptedWord()
    ensures IsEnglishWord(" Hello\n")
  {
    assert TrimStart(" Hello\n") == "Hello\n";
    assert Trim(" Hello\n") == "Hello";
    assert ToLower("Hello") == "hello";
  }

  // ---------------------------------------------------------------------
  // guessPartOfSpeech

  const Prepositions: seq<string> :=
    ["in", "on", "at", "by", "for", "with", "from", "to", "of", "about", "under", "over"]
  const Pronouns: seq<string> :=
    ["i", "you", "he", "she", "it", "we", "they", "me", "him", "her", "us", "them"]
  const Conjunctions: seq<string> :=
    ["and", "or", "but", "so", "because", "although", "while"]
  const Determiners: seq<string> :=
    ["the", "a", "an", "this", "that", "these", "those", "my", "your", "his", "her", "its", "our", "their"]

  predicate HasVerbSuffix(w: string) {
    EndsWith(w, "ing") || EndsWith(w, "ed") || EndsWith(w, "s")
  }

  /** `guessPartOfSpeech`: the rules applied to the lower-cased word. */
  function GuessPartOfSpeech(word: string): Tag {
    GuessLower(ToLower(word))
  }

  /** The rules of `guessPartOfSpeech` on a lower-cased word: suffix rules
      first, then the word lists in order, noun by default. */
  function GuessLower(w: string): Tag {
    if HasVerbSuffix(w) then Verb
    else if EndsWith(w, "ly") then Adverb
    else if w in Prepositions then Preposition
    else if w in Pronouns then Pronoun
    else if w in Conjunctions then Conjunction
    else if w in Determiners then Determiner
    else Noun
  }

  /** The tag depends only on the lower-cased word. */
  lemma GuessIgnoresCase(word: string)
    ensures GuessPartOfSpeech(ToLower(word)) == GuessPartOfSpeech(word)
  {
    ToLowerIdempotent(word);
    assert ToLower(ToLower(word)) == ToLower(word);
  }

  /** What remains of the pronoun list once the verb rule has taken "us". */
  const TaggedPronouns: seq<string> :=
    ["i", "you", "he", "she", "it", "we", "they", "me", "him", "her", "them"]
  /** What remains of the determiner list once the verb rule has taken "this",
      "his" and "its" and the pronoun rule has taken "her". */
  const TaggedDeterminers: seq<string> :=
    ["the", "a", "an", "that", "these", "those", "my", "your", "our", "their"]

  /** The rule order, stated as which words end up with which tag: the verb
      suffixes win over every list, "ly" over the lists, and every list only
      keeps the words that no earlier rule took. */
  lemma GuessCharacterised(word: string)
    ensures var w, t := ToLower(word), GuessPartOfSpeech(word);
      && (t == Verb <==> HasVerbSuffix(w))
      && (t == Adverb <==> !HasVerbSuffix(w) && EndsWith(w, "ly"))
      && (t == Preposition <==> w in Prepositions)
      && (t == Pronoun <==> w in TaggedPronouns)
      && (t == Conjunction <==> w in Conjunctions)
      && (t == Determiner <==> w in TaggedDeterminers)
  {
    var w := ToLower(word);
    if w in Prepositions {
      PrepositionFacts(w);
    }
    if w in TaggedPronouns {
      PronounFacts(w);
    } else if w in Pronouns && !HasVerbSuffix(w) {
      PronounRest(w);
    }
    if w in Conjunctions {
      ConjunctionFacts(w);
    }
    if w in TaggedDeterminers {
      DeterminerFacts(w);
    } else if w in Determiners && !HasVerbSuffix(w) && w !in Pronouns {
      DeterminerRest(w);
    }
  }

  lemma PrepositionFacts(w: string)
    requires w in Prepositions
    ensures !HasVerbSuffix(w) && !EndsWith(w, "ly")
  {
  }

  lemma PronounFacts(w: string)
    requires w in TaggedPronouns
    ensures !HasVerbSuffix(w) && !EndsWith(w, "ly") && w in Pronouns && w !in Prepositions
  {
  }

  /** "us" is the only pronoun the verb rule takes. */
  lemma PronounRest(w: string)
    requires w in Pronouns && !HasVerbSuffix(w)
    ensures w in TaggedPronouns
  {
  }

  lemma ConjunctionFacts(w: string)
    requires w in Conjunctions
    ensures !HasVerbSuffix(w) && !EndsWith(w, "ly") && w !in Prepositions && w !in Pronouns
  {
  }

  lemma DeterminerFacts(w: string)
    requires w in TaggedDeterminers
    ensures !HasVerbSuffix(w) && !EndsWith(w, "ly") && w in Determiners
    ensures w !in Prepositions && w !in Pronouns && w !in Conjunctions
  {
    DeterminerSuffixes(w);
    DeterminerNotListed(w);
  }

  lemma DeterminerSuffixes(w: string)
    requires w in TaggedDeterminers
    ensures !HasVerbSuffix(w) && !EndsWith(w, "ly") && w in Determiners
  {
  }

  lemma DeterminerNotListed(w: string)
    requires w in TaggedDeterminers
    ensures w !in Prepositions && w !in Pronouns && w !in Conjunctions
  {
  }

  /** "this", "his" and "its" go to the verb rule and "her" to the pronoun rule. */
  lemma DeterminerRest(w: string)
    requires w in Determiners && !HasVerbSuffix(w) && w !in Pronouns
    ensures w in TaggedDeterminers
  {
  }

  /** The verb rule takes "this", "its", "his" and "us" before the lists are consulted. */
  lemma VerbRuleShadowsLists()
    ensures GuessPartOfSpeech("this") == Verb && GuessPartOfSpeech("its") == Verb
    ensures GuessPartOfSpeech("his") == Verb && GuessPartOfSpeech("us") == Verb
  {
    assert ToLower("this") == "this" && EndsWith("this", "s");
    assert ToLower("its") == "its" && EndsWith("its", "s");
    assert ToLower("his") == "his" && EndsWith("his", "s");
    assert ToLower("us") == "us" && EndsWith("us", "s");
  }

  /** "her" is on both the pronoun and the determiner list; the pronoun list comes first. */
  lemma HerIsPronoun()
    ensures GuessPartOfSpeech("Her") == Pronoun
  {
    assert ToLower("Her") == "her";
  }

  /** Capitals do not hide the adverb suffix; a word no rule takes is a noun. */
  lemma AdverbAndNoun()
    ensures GuessPartOfSpeech("Quickly") == Adverb && GuessPartOfSpeech("table") == Noun
  {
    QuicklyIsAdverb();
    TableIsNoun();
  }

  lemma QuicklyIsAdverb()
    ensures GuessPartOfSpeech("Quickly") == Adverb
  {
    assert ToLower("Quickly") == "quickly";
    assert !HasVerbSuffix("quickly") && EndsWith("quickly", "ly");
  }

  lemma TableIsNoun()
    ensures GuessPartOfSpeech("table") == Noun
  {
    assert ToLower("table") == "table";
    TablePlain();
    TableUnlisted();
  }

  lemma TablePlain()
    ensures !HasVerbSuffix("table") && !EndsWith("table", "ly")
  {
  }

  lemma TableUnlisted()
    ensures "table" !in Prepositions && "table" !in Pronouns
    ensures "table" !in Conjunctions && "table" !in Determiners
  {
  }

  // ---------------------------------------------------------------------
  // detectEnglishText

  /** Length of the run of non-white-space characters at the front of `s`. */
  function WordLength(s: string): (n: nat)
    ensures n <= |s|
    ensures forall i :: 0 <= i < n ==> !IsSpace(s[i])
    ensures n < |s| ==> IsSpace(s[n])
  {
    if s == [] || IsSpace(s[0]) then 0 else 1 + WordLength(s[1..])
  }

  /** `s.split(/\s+/).filter(w => w.length > 0)`: the maximal runs of
      non-white-space characters, left to right. */
  function Words(s: string): (ws: seq<string>)
    ensures forall i :: 0 <= i < |ws| ==> ws[i] != [] && NoSpace(ws[i])
    decreases |s|
  {
    if s == [] then []
    else if IsSpace(s[0]) then Words(s[1..])
    else
      var n := WordLength(s);
      [s[..n]] + Words(s[n..])
  }

  lemma {:induction false} NonSpaceOfNoSpace(s: string)
    requires NoSpace(s)
    ensures NonSpace(s) == s
  {
    if s != [] {
      NonSpaceOfNoSpace(s[1..]);
    }
  }

  /** The words hold every non-white-space character of the text, in order,
      and nothing else. */
  lemma {:induction false} WordsKeepText(s: string)
    ensures Concat(Words(s)) == NonSpace(s)
    decreases |s|
  {
    if s != [] {
      if IsSpace(s[0]) {
        WordsKeepText(s[1..]);
      } else {
        var n := WordLength(s);
        WordsKeepText(s[n..]);
        assert s == s[..n] + s[n..];
        NonSpaceAppend(s[..n], s[n..]);
        NonSpaceOfNoSpace(s[..n]);
        assert Words(s) == [s[..n]] + Words(s[n..]);
        assert ([s[..n]] + Words(s[n..]))[1..] == Words(s[n..]);
      }
    }
  }

  /** The text laid out as white-space gaps around its words: the gaps are
      white space, the gaps between two words are not empty, and the words
      are non-empty and hold no white space. */
  predicate WordLayout(gaps: seq<string>, ws: seq<string>) {
    && |gaps| == |ws| + 1
    && (forall k :: 0 <= k < |gaps| ==> AllSpace(gaps[k]))
    && (forall k :: 0 < k < |ws| ==> gaps[k] != [])
    && (forall k :: 0 <= k < |ws| ==> ws[k] != [] && NoSpace(ws[k]))
  }

  /** The gaps and the words, in order, joined. */
  function Interleave(gaps: seq<string>, ws: seq<string>): string
    requires |gaps| == |ws| + 1
    decreases |ws|
  {
    if ws == [] then gaps[0] else gaps[0] + ws[0] + Interleave(gaps[1..], ws[1..])
  }

  lemma {:induction false} WordsSkipSpace(g: string, x: string)
    requires AllSpace(g)
    ensures Words(g + x) == Words(x)
    decreases |g|
  {
    if g != [] {
      assert (g + x)[1..] == g[1..] + x;
      WordsSkipSpace(g[1..], x);
    } else {
      assert g + x == x;
    }
  }

  lemma WordsCons(w: string, r: string)
    requires w != [] && NoSpace(w)
    requires r == [] || IsSpace(r[0])
    ensures Words(w + r) == [w] + Words(r)
  {
    var s := w + r;
    WordLengthPrefix(w, r);
    assert s[..|w|] == w && s[|w|..] == r;
  }

  lemma {:induction false} WordLengthPrefix(w: string, r: string)
    requires NoSpace(w) && (r == [] || IsSpace(r[0]))
    ensures WordLength(w + r) == |w|
    decreases |w|
  {
    if w == [] {
      assert w + r == r;
    } else {
      assert (w + r)[1..] == w[1..] + r;
      WordLengthPrefix(w[1..], r);
    }
  }

  /** A word runs up to the next white space: whenever the text is laid out
      as gaps and words, those are the words `Words` finds. */
  lemma {:induction false} WordsUnique(s: string, gaps: seq<string>, ws: seq<string>)
    requires WordLayout(gaps, ws) && s == Interleave(gaps, ws)
    ensures Words(s) == ws
    decreases |ws|
  {
    if ws == [] {
      WordsSkipSpace(gaps[0], []);
      assert gaps[0] + [] == gaps[0];
    } else {
      var r := Interleave(gaps[1..], ws[1..]);
      assert s == gaps[0] + (ws[0] + r);
      WordsSkipSpace(gaps[0], ws[0] + r);
      LayoutRest(gaps, ws);
      WordsCons(ws[0], r);
      WordsUnique(r, gaps[1..], ws[1..]);
      assert [ws[0]] + ws[1..] == ws;
    }
  }

  /** What follows the first word of a layout is a layout that starts with
      white space or is empty. */
  lemma LayoutRest(gaps: seq<string>, ws: seq<string>)
    requires WordLayout(gaps, ws) && ws != []
    ensures WordLayout(gaps[1..], ws[1..])
    ensures var r := Interleave(gaps[1..], ws[1..]); r == [] || IsSpace(r[0])
  {
    if |ws| > 1 {
      var r := Interleave(gaps[1..], ws[1..]);
      assert r == gaps[1] + (ws[1] + Interleave(gaps[2..], ws[2..]));
      assert r[0] == gaps[1][0];
    }
  }

  /** A white-space character in front of a layout joins its first gap. */
  lemma LayoutSpace(c: char, gaps: seq<string>, ws: seq<string>)
    requires IsSpace(c) && WordLayout(gaps, ws)
    ensures var gaps' := [[c] + gaps[0]] + gaps[1..];
      WordLayout(gaps', ws) && Interleave(gaps', ws) == [c] + Interleave(gaps, ws)
  {
    var gaps' := [[c] + gaps[0]] + gaps[1..];
    assert gaps'[1..] == gaps[1..];
    assert forall k :: 1 <= k < |gaps'| ==> gaps'[k] == gaps[k];
  }

  /** A word in front of a layout whose text does not go on with it starts a
      layout with an empty first gap. */
  lemma LayoutWord(w: string, gaps: seq<string>, ws: seq<string>)
    requires w != [] && NoSpace(w) && WordLayout(gaps, ws)
    requires var r := Interleave(gaps, ws); r == [] || IsSpace(r[0])
    ensures WordLayout([[]] + gaps, [w] + ws)
    ensures Interleave([[]] + gaps, [w] + ws) == w + Interleave(gaps, ws)
  {
    var gaps', ws' := [[]] + gaps, [w] + ws;
    assert gaps'[1..] == gaps && ws'[1..] == ws;
    assert ws != [] ==> Interleave(gaps, ws) == gaps[0] + (ws[0] + Interleave(gaps[1..], ws[1..]));
    assert ws != [] ==> gaps[0] != [];
    assert forall k :: 1 <= k < |gaps'| ==> gaps'[k] == gaps[k - 1];
  }

  /** Letters that no white space parts are one word. */
  lemma OneWord()
    ensures Words("ab") == ["ab"]
  {
    var gaps, ws := ["", ""], ["ab"];
    assert Interleave(gaps, ws) == "" + "ab" + Interleave(gaps[1..], ws[1..]);
    WordsUnique("ab", gaps, ws);
  }

  /** The white space around and between the words of `s`. */
  function WordGaps(s: string): (gaps: seq<string>)
    ensures |gaps| >= 1
    decreases |s|
  {
    if s == [] then [[]]
    else if IsSpace(s[0]) then
      var g := WordGaps(s[1..]);
      [[s[0]] + g[0]] + g[1..]
    else [[]] + WordGaps(s[WordLength(s)..])
  }

  /** Every text has such a layout: its gaps around the words `Words` finds. */
  lemma {:induction false} WordGapsLayout(s: string)
    ensures WordLayout(WordGaps(s), Words(s)) && Interleave(WordGaps(s), Words(s)) == s
    decreases |s|
  {
    if s == [] {
    } else if IsSpace(s[0]) {
      WordGapsLayout(s[1..]);
      LayoutSpace(s[0], WordGaps(s[1..]), Words(s[1..]));
      assert [s[0]] + s[1..] == s;
    } else {
      var n := WordLength(s);
      var w, r := s[..n], s[n..];
      assert Words(s) == [w] + Words(r);
      WordGapsLayout(r);
      LayoutWord(w, WordGaps(r), Words(r));
      assert w + r == s;
    }
  }

  const CommonWords: seq<string> :=
    ["the", "and", "or", "but", "in", "on", "at", "to", "for", "of", "with", "by", "from",
     "is", "are", "was", "were", "be", "been", "have", "has", "had", "do", "does", "did",
     "will", "would", "could", "should", "this", "that", "these", "those", "a", "an"]

  /** The characters a to z of `s`, in order (`replace(/[^a-z]/g, '')`). */
  function KeepLetters(s: string): (r: string)
    ensures |r| <= |s|
    ensures forall i :: 0 <= i < |r| ==> IsLowerAscii(r[i])
  {
    if s == [] then [] else (if IsLowerAscii(s[0]) then [s[0]] else []) + KeepLetters(s[1..])
  }

  /** A sampled word as it is compared with the common-word list. */
  function SampleForm(w: string): string {
    KeepLetters(ToLower(w))
  }

  /** How many of `ws` are common English words after normalisation. */
  function CommonCount(ws: seq<string>): (n: nat)
    ensures n <= |ws|
  {
    if ws == [] then 0
    else CommonCount(ws[..|ws| - 1]) + (if SampleForm(ws[|ws| - 1]) in CommonWords then 1 else 0)
  }

  /** The count over consecutive parts of a sample adds up. */
  lemma {:induction false} CommonCountAppend(a: seq<string>, b: seq<string>)
    ensures CommonCount(a + b) == CommonCount(a) + CommonCount(b)
    decreases |b|
  {
    if b == [] {
      assert a + b == a;
    } else {
      assert (a + b)[..|a + b| - 1] == a + b[..|b| - 1];
      CommonCountAppend(a, b[..|b| - 1]);
    }
  }

  lemma CommonCountStep(ws: seq<string>, i: nat)
    requires i < |ws|
    ensures CommonCount(ws[..i + 1])
      == CommonCount(ws[..i]) + (if SampleForm(ws[i]) in CommonWords then 1 else 0)
  {
    assert ws[..i + 1][..i] == ws[..i];
  }

  /** Punctuation and capitals around a common word do not hide it. */
  lemma SampleFormExamples()
    ensures SampleForm("The") == "the" && SampleForm("(and),") == "and"
  {
    CapitalDropped();
    PunctuationDropped();
  }

  lemma CapitalDropped()
    ensures SampleForm("The") == "the"
  {
    assert ToLower("The") == "the";
  }

  lemma PunctuationDropped()
    ensures SampleForm("(and),") == "and"
  {
    assert ToLower("(and),") == "(and),";
  }


  /** The verdict of `detectEnglishText`: at least ten words, and at least
      three common words among the first fifty. */
  predicate LooksEnglish(text: string) {
    var words := Words(text);
    |words| >= 10 && CommonCount(words[..Min(50, |words|)]) >= 3
  }

  /** `detectEnglishText` on the page's text, counting the common words of the
      sample one by one. */
  method DetectEnglishText(text: string) returns (english: bool)
    ensures |Words(text)| < 10 ==> !english
    ensures english == LooksEnglish(text)
  {
    var words := Words(text);
    if |words| < 10 {
      return false;
    }
    var sample := words[..Min(50, |words|)];
    var count := 0;
    for i := 0 to |sample|
      invariant count == CommonCount(sample[..i])
    {
      CommonCountStep(sample, i);
      if SampleForm(sample[i]) in CommonWords {
        count := count + 1;
      }
    }
    assert sample[..|sample|] == sample;
    english := count >= 3;
  }

  // ---------------------------------------------------------------------
  // processTextNode: splitting

  /** The characters of the class `[.,!?;:()\-"']`. */
  predicate IsPunct(c: char) {
    c == '.' || c == ',' || c == '!' || c == '?' || c == ';' || c == ':'
    || c == '(' || c == ')' || c == '-' || c == '"' || c == '\''
  }

  /** A character the splitting pattern `(\s+|[.,!?;:()\-"'])` can match. */
  predicate IsSeparator(c: char) {
    IsSpace(c) || IsPunct(c)
  }

  predicate NoSeparator(s: string) {
    forall i :: 0 <= i < |s| ==> !IsSeparator(s[i])
  }

  predicate AllSpace(s: string) {
    forall i :: 0 <= i < |s| ==> IsSpace(s[i])
  }

  /** A non-empty run of white space. */
  predicate IsSpaceRun(p: string) {
    p != [] && AllSpace(p)
  }

  /** One match of the splitting pattern: a run of white space or one punctuation mark. */
  predicate IsSeparatorPiece(p: string) {
    (|p| == 1 && IsPunct(p[0])) || IsSpaceRun(p)
  }

  /** Length of the run of non-separator characters at the front of `s`. */
  function TextRunLength(s: string): (n: nat)
    ensures n <= |s| && NoSeparator(s[..n])
    ensures n < |s| ==> IsSeparator(s[n])
  {
    if s == [] || IsSeparator(s[0]) then 0 else 1 + TextRunLength(s[1..])
  }

  /** Length of the run of white space at the front of `s`. */
  function SpaceRunLength(s: string): (n: nat)
    ensures n <= |s| && AllSpace(s[..n])
    ensures n < |s| ==> !IsSpace(s[n])
  {
    if s == [] || !IsSpace(s[0]) then 0 else 1 + SpaceRunLength(s[1..])
  }

  /** Length of the separator match at the front of `s`: the longest run of
      white space (the pattern's `\s+` is greedy), else one punctuation mark. */
  function SeparatorLength(s: string): (n: nat)
    requires s != [] && IsSeparator(s[0])
    ensures 1 <= n <= |s| && IsSeparatorPiece(s[..n])
  {
    if IsSpace(s[0]) then SpaceRunLength(s) else 1
  }

  /** `text.split(/(\s+|[.,!?;:()\-"'])/)`: text runs at the even positions,
      the separators matched between them at the odd positions. Adjacent
      separators leave an empty text run between them. */
  function Split(s: string): (pieces: seq<string>)
    ensures |pieces| % 2 == 1
    decreases |s|
  {
    var t := TextRunLength(s);
    if t == |s| then [s]
    else
      var rest := s[t..];
      var m := SeparatorLength(rest);
      [s[..t], rest[..m]] + Split(rest[m..])
  }

  /** Joining the pieces gives the text back. */
  lemma {:induction false} SplitJoins(s: string)
    ensures Concat(Split(s)) == s
    decreases |s|
  {
    var t := TextRunLength(s);
    if t == |s| {
      assert Concat([s]) == s + Concat([]);
    } else {
      var rest := s[t..];
      var m := SeparatorLength(rest);
      assert Split(s) == [s[..t], rest[..m]] + Split(rest[m..]);
      SplitJoins(rest[m..]);
      ConcatCons2(s[..t], rest[..m], Split(rest[m..]));
      SliceJoin(s, t, m);
    }
  }

  lemma ConcatCons2(a: string, b: string, tail: seq<string>)
    ensures Concat([a, b] + tail) == a + b + Concat(tail)
  {
    ConcatAppend([a, b], tail);
    assert Concat([a, b]) == a + (b + Concat([]));
  }

  lemma SliceJoin(s: string, t: nat, m: nat)
    requires t + m <= |s|
    ensures s == s[..t] + s[t..][..m] + s[t..][m..]
  {
  }

  /** The even pieces hold no separator character, the odd pieces are
      separator matches. */
  predicate Alternating(pieces: seq<string>) {
    && (forall i :: 0 <= i < |pieces| && i % 2 == 0 ==> NoSeparator(pieces[i]))
    && (forall i :: 0 <= i < |pieces| && i % 2 == 1 ==> IsSeparatorPiece(pieces[i]))
  }

  lemma AlternatingCons(a: string, b: string, tail: seq<string>)
    requires NoSeparator(a) && IsSeparatorPiece(b) && Alternating(tail)
    ensures Alternating([a, b] + tail)
  {
    var pieces := [a, b] + tail;
    assert forall i :: 2 <= i < |pieces| ==> pieces[i] == tail[i - 2];
  }

  lemma {:induction false} SplitPieces(s: string)
    ensures Alternating(Split(s))
    decreases |s|
  {
    var t := TextRunLength(s);
    if t == |s| {
      assert s[..t] == s;
    } else {
      var rest := s[t..];
      var m := SeparatorLength(rest);
      SplitPieces(rest[m..]);
      AlternatingCons(s[..t], rest[..m], Split(rest[m..]));
    }
  }

  /** The greedy `\s+` takes a whole run of white space: two white-space
      separators never meet across an empty text run. */
  predicate SpaceRunsWhole(pieces: seq<string>) {
    forall i :: 0 <= i < |pieces| - 2 && i % 2 == 1 && IsSpaceRun(pieces[i]) && pieces[i + 1] == [] ==>
      !IsSpaceRun(pieces[i + 2])
  }

  /** The first piece is the leading text run, and the second starts with the
      character that ends it. */
  lemma SplitHead(s: string)
    ensures Split(s)[0] == s[..TextRunLength(s)]
    ensures |Split(s)| > 1 ==>
      TextRunLength(s) < |s| && Split(s)[1] != [] && Split(s)[1][0] == s[TextRunLength(s)]
  {
    if TextRunLength(s) == |s| {
      assert s[..|s|] == s;
    }
  }

  lemma {:induction false} SplitSpaceRunsWhole(s: string)
    ensures SpaceRunsWhole(Split(s))
    decreases |s|
  {
    var t := TextRunLength(s);
    if t < |s| {
      var rest := s[t..];
      var m := SeparatorLength(rest);
      assert Split(s) == [s[..t], rest[..m]] + Split(rest[m..]);
      SplitSpaceRunsWhole(rest[m..]);
      SpaceRunThenSplit(rest);
      SpaceRunsWholeCons(s[..t], rest[..m], Split(rest[m..]));
    }
  }

  /** After a white-space separator the split of the remainder does not
      start with an empty run and another white-space separator. */
  lemma SpaceRunThenSplit(rest: string)
    requires rest != [] && IsSeparator(rest[0])
    ensures var m := SeparatorLength(rest); var tail := Split(rest[m..]);
      IsSpaceRun(rest[..m]) && |tail| > 1 && tail[0] == [] ==> !IsSpaceRun(tail[1])
  {
    var m := SeparatorLength(rest);
    var tail := Split(rest[m..]);
    if IsSpaceRun(rest[..m]) && |tail| > 1 && tail[0] == [] {
      assert rest[..m][0] == rest[0];
      SplitHead(rest[m..]);
      assert tail[1][0] == rest[m];
    }
  }

  lemma SpaceRunsWholeCons(a: string, b: string, tail: seq<string>)
    requires SpaceRunsWhole(tail)
    requires IsSpaceRun(b) && |tail| > 1 && tail[0] == [] ==> !IsSpaceRun(tail[1])
    ensures SpaceRunsWhole([a, b] + tail)
  {
    var pieces := [a, b] + tail;
    assert forall i :: 2 <= i < |pieces| ==> pieces[i] == tail[i - 2];
  }

  /** A text run, a separator match and a remainder that does not continue a
      white-space separator split as the run, the match, and the remainder's
      own pieces. */
  lemma SplitCons(a: string, b: string, c: string)
    requires NoSeparator(a) && IsSeparatorPiece(b)
    requires IsSpaceRun(b) ==> c == [] || !IsSpace(c[0])
    ensures Split(a + b + c) == [a, b] + Split(c)
  {
    var s := a + b + c;
    assert s == a + (b + c);
    TextRunPrefix(a, b + c);
    var rest := s[|a|..];
    assert rest == b + c;
    if IsSpace(b[0]) {
      SpaceRunPrefix(b, c);
    }
    var m := SeparatorLength(rest);
    assert s[..|a|] == a && rest[..m] == b && rest[m..] == c;
  }

  lemma {:induction false} TextRunPrefix(a: string, c: string)
    requires NoSeparator(a) && (c == [] || IsSeparator(c[0]))
    ensures TextRunLength(a + c) == |a|
    decreases |a|
  {
    if a == [] {
      assert a + c == c;
    } else {
      assert (a + c)[1..] == a[1..] + c;
      TextRunPrefix(a[1..], c);
    }
  }

  lemma {:induction false} SpaceRunPrefix(b: string, c: string)
    requires AllSpace(b) && (c == [] || !IsSpace(c[0]))
    ensures SpaceRunLength(b + c) == |b|
    decreases |b|
  {
    if b == [] {
      assert b + c == c;
    } else {
      assert (b + c)[1..] == b[1..] + c;
      SpaceRunPrefix(b[1..], c);
    }
  }

  /** The split is the only list of pieces with its properties: text runs and
      separator matches alternating, white-space runs taken whole, joining
      to the text. */
  lemma {:induction false} SplitUnique(s: string, pieces: seq<string>)
    requires |pieces| % 2 == 1 && Concat(pieces) == s
    requires Alternating(pieces) && SpaceRunsWhole(pieces)
    ensures pieces == Split(s)
    decreases |pieces|
  {
    if |pieces| == 1 {
      assert Concat(pieces) == pieces[0] + Concat([]);
      assert s + [] == s;
      TextRunPrefix(s, []);
      assert s[..|s|] == s;
    } else {
      var a, b, tail := pieces[0], pieces[1], pieces[2..];
      assert pieces == [a, b] + tail;
      ConcatCons2(a, b, tail);
      DropTwo(pieces);
      var c := Concat(tail);
      if IsSpaceRun(b) {
        TailStart(tail);
      }
      SplitUnique(c, tail);
      SplitCons(a, b, c);
    }
  }

  /** The properties of a split carry over to what follows its first text run and separator. */
  lemma DropTwo(pieces: seq<string>)
    requires |pieces| >= 3 && Alternating(pieces) && SpaceRunsWhole(pieces)
    ensures Alternating(pieces[2..]) && SpaceRunsWhole(pieces[2..])
    ensures NoSeparator(pieces[0]) && IsSeparatorPiece(pieces[1])
    ensures IsSpaceRun(pieces[1]) && |pieces| > 3 && pieces[2] == [] ==> !IsSpaceRun(pieces[3])
  {
    var tail := pieces[2..];
    assert forall i :: 0 <= i < |tail| ==> tail[i] == pieces[i + 2];
  }

  /** Pieces that do not begin with an empty run followed by white space
      join to a text that does not begin with white space. */
  lemma TailStart(tail: seq<string>)
    requires |tail| % 2 == 1 && Alternating(tail)
    requires |tail| > 1 && tail[0] == [] ==> !IsSpaceRun(tail[1])
    ensures Concat(tail) == [] || !IsSpace(Concat(tail)[0])
  {
    var c := Concat(tail);
    assert c == tail[0] + Concat(tail[1..]);
    if tail[0] == [] && |tail| > 1 {
      assert tail[1..] == [tail[1]] + tail[2..];
      assert Concat(tail[1..]) == tail[1] + Concat(tail[2..]);
      assert IsSeparatorPiece(tail[1]);
    } else if tail[0] != [] {
      assert NoSeparator(tail[0]);
    }
  }

  /** Two spaces between words are one separator, not two with an empty run between. */
  lemma SplitKeepsSpaceRun()
    ensures Split("a  b") == ["a", "  ", "b"]
  {
    SpaceRunPieces();
    SplitUnique("a  b", ["a", "  ", "b"]);
  }

  lemma SpaceRunPieces()
    ensures Concat(["a", "  ", "b"]) == "a  b"
    ensures Alternating(["a", "  ", "b"]) && SpaceRunsWhole(["a", "  ", "b"])
  {
    SpaceRunJoin();
    SpaceRunAlternates();
  }

  lemma SpaceRunJoin()
    ensures Concat(["a", "  ", "b"]) == "a  b"
  {
    assert Concat(["a", "  ", "b"]) == "a" + ("  " + ("b" + Concat([])));
  }

  lemma SpaceRunAlternates()
    ensures Alternating(["a", "  ", "b"])
  {
    var pieces := ["a", "  ", "b"];
    assert NoSeparator(pieces[0]) && NoSeparator(pieces[2]);
    assert IsSeparatorPiece(pieces[1]);
  }

  /** The text is split at all exactly when it holds a separator character. */
  lemma {:induction false} SplitWhole(s: string)
    ensures |Split(s)| == 1 <==> NoSeparator(s)
  {
    var t := TextRunLength(s);
    if t == |s| {
      assert s[..t] == s;
    } else {
      assert IsSeparator(s[t]);
    }
  }

  /** A comma followed by a space leaves an empty text run between the two
      separators. */
  lemma SplitExample()
    ensures Split("Hi, you") == ["Hi", ",", "", " ", "you"]
  {
    SplitHiComma();
    SplitSpaceYou();
    FivePieces("Hi", ",", "", " ", "you");
  }

  lemma FivePieces(a: string, b: string, c: string, d: string, e: string)
    ensures [a, b] + [c, d, e] == [a, b, c, d, e]
  {
  }

  lemma SplitHiComma()
    ensures Split("Hi, you") == ["Hi", ","] + Split(" you")
  {
    assert "Hi, you" == "Hi" + "," + " you";
    SplitCons("Hi", ",", " you");
  }

  lemma SplitSpaceYou()
    ensures Split(" you") == ["", " ", "you"]
  {
    assert " you" == "" + " " + "you";
    SplitCons("", " ", "you");
    SplitYou();
  }

  lemma SplitYou()
    ensures Split("you") == ["you"]
  {
    assert TextRunLength("you") == 3;
  }

  // ---------------------------------------------------------------------
  // processTextNode: wrapping

  /** A child of the node list that replaces a text node: a word span (its
      class, `data-pos`, `data-word` and text content) or a plain text node. */
  datatype Token = Word(className: string, tag: Tag, lower: string, text: string) | Text(text: string)

  /** The text content of a node list. */
  function TextOf(ts: seq<Token>): string {
    if ts == [] then [] else ts[0].text + TextOf(ts[1..])
  }

  lemma {:induction false} TextOfAppend(a: seq<Token>, b: seq<Token>)
    ensures TextOf(a + b) == TextOf(a) + TextOf(b)
  {
    if a == [] {
      assert a + b == b;
    } else {
      assert (a + b)[1..] == a[1..] + b;
      TextOfAppend(a[1..], b);
    }
  }

  /** The node one piece of the split becomes: a span when its trim is an
      English word, a text node otherwise; either way it shows the piece. */
  function WrapPiece(piece: string): (t: Token)
    ensures t.text == piece
  {
    var clean := Trim(piece);
    if IsEnglishWord(clean) then Word(ClassName(GuessPartOfSpeech(clean)), GuessPartOfSpeech(clean), ToLower(clean), piece)
    else Text(piece)
  }

  /** The nodes for a list of pieces, one each, in order. */
  function WrapPieces(pieces: seq<string>): (ts: seq<Token>)
    ensures |ts| == |pieces|
    ensures forall i :: 0 <= i < |pieces| ==> ts[i] == WrapPiece(pieces[i])
  {
    if pieces == [] then [] else [WrapPiece(pieces[0])] + WrapPieces(pieces[1..])
  }

  /** The nodes that take the place of a text node holding `text`; a text
      without separators is left as it is. */
  function WrapTextNode(text: string): seq<Token> {
    var pieces := Split(text);
    if |pieces| <= 1 then [Text(text)] else WrapPieces(pieces)
  }

  lemma {:induction false} WrapKeepsText(pieces: seq<string>)
    ensures TextOf(WrapPieces(pieces)) == Concat(pieces)
  {
    if pieces != [] {
      WrapKeepsText(pieces[1..]);
      assert WrapPieces(pieces)[1..] == WrapPieces(pieces[1..]);
    }
  }

  /** The replacement nodes show exactly the text of the node they replace. */
  lemma WrapTextNodeKeepsText(text: string)
    ensures TextOf(WrapTextNode(text)) == text
  {
    if |Split(text)| > 1 {
      WrapKeepsText(Split(text));
      SplitJoins(text);
    } else {
      assert TextOf([Text(text)]) == text + TextOf([]);
    }
  }

  /** The body of `processTextNode`'s `forEach`: a piece becomes a span when
      its trimmed form is an English word, a text node otherwise. */
  method WrapWord(piece: string) returns (node: Token)
    ensures node == WrapPiece(piece)
  {
    var cleanWord := Trim(piece);
    if IsEnglishWord(cleanWord) {
      var pos := GuessPartOfSpeech(cleanWord);
      node := Word(ClassName(pos), pos, ToLower(cleanWord), piece);
    } else {
      node := Text(piece);
    }
  }

  /** The `forEach` of `processTextNode`: one node per piece, in order. */
  method WrapWords(words: seq<string>) returns (fragment: seq<Token>)
    ensures fragment == WrapPieces(words)
  {
    fragment := [];
    for i := 0 to |words|
      invariant fragment == WrapPieces(words[..i])
    {
      var node := WrapWord(words[i]);
      WrapPiecesStep(words, i);
      fragment := fragment + [node];
    }
    assert words[..|words|] == words;
  }

  lemma WrapPiecesStep(words: seq<string>, i: nat)
    requires i < |words|
    ensures WrapPieces(words[..i + 1]) == WrapPieces(words[..i]) + [WrapPiece(words[i])]
  {
    assert words[..i + 1] == words[..i] + [words[i]];
    WrapPiecesSnoc(words[..i], words[i]);
  }

  lemma {:induction false} WrapPiecesSnoc(pieces: seq<string>, piece: string)
    ensures WrapPieces(pieces + [piece]) == WrapPieces(pieces) + [WrapPiece(piece)]
    decreases |pieces|
  {
    if pieces == [] {
      assert pieces + [piece] == [piece];
    } else {
      assert (pieces + [piece])[1..] == pieces[1..] + [piece];
      WrapPiecesSnoc(pieces[1..], piece);
    }
  }

  /** `processTextNode`: a text node with two or more pieces is replaced by the fragment. */
  method ProcessTextNode(text: string) returns (fragment: seq<Token>)
    ensures fragment == WrapTextNode(text)
  {
    var words := Split(text);
    if |words| <= 1 {
      fragment := [Text(text)];
    } else {
      fragment := WrapWords(words);
    }
  }

  lemma PunctIsNotSpace(c: char)
    requires IsPunct(c)
    ensures !IsSpace(c)
  {
  }

  /** Every span of the fragment carries a whole piece of two or more ASCII
      letters, its lower-cased form as `data-word` and its guessed tag; every
      piece that is an English word became a span, the others text nodes. */
  lemma {:induction false} WrappedWords(text: string, i: nat)
    requires |Split(text)| > 1 && i < |Split(text)|
    ensures var t := WrapTextNode(text)[i];
      && (t.Word? <==> IsEnglishWord(Split(text)[i]))
      && t.text == Split(text)[i]
      && (t.Word? ==>
            && |t.text| >= 2
            && (forall k :: 0 <= k < |t.text| ==> IsAsciiLetter(t.text[k]))
            && t.lower == ToLower(t.text)
            && t.tag == GuessPartOfSpeech(t.text)
            && t.className == ClassName(t.tag))
  {
    var p := Split(text)[i];
    SplitPieces(text);
    if i % 2 == 0 {
      assert NoSeparator(p);
      assert NoSpace(p);
      TrimNoSpace(p);
      EnglishWordIsLetters(p);
    } else if AllSpace(p) {
      TrimAllSpace(p);
      TrimAllSpace(Trim(p));
    } else {
      assert |p| == 1 && IsPunct(p[0]);
      PunctIsNotSpace(p[0]);
      TrimNoSpace(p);
      EnglishWordIsLetters(p);
    }
  }

  // ---------------------------------------------------------------------
  // clearProcessedElements: unwrapping

  /** Every span replaced by a text node holding its text content. */
  function ClearSpans(ts: seq<Token>): (r: seq<Token>)
    ensures |r| == |ts|
    ensures forall i :: 0 <= i < |r| ==> r[i].Text?
  {
    seq(|ts|, i requires 0 <= i < |ts| => Text(ts[i].text))
  }

  /** `Node.normalize`: adjacent text nodes merged, empty text nodes dropped. */
  function Normalize(ts: seq<Token>): (r: seq<Token>)
    ensures TextOf(r) == TextOf(ts)
  {
    if ts == [] then []
    else
      var rest := Normalize(ts[1..]);
      match ts[0]
      case Word(_, _, _, _) => [ts[0]] + rest
      case Text(t) =>
        if t == [] then rest
        else if rest != [] && rest[0].Text? then [Text(t + rest[0].text)] + rest[1..]
        else [Text(t)] + rest
  }

  /** No empty text node and no two text nodes side by side. */
  predicate IsNormal(ts: seq<Token>) {
    forall i :: 0 <= i < |ts| && ts[i].Text? ==> ts[i].text != [] && (i + 1 < |ts| ==> !ts[i + 1].Text?)
  }

  lemma {:induction false} NormalizeIsNormal(ts: seq<Token>)
    ensures IsNormal(Normalize(ts))
  {
    if ts != [] {
      NormalizeIsNormal(ts[1..]);
    }
  }

  /** A list of text nodes only normalises to one text node, or none when empty. */
  lemma {:induction false} NormalizeAllText(ts: seq<Token>)
    requires forall i :: 0 <= i < |ts| ==> ts[i].Text?
    ensures Normalize(ts) == if TextOf(ts) == [] then [] else [Text(TextOf(ts))]
  {
    if ts != [] {
      var rest := Normalize(ts[1..]);
      NormalizeAllText(ts[1..]);
      var t := ts[0].text;
      assert ts[0] == Text(t);
      assert TextOf(ts) == t + TextOf(ts[1..]);
      if t == [] {
        assert TextOf(ts) == TextOf(ts[1..]);
      } else if rest != [] {
        assert rest == [Text(TextOf(ts[1..]))];
        assert Normalize(ts) == [Text(t + TextOf(ts[1..]))] + rest[1..];
        assert rest[1..] == [];
      } else {
        assert TextOf(ts) == t;
        assert Normalize(ts) == [Text(t)] + [];
      }
    }
  }

  lemma {:induction false} ClearSpansKeepsText(ts: seq<Token>)
    ensures TextOf(ClearSpans(ts)) == TextOf(ts)
  {
    if ts != [] {
      assert ClearSpans(ts)[1..] == ClearSpans(ts[1..]);
      ClearSpansKeepsText(ts[1..]);
    }
  }

  /** `clearProcessedElements` on the nodes of one wrapped text node. */
  function ClearProcessed(ts: seq<Token>): seq<Token> {
    Normalize(ClearSpans(ts))
  }

  /** Clearing undoes wrapping: the node list is once more one text node holding
      the original text, exactly what normalising the untouched node gives. */
  lemma ClearUndoesWrap(text: string)
    ensures ClearProcessed(WrapTextNode(text)) == Normalize([Text(text)])
    ensures text != [] ==> ClearProcessed(WrapTextNode(text)) == [Text(text)]
  {
    var w := WrapTextNode(text);
    WrapTextNodeKeepsText(text);
    ClearSpansKeepsText(w);
    NormalizeAllText(ClearSpans(w));
    NormalizeAllText([Text(text)]);
    assert TextOf([Text(text)]) == text + TextOf([]);
  }
}
