/** Concrete runs of the message analyser: the worked example and the
    input that pushes mood past the schema's maximum. The texts are built
    as words joined by single spaces, so what a lexicon word hits is
    decided word by word (no lexicon word holds a space). */
module HeuristicExamples {
  import opened Text
  import opened Records
  import opened Heuristic

  /** Some word of `words` contains `w`. */
  predicate InSomeWord(words: seq<string>, w: string) {
    exists i :: 0 <= i < |words| && Contains(words[i], w)
  }

  lemma NoSpaceInLexicon()
    ensures forall w :: w in NegativeWords + PositiveWords + TopicWords ==> ' ' !in w && w != []
  {
  }

  /** In a text of space-separated words, a lexicon word is found iff some
      word holds it. */
  lemma LexiconByWords(words: seq<string>, w: string)
    requires w in NegativeWords + PositiveWords + TopicWords
    ensures Contains(Join(words, " "), w) <==> InSomeWord(words, w)
  {
    NoSpaceInLexicon();
    assert " " == [' '];
    ContainsJoin(words, ' ', w);
  }

  /** How `Matching` unfolds on a word list given as head and tail. */
  lemma MatchingCons(text: string, w: string, ws: seq<string>)
    ensures Matching(text, [w] + ws)
            == (if Contains(text, w) then [w] else []) + Matching(text, ws)
  {
    assert ([w] + ws)[1..] == ws;
  }

  /** `Matching` on the suffix of a word list from position `k`. */
  lemma MatchingStep(text: string, words: seq<string>, k: nat)
    requires k < |words|
    ensures Matching(text, words[k..])
            == (if Contains(text, words[k]) then [words[k]] else []) + Matching(text, words[k + 1..])
  {
    assert words[k..][1..] == words[k + 1..];
  }

  /** The words whose flag is set, in order. */
  function Select(words: seq<string>, keep: seq<bool>): (r: seq<string>)
    requires |keep| == |words|
    ensures |r| <= |words|
  {
    if words == [] then []
    else (if keep[0] then [words[0]] else []) + Select(words[1..], keep[1..])
  }

  /** `Matching` keeps exactly the words the text contains. */
  lemma {:induction false} MatchingByHits(text: string, words: seq<string>, hits: seq<bool>)
    requires |hits| == |words|
    requires forall i :: 0 <= i < |words| ==> (Contains(text, words[i]) <==> hits[i])
    ensures Matching(text, words) == Select(words, hits)
  {
    if words != [] {
      MatchingByHits(text, words[1..], hits[1..]);
    }
  }

  // ---------------------------------------------------- worked example

  const ExampleWords: seq<string> := ["I", "feel", "stressed", "and", "tired", "about", "work"]
  const ExampleLowerWords: seq<string> := ["i", "feel", "stressed", "and", "tired", "about", "work"]

  /** "I feel stressed and tired about work". */
  const Example: string := Join(ExampleWords, " ")

  lemma ExampleLowered()
    ensures Lower(Example) == Join(ExampleLowerWords, " ")
  {
    assert Lower(ExampleWords[0]) == ExampleLowerWords[0];
    forall i | 1 <= i < |ExampleWords| ensures Lower(ExampleWords[i]) == ExampleLowerWords[i] {
      LowerOfLowerCase(ExampleWords[i]);
    }
    LowerJoin(ExampleWords, ExampleLowerWords, " ");
  }

  lemma ExampleWordHits()
    ensures InSomeWord(ExampleLowerWords, "stress") && InSomeWord(ExampleLowerWords, "stressed")
    ensures InSomeWord(ExampleLowerWords, "tired") && InSomeWord(ExampleLowerWords, "work")
  {
    assert Contains(ExampleLowerWords[2], "stress") && Contains(ExampleLowerWords[2], "stressed");
    assert Contains(ExampleLowerWords[4], "tired") && Contains(ExampleLowerWords[6], "work");
  }

  /** A lexicon word misses every word if each word lacks one of its
      letters. */
  lemma MissByLetters(words: seq<string>, w: string, letters: seq<char>)
    requires |letters| == |words|
    requires forall i :: 0 <= i < |words| ==> letters[i] in w && letters[i] !in words[i]
    ensures !InSomeWord(words, w)
  {
    forall i | 0 <= i < |words| ensures !Contains(words[i], w) {
      NotContainsChar(words[i], w, letters[i]);
    }
  }

  /** A letter no word of `words` has. */
  predicate AbsentLetter(words: seq<string>, c: char) {
    forall i :: 0 <= i < |words| ==> c !in words[i]
  }

  lemma MissByAbsentLetter(words: seq<string>, w: string, c: char)
    requires AbsentLetter(words, c) && c in w
    ensures !InSomeWord(words, w)
  {
    MissByLetters(words, w, seq(|words|, _ => c));
  }

  lemma MissesX()
    ensures !InSomeWord(ExampleLowerWords, "anxious") && !InSomeWord(ExampleLowerWords, "relaxed")
    ensures !InSomeWord(ExampleLowerWords, "exam")
  {
    assert AbsentLetter(ExampleLowerWords, 'x');
    MissByAbsentLetter(ExampleLowerWords, "anxious", 'x');
    MissByAbsentLetter(ExampleLowerWords, "relaxed", 'x');
    MissByAbsentLetter(ExampleLowerWords, "exam", 'x');
  }

  lemma MissesG()
    ensures !InSomeWord(ExampleLowerWords, "angry") && !InSomeWord(ExampleLowerWords, "grateful")
    ensures !InSomeWord(ExampleLowerWords, "good")
  {
    assert AbsentLetter(ExampleLowerWords, 'g');
    MissByAbsentLetter(ExampleLowerWords, "angry", 'g');
    MissByAbsentLetter(ExampleLowerWords, "grateful", 'g');
    MissByAbsentLetter(ExampleLowerWords, "good", 'g');
  }

  lemma MissesP()
    ensures !InSomeWord(ExampleLowerWords, "panic") && !InSomeWord(ExampleLowerWords, "depressed")
    ensures !InSomeWord(ExampleLowerWords, "progress") && !InSomeWord(ExampleLowerWords, "proud")
    ensures !InSomeWord(ExampleLowerWords, "sleep")
  {
    assert AbsentLetter(ExampleLowerWords, 'p');
    MissByAbsentLetter(ExampleLowerWords, "panic", 'p');
    MissByAbsentLetter(ExampleLowerWords, "depressed", 'p');
    MissByAbsentLetter(ExampleLowerWords, "progress", 'p');
    MissByAbsentLetter(ExampleLowerWords, "proud", 'p');
    MissByAbsentLetter(ExampleLowerWords, "sleep", 'p');
  }

  lemma MissesH()
    ensures !InSomeWord(ExampleLowerWords, "happy")
  {
    assert AbsentLetter(ExampleLowerWords, 'h');
    MissByAbsentLetter(ExampleLowerWords, "happy", 'h');
  }

  lemma MissesC()
    ensures !InSomeWord(ExampleLowerWords, "calm")
  {
    assert AbsentLetter(ExampleLowerWords, 'c');
    MissByAbsentLetter(ExampleLowerWords, "calm", 'c');
  }

  lemma MissesM()
    ensures !InSomeWord(ExampleLowerWords, "family")
  {
    assert AbsentLetter(ExampleLowerWords, 'm');
    MissByAbsentLetter(ExampleLowerWords, "family", 'm');
  }

  lemma MissesY()
    ensures !InSomeWord(ExampleLowerWords, "study")
  {
    assert AbsentLetter(ExampleLowerWords, 'y');
    MissByAbsentLetter(ExampleLowerWords, "study", 'y');
  }

  /** "sad", "worried" and "better" use only letters the text has; each
      word lacks one of their letters all the same. */
  lemma MissSad()
    ensures !InSomeWord(ExampleLowerWords, "sad")
  {
    MissByLetters(ExampleLowerWords, "sad", ['s', 's', 'a', 's', 's', 's', 's']);
  }

  lemma MissWorried()
    ensures !InSomeWord(ExampleLowerWords, "worried")
  {
    MissByLetters(ExampleLowerWords, "worried", ['w', 'w', 'w', 'w', 'w', 'w', 'i']);
  }

  lemma MissBetter()
    ensures !InSomeWord(ExampleLowerWords, "better")
  {
    MissByLetters(ExampleLowerWords, "better", ['b', 'b', 'b', 'b', 'b', 'e', 'b']);
  }

  /** Whether a lexicon word is found in the lowered example is decided
      word by word. */
  lemma ExampleHit(w: string)
    requires w in NegativeWords + PositiveWords + TopicWords
    ensures Contains(Lower(Example), w) <==> InSomeWord(ExampleLowerWords, w)
  {
    ExampleLowered();
    LexiconByWords(ExampleLowerWords, w);
  }

  lemma NegativeHits()
    ensures var t := Lower(Example);
            Contains(t, "stress") && Contains(t, "stressed") && Contains(t, "tired")
            && !Contains(t, "sad") && !Contains(t, "anxious") && !Contains(t, "angry")
            && !Contains(t, "panic") && !Contains(t, "worried") && !Contains(t, "depressed")
  {
    ExampleWordHits();
    MissSad();
    MissesX();
    MissesG();
    MissesP();
    MissWorried();
    ExampleHit("stress");
    ExampleHit("stressed");
    ExampleHit("tired");
    ExampleHit("sad");
    ExampleHit("anxious");
    ExampleHit("angry");
    ExampleHit("panic");
    ExampleHit("worried");
    ExampleHit("depressed");
  }

  const NegativeFlags: seq<bool> := [false, false, true, true, false, true, false, false, false]

  lemma NegativeSelect()
    ensures Select(NegativeWords, NegativeFlags) == ["stress", "stressed", "tired"]
  {
  }

  /** The negative lexicon filtered by a text with exactly these hits. */
  lemma NegativeMatchesFor(t: string)
    requires Contains(t, "stress") && Contains(t, "stressed") && Contains(t, "tired")
    requires !Contains(t, "sad") && !Contains(t, "anxious") && !Contains(t, "angry")
    requires !Contains(t, "panic") && !Contains(t, "worried") && !Contains(t, "depressed")
    ensures Matching(t, NegativeWords) == ["stress", "stressed", "tired"]
  {
    assert forall i :: 0 <= i < |NegativeWords| ==> (Contains(t, NegativeWords[i]) <==> NegativeFlags[i]);
    MatchingByHits(t, NegativeWords, NegativeFlags);
    NegativeSelect();
  }

  lemma NegativeMatches()
    ensures Matching(Lower(Example), NegativeWords) == ["stress", "stressed", "tired"]
  {
    NegativeHits();
    NegativeMatchesFor(Lower(Example));
  }

  lemma PositiveHits()
    ensures var t := Lower(Example);
            !Contains(t, "grateful") && !Contains(t, "happy") && !Contains(t, "calm")
            && !Contains(t, "relaxed") && !Contains(t, "good") && !Contains(t, "better")
            && !Contains(t, "progress") && !Contains(t, "proud")
  {
    MissesX();
    MissesG();
    MissesP();
    MissesH();
    MissesC();
    MissBetter();
    ExampleHit("grateful");
    ExampleHit("happy");
    ExampleHit("calm");
    ExampleHit("relaxed");
    ExampleHit("good");
    ExampleHit("better");
    ExampleHit("progress");
    ExampleHit("proud");
  }

  lemma TopicHits()
    ensures var t := Lower(Example);
            Contains(t, "work") && !Contains(t, "sleep") && !Contains(t, "family")
            && !Contains(t, "study") && !Contains(t, "exam")
  {
    ExampleWordHits();
    MissesP();
    MissesM();
    MissesY();
    MissesX();
    ExampleHit("work");
    ExampleHit("sleep");
    ExampleHit("family");
    ExampleHit("study");
    ExampleHit("exam");
  }

  const PositiveFlags: seq<bool> := [false, false, false, false, false, false, false, false]

  lemma PositiveMatchesFor(t: string)
    requires !Contains(t, "grateful") && !Contains(t, "happy") && !Contains(t, "calm")
    requires !Contains(t, "relaxed") && !Contains(t, "good") && !Contains(t, "better")
    requires !Contains(t, "progress") && !Contains(t, "proud")
    ensures Matching(t, PositiveWords) == []
  {
    assert forall i :: 0 <= i < |PositiveWords| ==> (Contains(t, PositiveWords[i]) <==> PositiveFlags[i]);
    MatchingByHits(t, PositiveWords, PositiveFlags);
    assert Select(PositiveWords, PositiveFlags) == [];
  }

  const TopicFlags: seq<bool> := [true, false, false, false, false]

  lemma TopicMatchesFor(t: string)
    requires Contains(t, "work") && !Contains(t, "sleep") && !Contains(t, "family")
    requires !Contains(t, "study") && !Contains(t, "exam")
    ensures Matching(t, TopicWords) == ["work"]
  {
    assert forall i :: 0 <= i < |TopicWords| ==> (Contains(t, TopicWords[i]) <==> TopicFlags[i]);
    MatchingByHits(t, TopicWords, TopicFlags);
    assert Select(TopicWords, TopicFlags) == ["work"];
  }

  /** The scoring of "I feel stressed and tired about work" as a whole,
      given the hits of its lowered text. */
  lemma ScoresFor(message: string)
    requires Matching(Lower(message), NegativeWords) == ["stress", "stressed", "tired"]
    requires Matching(Lower(message), PositiveWords) == []
    requires Matching(Lower(message), TopicWords) == ["work"]
    requires !Contains(Lower(message), "anxious") && !Contains(Lower(message), "panic")
    requires Contains(Lower(message), "tired")
    ensures AnalyzeAsWritten(message)
            == Scores(Negative, 2, 3, 6, 3, ["stress", "stressed", "tired"], ["work"])
    ensures Analyze(message) == AnalyzeAsWritten(message)
  {
    var t := Lower(message);
    var a := AnalyzeAsWritten(message);
    assert NegHits(t) == 3 && PosHits(t) == 0;
    assert a.keywords == ["stress", "stressed", "tired"] by {
      KeywordsNeedNoDedup(message);
      MatchingAppend(t, NegativeWords, PositiveWords);
      assert ["stress", "stressed", "tired"] + [] == ["stress", "stressed", "tired"];
    }
  }

  /** The worked example: three negative hits (one word counted twice),
      no positive hit, one topic. Mood 5 - 3, stress 2 * 3, anxiety 3
      (neither "anxious" nor "panic"), energy 3 for "tired". */
  lemma WorkedExample()
    ensures AnalyzeAsWritten(Example)
            == Scores(Negative, 2, 3, 6, 3, ["stress", "stressed", "tired"], ["work"])
    ensures Analyze(Example) == AnalyzeAsWritten(Example)
  {
    NegativeMatches();
    NegativeHits();
    PositiveHits();
    PositiveMatchesFor(Lower(Example));
    TopicHits();
    TopicMatchesFor(Lower(Example));
    ScoresFor(Example);
  }

  // ------------------------------------------------- mood past the scale

  const OverflowWords: seq<string> := ["happy", "calm", "relaxed", "grateful"]

  /** "happy calm relaxed grateful": four positive hits and no negative one. */
  const Overflow: string := Join(OverflowWords, " ")

  lemma OverflowLowered()
    ensures Lower(Overflow) == Overflow
  {
    forall i | 0 <= i < |OverflowWords| ensures Lower(OverflowWords[i]) == OverflowWords[i] {
      LowerOfLowerCase(OverflowWords[i]);
    }
    LowerJoin(OverflowWords, OverflowWords, " ");
  }

  /** The text has no white space at either end, so `create` stores it
      as given. */
  lemma OverflowTrimmed()
    ensures Trim(Overflow) == Overflow
  {
    var o := Overflow;
    assert o == "happy" + " " + ("calm" + " " + ("relaxed" + " " + "grateful"));
    assert o[0] == 'h' && o[|o| - 1] == 'l';
    TrimOfTrimmed(o);
  }

  lemma OverflowHit(w: string)
    requires w in NegativeWords + PositiveWords + TopicWords
    ensures Contains(Lower(Overflow), w) <==> InSomeWord(OverflowWords, w)
  {
    OverflowLowered();
    LexiconByWords(OverflowWords, w);
  }

  lemma OverflowMissesS()
    ensures !InSomeWord(OverflowWords, "sad") && !InSomeWord(OverflowWords, "anxious")
    ensures !InSomeWord(OverflowWords, "stress") && !InSomeWord(OverflowWords, "stressed")
    ensures !InSomeWord(OverflowWords, "depressed")
  {
    assert AbsentLetter(OverflowWords, 's');
    MissByAbsentLetter(OverflowWords, "sad", 's');
    MissByAbsentLetter(OverflowWords, "anxious", 's');
    MissByAbsentLetter(OverflowWords, "stress", 's');
    MissByAbsentLetter(OverflowWords, "stressed", 's');
    MissByAbsentLetter(OverflowWords, "depressed", 's');
  }

  lemma OverflowMissesN()
    ensures !InSomeWord(OverflowWords, "angry") && !InSomeWord(OverflowWords, "panic")
  {
    assert AbsentLetter(OverflowWords, 'n');
    MissByAbsentLetter(OverflowWords, "angry", 'n');
    MissByAbsentLetter(OverflowWords, "panic", 'n');
  }

  lemma OverflowMissesO()
    ensures !InSomeWord(OverflowWords, "worried") && !InSomeWord(OverflowWords, "good")
    ensures !InSomeWord(OverflowWords, "progress") && !InSomeWord(OverflowWords, "proud")
  {
    assert AbsentLetter(OverflowWords, 'o');
    MissByAbsentLetter(OverflowWords, "worried", 'o');
    MissByAbsentLetter(OverflowWords, "good", 'o');
    MissByAbsentLetter(OverflowWords, "progress", 'o');
    MissByAbsentLetter(OverflowWords, "proud", 'o');
  }

  lemma OverflowMissesI()
    ensures !InSomeWord(OverflowWords, "tired")
  {
    assert AbsentLetter(OverflowWords, 'i');
    MissByAbsentLetter(OverflowWords, "tired", 'i');
  }

  lemma OverflowMissesB()
    ensures !InSomeWord(OverflowWords, "better")
  {
    assert AbsentLetter(OverflowWords, 'b');
    MissByAbsentLetter(OverflowWords, "better", 'b');
  }

  lemma OverflowWordHits()
    ensures InSomeWord(OverflowWords, "happy") && InSomeWord(OverflowWords, "calm")
    ensures InSomeWord(OverflowWords, "relaxed") && InSomeWord(OverflowWords, "grateful")
  {
    ContainsSelf(OverflowWords[0]);
    ContainsSelf(OverflowWords[1]);
    ContainsSelf(OverflowWords[2]);
    ContainsSelf(OverflowWords[3]);
  }

  lemma OverflowNegativeMisses()
    ensures var t := Lower(Overflow);
            !Contains(t, "sad") && !Contains(t, "anxious") && !Contains(t, "stress")
            && !Contains(t, "stressed") && !Contains(t, "angry") && !Contains(t, "tired")
            && !Contains(t, "panic") && !Contains(t, "worried") && !Contains(t, "depressed")
  {
    OverflowMissesS();
    OverflowMissesN();
    OverflowMissesO();
    OverflowMissesI();
    OverflowHit("sad");
    OverflowHit("anxious");
    OverflowHit("stress");
    OverflowHit("stressed");
    OverflowHit("angry");
    OverflowHit("tired");
    OverflowHit("panic");
    OverflowHit("worried");
    OverflowHit("depressed");
  }

  lemma OverflowPositiveHits()
    ensures var t := Lower(Overflow);
            Contains(t, "grateful") && Contains(t, "happy") && Contains(t, "calm")
            && Contains(t, "relaxed") && !Contains(t, "good") && !Contains(t, "better")
            && !Contains(t, "progress") && !Contains(t, "proud")
  {
    OverflowWordHits();
    OverflowMissesO();
    OverflowMissesB();
    OverflowHit("grateful");
    OverflowHit("happy");
    OverflowHit("calm");
    OverflowHit("relaxed");
    OverflowHit("good");
    OverflowHit("better");
    OverflowHit("progress");
    OverflowHit("proud");
  }

  const NoFlags: seq<bool> := [false, false, false, false, false, false, false, false, false]
  const OverflowFlags: seq<bool> := [true, true, true, true, false, false, false, false]

  lemma NoNegativeFor(t: string)
    requires !Contains(t, "sad") && !Contains(t, "anxious") && !Contains(t, "stress")
    requires !Contains(t, "stressed") && !Contains(t, "angry") && !Contains(t, "tired")
    requires !Contains(t, "panic") && !Contains(t, "worried") && !Contains(t, "depressed")
    ensures NegHits(t) == 0
  {
    assert forall i :: 0 <= i < |NegativeWords| ==> (Contains(t, NegativeWords[i]) <==> NoFlags[i]);
    MatchingByHits(t, NegativeWords, NoFlags);
    assert Select(NegativeWords, NoFlags) == [];
  }

  lemma OverflowSelect()
    ensures Select(PositiveWords, OverflowFlags) == ["grateful", "happy", "calm", "relaxed"]
  {
  }

  lemma FourPositiveFor(t: string)
    requires Contains(t, "grateful") && Contains(t, "happy") && Contains(t, "calm")
    requires Contains(t, "relaxed") && !Contains(t, "good") && !Contains(t, "better")
    requires !Contains(t, "progress") && !Contains(t, "proud")
    ensures PosHits(t) == 4
  {
    assert forall i :: 0 <= i < |PositiveWords| ==> (Contains(t, PositiveWords[i]) <==> OverflowFlags[i]);
    MatchingByHits(t, PositiveWords, OverflowFlags);
    OverflowSelect();
  }

  /** The input behind the mood finding: four positive words give mood
      7 + 4 = 11, past the schema's maximum of 10, so the analysis the
      source builds for it cannot be stored; the capped scoring gives 10. */
  lemma OverflowExample()
    ensures AnalyzeAsWritten(Overflow).sentiment == Positive
    ensures AnalyzeAsWritten(Overflow).mood == 11
    ensures !InRange(AnalyzeAsWritten(Overflow))
    ensures Analyze(Overflow).mood == 10
  {
    OverflowNegativeMisses();
    OverflowPositiveHits();
    NoNegativeFor(Lower(Overflow));
    FourPositiveFor(Lower(Overflow));
  }
}
