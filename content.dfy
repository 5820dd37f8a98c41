/** The content-quality analyzer (analyzers/content.py), over the text it extracts from the page. */
module Content {
  import opened Outcomes
  import opened Text
  import opened Messages
  import opened Results

  /**
   * What `analyze_content` reads once scripts, styles, navigation, footer and header are
   * removed: the visible text with whitespace runs collapsed to single spaces, the raw
   * HTML, the Flesch reading ease of the text (`Raised` when the library raised), and the
   * number of words in each `<p>`.
   */
  datatype ContentDoc = ContentDoc(text: string, html: string, readingEase: Outcome<real>,
                                   paragraphWords: seq<nat>)

  /**
   * Word count: 1500 or more scores 100, 600 or more 90, 300 or more 60 with a
   * recommendation (impact 5), fewer 20 with an important issue (impact 8); the check
   * passes from 300 words.
   */
  function WordCountRule(count: nat): (r: Rule)
    ensures r.check.pass <==> count >= 300
    ensures r.check.score == (if count >= 1500 then 100.0 else if count >= 600 then 90.0
                              else if count >= 300 then 60.0 else 20.0)
    ensures r.issues != [] <==> count < 600
    ensures |r.issues| <= 1 && RuleOk(r)
    ensures r.issues != [] ==>
              if count < 300 then r.issues[0].severity == Important && r.issues[0].impact == 8
              else r.issues[0].severity == Recommendation && r.issues[0].impact == 5
    ensures r.issues != [] ==>
              r.issues[0].title == Cat([Fixed(if count < 300 then TooLittle else Little), Fixed(ContentInfix),
                                        Int(count), Fixed(WordsSuffix)])
  {
    var score := if count >= 1500 then 100.0 else if count >= 600 then 90.0 else if count >= 300 then 60.0 else 20.0;
    var issues := if count >= 600 then []
                  else [Issue(if count < 300 then Important else Recommendation,
                              Cat([Fixed(if count < 300 then TooLittle else Little), Fixed(ContentInfix),
                                   Int(count), Fixed(WordsSuffix)]),
                              if count < 300 then 8 else 5, Fixed(ThinDesc), Some(Fixed(ThinFix)))];
    Rule(Check(count >= 300, score), issues)
  }

  /** More words never lower the word-count score. */
  lemma WordCountMonotone(a: nat, b: nat)
    requires a <= b
    ensures WordCountRule(a).check.score <= WordCountRule(b).check.score
  {
  }

  /** Text length as a percentage of HTML length; 0 for an empty page. */
  function TextShare(textLength: nat, htmlLength: nat): (ratio: real)
    ensures ratio >= 0.0
    ensures htmlLength == 0 ==> ratio == 0.0
    ensures htmlLength > 0 ==> ratio * htmlLength as real == textLength as real * 100.0
  {
    if htmlLength > 0 then
      var q := textLength as real / htmlLength as real;
      assert q * htmlLength as real == textLength as real;
      q * 100.0
    else 0.0
  }

  /**
   * Text-to-HTML ratio: 15% or more scores 100 and passes; below, the score is the
   * truncated share of 15% reached, always under 100, and a recommendation (impact 4)
   * is raised.
   */
  function RatioRule(ratio: real): (r: Rule)
    requires ratio >= 0.0
    ensures r.check.pass <==> ratio >= 15.0
    ensures ratio >= 15.0 ==> r.check.score == 100.0
    ensures ratio < 15.0 ==> r.check.score == (ratio / 15.0 * 100.0).Floor as real && r.check.score < 100.0
    ensures r.issues != [] <==> ratio < 15.0
    ensures |r.issues| <= 1 && RuleOk(r)
    ensures r.issues != [] ==> r.issues[0].severity == Recommendation && r.issues[0].impact == 4
                               && r.issues[0].title == Cat([Fixed(LowRatioPrefix), Dec(ratio, 1), Fixed(PercentSign)])
  {
    if ratio >= 15.0 then Rule(Check(true, 100.0), [])
    else
      var share := ratio / 15.0;
      assert share * 15.0 == ratio;
      var rest := 1.0 - share;
      assert rest * 15.0 == 15.0 - ratio;
      Rule(Check(false, (share * 100.0).Floor as real),
           [Issue(Recommendation, Cat([Fixed(LowRatioPrefix), Dec(ratio, 1), Fixed(PercentSign)]), 4,
                  Fixed(LowRatioDesc), Some(Fixed(LowRatioFix)))])
  }

  /**
   * Readability, from the Flesch reading ease: only computed above 50 words (otherwise
   * scores 0 and fails). 60 or more scores 100, 50 or more 80, lower 60 with a
   * recommendation (impact 3); the check passes from 50. When the library raises, the
   * check passes with 70.
   */
  function ReadabilityRule(wordCount: nat, ease: Outcome<real>): (r: Rule)
    ensures wordCount <= 50 ==> r == Rule(Check(false, 0.0), [])
    ensures wordCount > 50 && ease.Raised? ==> r == Rule(Check(true, 70.0), [])
    ensures wordCount > 50 && ease.Ok? ==>
              && (r.check.pass <==> ease.value >= 50.0)
              && r.check.score == (if ease.value >= 60.0 then 100.0 else if ease.value >= 50.0 then 80.0 else 60.0)
              && (r.issues != [] <==> ease.value < 50.0)
              && (r.issues != [] ==> r.issues[0].severity == Recommendation && r.issues[0].impact == 3)
    ensures |r.issues| <= 1 && RuleOk(r)
  {
    if wordCount > 50 then
      match ease
      case Raised(_) => Rule(Check(true, 70.0), [])
      case Ok(e) =>
        var score := if e >= 60.0 then 100.0 else if e >= 50.0 then 80.0 else 60.0;
        Rule(Check(e >= 50.0, score),
             if e < 50.0 then
               [Issue(Recommendation, Fixed(HardText), 3,
                      Cat([Fixed(ReadabilityPrefix), Dec(e, 0), Fixed(ReadabilitySuffix)]), Some(Fixed(HardTextFix)))]
             else [])
    else Rule(Check(false, 0.0), [])
  }

  /** The stop words `analyze_content` leaves out of the keyword count. */
  const StopWords: set<string> := {
    "i", "w", "z", "na", "do", "się", "to", "że", "po", "jest", "być", "o", "ale", "dla", "od",
    "przez", "oraz", "jak", "jako", "więcej", "też", "już", "tylko", "bardzo", "był", "może",
    "można", "we", "ze", "and", "the", "a", "an", "of", "in", "for", "on", "with", "at", "by",
    "from", "as", "is", "are", "was", "were"
  }

  /** Stop words are matched case-insensitively: a capitalised one is still no keyword. */
  lemma CapitalisedStopWordIsNoCandidate()
    ensures !IsCandidate("Oraz", StopWords)
  {
    assert Lower("Oraz") == "oraz";
  }

  /** A keyword candidate: a word longer than three characters whose lowercase form is no stop word. */
  predicate IsCandidate(word: string, stopWords: set<string>) {
    |word| > 3 && Lower(word) !in stopWords
  }

  /**
   * The lowercased keyword candidates, in text order: one word gives its lowercase form
   * exactly when it is a candidate, and with `CandidatesConcat` the words of a text give
   * theirs one after another.
   */
  function Candidates(words: seq<string>, stopWords: set<string>): (r: seq<string>)
    ensures |r| <= |words|
    ensures forall i :: 0 <= i < |r| ==> |r[i]| > 3 && r[i] !in stopWords
    ensures r == [] <==> forall i :: 0 <= i < |words| ==> !IsCandidate(words[i], stopWords)
    ensures |words| == 1 ==> r == if IsCandidate(words[0], stopWords) then [Lower(words[0])] else []
  {
    if |words| == 0 then []
    else
      var rest := Candidates(words[1..], stopWords);
      assert forall i :: 1 <= i < |words| ==> words[i] == words[1..][i - 1];
      if IsCandidate(words[0], stopWords) then [Lower(words[0])] + rest else rest
  }

  /** The candidates of two texts in a row are those of the first, then those of the second. */
  lemma {:induction false} CandidatesConcat(a: seq<string>, b: seq<string>, stopWords: set<string>)
    ensures Candidates(a + b, stopWords) == Candidates(a, stopWords) + Candidates(b, stopWords)
    decreases |a|
  {
    if |a| == 0 {
      assert a + b == b;
    } else {
      assert (a + b)[1..] == a[1..] + b;
      CandidatesConcat(a[1..], b, stopWords);
    }
  }

  /**
   * The index of the word `Counter(xs).most_common(1)` picks among `xs[..n]`: a word with
   * the highest count in `xs`, and of those the one seen first.
   */
  function MostCommonIndex(xs: seq<string>, n: nat): (b: nat)
    requires 0 < n <= |xs|
    ensures b < n
    ensures forall j :: 0 <= j < n ==> multiset(xs)[xs[j]] <= multiset(xs)[xs[b]]
    ensures forall j :: 0 <= j < b ==> multiset(xs)[xs[j]] < multiset(xs)[xs[b]]
  {
    if n == 1 then 0
    else
      var b := MostCommonIndex(xs, n - 1);
      if multiset(xs)[xs[n - 1]] > multiset(xs)[xs[b]] then n - 1 else b
  }

  /** The top keyword: no word occurs more often, and it is the first of the most frequent. */
  function TopKeyword(xs: seq<string>): (top: (string, nat))
    requires |xs| > 0
    ensures top.0 in xs && top.1 == multiset(xs)[top.0]
    ensures forall w :: multiset(xs)[w] <= top.1
    ensures forall j :: 0 <= j < |xs| && multiset(xs)[xs[j]] == top.1 ==> xs[j] == top.0 || exists k :: 0 <= k < j && xs[k] == top.0
  {
    var b := MostCommonIndex(xs, |xs|);
    forall w ensures multiset(xs)[w] <= multiset(xs)[xs[b]] {
      if w in xs {
        var j :| 0 <= j < |xs| && xs[j] == w;
      }
    }
    (xs[b], multiset(xs)[xs[b]])
  }

  /**
   * Keyword density d: 1 to 3% scores 100 and passes, otherwise under 5% scores 50 and
   * 5% or more 0; an important issue (impact 7) about stuffing is raised only above 5%.
   */
  function DensityRule(density: real, topWord: string): (r: Rule)
    ensures r.check.pass <==> 1.0 <= density <= 3.0
    ensures r.check.score == (if 1.0 <= density <= 3.0 then 100.0 else if density < 5.0 then 50.0 else 0.0)
    ensures r.issues != [] <==> density > 5.0
    ensures |r.issues| <= 1 && RuleOk(r)
    ensures r.issues != [] ==>
              r.issues[0].severity == Important && r.issues[0].impact == 7
              && r.issues[0].title == Cat([Fixed(StuffingPrefix), Str(topWord), Fixed(QuoteOpenParen),
                                           Dec(density, 1), Fixed(PercentCloseParen)])
  {
    var inRange := 1.0 <= density <= 3.0;
    Rule(Check(inRange, if inRange then 100.0 else if density < 5.0 then 50.0 else 0.0),
         if density > 5.0 then
           [Issue(Important, Cat([Fixed(StuffingPrefix), Str(topWord), Fixed(QuoteOpenParen),
                                  Dec(density, 1), Fixed(PercentCloseParen)]), 7,
                  Fixed(StuffingDesc), Some(Fixed(StuffingFix)))]
         else [])
  }

  /** A density of exactly 5% already scores 0 but raises no stuffing issue. */
  lemma DensityGapAtFive(topWord: string)
    ensures DensityRule(5.0, topWord).check.score == 0.0 && DensityRule(5.0, topWord).issues == []
  {
  }

  /**
   * Keyword density: the top candidate's count over the number of all words, in percent,
   * scored by `DensityRule`; with no candidate the check passes with 70.
   */
  function KeywordDensityRule(words: seq<string>, stopWords: set<string>): (r: Rule)
    ensures RuleOk(r)
  {
    var candidates := Candidates(words, stopWords);
    if candidates == [] then Rule(Check(true, 70.0), [])
    else
      var top := TopKeyword(candidates);
      assert top.1 <= |candidates| by {
        assert multiset(candidates)[top.0] <= |multiset(candidates)|;
      }
      DensityRule(PercentOf(top.1, |words|), top.0)
  }

  /**
   * Without a keyword candidate the density check passes with 70; otherwise it is scored
   * on the share of all words taken by the most frequent candidate.
   */
  lemma KeywordDensityOfTopCandidate(words: seq<string>, stopWords: set<string>)
    ensures Candidates(words, stopWords) == [] ==> KeywordDensityRule(words, stopWords) == Rule(Check(true, 70.0), [])
    ensures Candidates(words, stopWords) != [] ==>
              var top := TopKeyword(Candidates(words, stopWords));
              top.1 <= |words| && |words| > 0 && KeywordDensityRule(words, stopWords) == DensityRule(PercentOf(top.1, |words|), top.0)
  {
    var candidates := Candidates(words, stopWords);
    if candidates != [] {
      var top := TopKeyword(candidates);
      assert multiset(candidates)[top.0] <= |multiset(candidates)|;
    }
  }

  /** The number of paragraphs with more than 150 words. */
  function LongParagraphs(paragraphWords: seq<nat>): (n: nat)
    ensures n <= |paragraphWords|
    ensures n == 0 <==> forall i :: 0 <= i < |paragraphWords| ==> paragraphWords[i] <= 150
  {
    if |paragraphWords| == 0 then 0
    else
      assert forall i :: 1 <= i < |paragraphWords| ==> paragraphWords[i] == paragraphWords[1..][i - 1];
      (if paragraphWords[0] > 150 then 1 else 0) + LongParagraphs(paragraphWords[1..])
  }

  /**
   * Paragraphs: scores 100 when no paragraph has more than 150 words, else 70 with a
   * recommendation (impact 3); it passes while under 30% of the paragraphs are long.
   */
  function ParagraphsRule(paragraphWords: seq<nat>): (r: Rule)
    ensures r.check.pass <==> LongParagraphs(paragraphWords) as real < |paragraphWords| as real * 0.3
    ensures r.check.score == if LongParagraphs(paragraphWords) == 0 then 100.0 else 70.0
    ensures r.issues != [] <==> LongParagraphs(paragraphWords) > 0
    ensures |r.issues| <= 1 && RuleOk(r)
    ensures r.issues != [] ==> r.issues[0].severity == Recommendation && r.issues[0].impact == 3
                               && r.issues[0].title == Cat([Int(LongParagraphs(paragraphWords)), Fixed(LongParagraphsSuffix)])
  {
    var long := LongParagraphs(paragraphWords);
    Rule(Check(long as real < |paragraphWords| as real * 0.3, if long == 0 then 100.0 else 70.0),
         if long > 0 then
           [Issue(Recommendation, Cat([Int(long), Fixed(LongParagraphsSuffix)]), 3,
                  Fixed(LongParagraphsDesc), Some(Fixed(LongParagraphsFix)))]
         else [])
  }

  /** A page without any paragraph fails the paragraph check yet scores 100 on it. */
  lemma NoParagraphsFailsAtFullScore()
    ensures !ParagraphsRule([]).check.pass && ParagraphsRule([]).check.score == 100.0
  {
  }

  /**
   * The rules `analyze_content` applies, each under the key its check is recorded with, in
   * order, given the stop words it leaves out of the keyword count.
   */
  function ContentRules(doc: ContentDoc, stopWords: set<string>): (rs: seq<(CheckId, Rule)>)
    ensures |rs| == 5 && AllRulesOk(rs)
    ensures rs[0].0 == WordCount && rs[1].0 == TextHtmlRatio && rs[2].0 == Readability
    ensures rs[3].0 == KeywordDensity && rs[4].0 == Paragraphs
  {
    var words := Words(doc.text);
    var rs := [(WordCount, WordCountRule(|words|)),
               (TextHtmlRatio, RatioRule(TextShare(|doc.text|, |doc.html|))),
               (Readability, ReadabilityRule(|words|, doc.readingEase)),
               (KeywordDensity, KeywordDensityRule(words, stopWords)),
               (Paragraphs, ParagraphsRule(doc.paragraphWords))];
    FiveRulesOk(rs);
    rs
  }

  /** What `analyze_content` returns: the five checks in order, their issues, and their mean. */
  function ContentResult(doc: ContentDoc, stopWords: set<string>): CategoryResult {
    Assemble(ContentRules(doc, stopWords))
  }

  /**
   * Exactly five checks are always recorded; the score is their mean and a percentage, and
   * every issue has an impact between 1 and 10.
   */
  lemma ContentResultWellScored(doc: ContentDoc, stopWords: set<string>)
    ensures Names(ContentResult(doc, stopWords).checks) == [WordCount, TextHtmlRatio, Readability, KeywordDensity, Paragraphs]
    ensures WellScored(ContentResult(doc, stopWords)) && Percent(ContentResult(doc, stopWords).score)
    ensures ImpactsInRange(ContentResult(doc, stopWords).issues)
  {
    var rs := ContentRules(doc, stopWords);
    AssembleWellScored(rs);
    var names := Names(Assemble(rs).checks);
    assert |names| == 5;
    ListOfFive(names);
  }

  /**
   * `analyze_content`, recording each check and appending its issues in turn; the source
   * always leaves out `StopWords`.
   */
  method AnalyzeContent(doc: ContentDoc, stopWords: set<string>) returns (r: CategoryResult)
    ensures r == ContentResult(doc, stopWords)
  {
    var rules := ContentRules(doc, stopWords);
    r := AssembleInTurn(rules);
  }
}
