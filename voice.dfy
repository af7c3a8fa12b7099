/** The voice assistant's command matcher. A final transcript (already lower-cased and
    trimmed by the recogniser callback) is matched against the current language's phrase table
    in three tiers, tried in order:

      1. exact: the transcript equals the lower-cased phrase;
      2. substring: either contains the other;
      3. word: some word of the phrase and some word of the transcript, both cut at single
         spaces, contain one another.

    Within a tier the first phrase in table order wins. A match switches the active view and
    raises a notification; otherwise up to two suggestions are chosen by word similarity. */
module Voice {
  import opened Wrappers
  import opened Types
  import Text
  import Seqs
  import AppStore
  import opened CommandTable

  /** `Object.keys(commands)`: the phrases, in table order. */
  function Keys(table: Table): (keys: seq<string>)
    ensures |keys| == |table|
    ensures forall i :: 0 <= i < |table| ==> keys[i] == table[i].0
  {
    seq(|table|, i requires 0 <= i < |table| => table[i].0)
  }

  // ---------------------------------------------------------------------------
  // The three tiers
  // ---------------------------------------------------------------------------

  datatype Tier = Exact | Substring | Word

  /** Either word contains the other. */
  predicate WordsOverlap(a: string, b: string)
  {
    Text.Includes(a, b) || Text.Includes(b, a)
  }

  /** Some word of the phrase and some word of the transcript overlap. */
  predicate WordsShared(transcript: string, phrase: string)
  {
    var words := Text.Split(Text.Lower(phrase));
    var tWords := Text.Split(transcript);
    exists i, j :: 0 <= i < |words| && 0 <= j < |tWords| && WordsOverlap(tWords[j], words[i])
  }

  /** Whether `phrase` fits `transcript` in the given tier. */
  predicate Hits(tier: Tier, transcript: string, phrase: string)
  {
    match tier
    case Exact => transcript == Text.Lower(phrase)
    case Substring =>
      Text.Includes(transcript, Text.Lower(phrase)) || Text.Includes(Text.Lower(phrase), transcript)
    case Word => WordsShared(transcript, phrase)
  }

  /** Entry `i` is the first of `table` that fits in `tier`. */
  predicate FirstIn(tier: Tier, table: Table, transcript: string, i: nat)
  {
    i < |table| && Hits(tier, transcript, table[i].0)
    && forall j :: 0 <= j < i ==> !Hits(tier, transcript, table[j].0)
  }

  /** No entry of `table` fits in `tier`. */
  predicate NoneIn(tier: Tier, table: Table, transcript: string)
  {
    forall j :: 0 <= j < |table| ==> !Hits(tier, transcript, table[j].0)
  }

  /** `Object.keys(commands).find(...)` for one tier. */
  function FirstHit(tier: Tier, table: Table, transcript: string): (r: Option<nat>)
    ensures r.Some? ==> FirstIn(tier, table, transcript, r.value)
    ensures r.None? <==> NoneIn(tier, table, transcript)
  {
    Seqs.FindIndex(Keys(table), (k: string) => Hits(tier, transcript, k))
  }

  /** The entry `processCommand` acts on: the first tier with a hit decides, and within it
      the first entry in table order. */
  function Match(table: Table, transcript: string): (r: Option<nat>)
    ensures r.Some? ==> r.value < |table|
    ensures !NoneIn(Exact, table, transcript) ==>
      r.Some? && FirstIn(Exact, table, transcript, r.value)
    ensures NoneIn(Exact, table, transcript) && !NoneIn(Substring, table, transcript) ==>
      r.Some? && FirstIn(Substring, table, transcript, r.value)
    ensures NoneIn(Exact, table, transcript) && NoneIn(Substring, table, transcript)
      ==> r == FirstHit(Word, table, transcript)
    ensures r.None? <==>
      NoneIn(Exact, table, transcript) && NoneIn(Substring, table, transcript)
      && NoneIn(Word, table, transcript)
  {
    match FirstHit(Exact, table, transcript)
    case Some(i) => Some(i)
    case None =>
      match FirstHit(Substring, table, transcript)
      case Some(i) => Some(i)
      case None => FirstHit(Word, table, transcript)
  }

  /** A word without spaces found anywhere in `s` lies inside one of the words of
      `s.split(' ')`. */
  lemma {:induction false} SpacelessInSomeWord(s: string, w: string, o: nat)
    requires Text.OccursAt(s, w, o) && ' ' !in w
    ensures exists j :: 0 <= j < |Text.Split(s)| && Text.Includes(Text.Split(s)[j], w)
    decreases |s|
  {
    var k := Text.IndexOf(s, ' ');
    var words := Text.Split(s);
    if k == |s| {
      assert words[0] == s;
      Text.IncludesIff(s, w);
    } else if o + |w| <= k {
      var first := s[..k];
      assert words[0] == first;
      assert first[o..o + |w|] == s[o..o + |w|];
      assert Text.OccursAt(first, w, o);
      Text.IncludesIff(first, w);
    } else {
      assert s[k] == ' ';
      assert k < o;
      var rest := s[k + 1..];
      assert rest[o - k - 1..o - k - 1 + |w|] == s[o..o + |w|];
      SpacelessInSomeWord(rest, w, o - k - 1);
      var j :| 0 <= j < |Text.Split(rest)| && Text.Includes(Text.Split(rest)[j], w);
      assert words == [s[..k]] + Text.Split(rest);
      assert words[j + 1] == Text.Split(rest)[j];
    }
  }

  /** If one string contains another, some word of each overlaps some word of the other. */
  lemma IncludedSharesWord(outer: string, inner: string)
    requires Text.Includes(outer, inner)
    ensures exists i, j ::
      (0 <= i < |Text.Split(inner)| && 0 <= j < |Text.Split(outer)|
       && Text.Includes(Text.Split(outer)[j], Text.Split(inner)[i]))
  {
    var w := Text.Split(inner)[0];
    var k := Text.IndexOf(inner, ' ');
    assert w == inner[..k];
    Text.IncludesIff(outer, inner);
    var o: nat :| Text.OccursAt(outer, inner, o);
    assert outer[o..o + |w|] == inner[..k];
    SpacelessInSomeWord(outer, w, o);
  }

  /** A hit in an earlier tier is also a hit in every later one, so the tiers only decide which
      entry is chosen, never whether one is. */
  lemma TiersNested(transcript: string, phrase: string)
    ensures Hits(Exact, transcript, phrase) ==> Hits(Substring, transcript, phrase)
    ensures Hits(Substring, transcript, phrase) ==> Hits(Word, transcript, phrase)
  {
    var lower := Text.Lower(phrase);
    if transcript == lower {
      Text.IncludesSelf(transcript);
    }
    if Text.Includes(transcript, lower) {
      IncludedSharesWord(transcript, lower);
      var i, j :| 0 <= i < |Text.Split(lower)| && 0 <= j < |Text.Split(transcript)|
        && Text.Includes(Text.Split(transcript)[j], Text.Split(lower)[i]);
      assert WordsOverlap(Text.Split(transcript)[j], Text.Split(lower)[i]);
    } else if Text.Includes(lower, transcript) {
      IncludedSharesWord(lower, transcript);
      var i, j :| 0 <= i < |Text.Split(transcript)| && 0 <= j < |Text.Split(lower)|
        && Text.Includes(Text.Split(lower)[j], Text.Split(transcript)[i]);
      assert WordsOverlap(Text.Split(transcript)[i], Text.Split(lower)[j]);
    }
  }

  /** A transcript is recognised exactly when some phrase shares a word with it. */
  lemma MatchedIffWordShared(table: Table, transcript: string)
    ensures Match(table, transcript).Some? <==> !NoneIn(Word, table, transcript)
  {
    forall j | 0 <= j < |table|
      ensures Hits(Exact, transcript, table[j].0) ==> Hits(Word, transcript, table[j].0)
      ensures Hits(Substring, transcript, table[j].0) ==> Hits(Word, transcript, table[j].0)
    {
      TiersNested(transcript, table[j].0);
    }
  }

  /** When the transcript has an empty word (a doubled space, say) and neither of the first two
      tiers hits, the word tier picks the very first phrase: every word contains "". */
  lemma EmptyWordPicksFirstPhrase(table: Table, transcript: string)
    requires |table| >= 1
    requires "" in Text.Split(transcript)
    requires NoneIn(Exact, table, transcript) && NoneIn(Substring, table, transcript)
    ensures Match(table, transcript) == Some(0)
  {
    var tWords := Text.Split(transcript);
    var j :| 0 <= j < |tWords| && tWords[j] == "";
    var words := Text.Split(Text.Lower(table[0].0));
    Text.IncludesEmpty(words[0]);
    assert WordsOverlap(tWords[j], words[0]);
    assert Hits(Word, transcript, table[0].0);
  }

  // ---------------------------------------------------------------------------
  // Similarity
  // ---------------------------------------------------------------------------

  type Positive = n: nat | n >= 1 witness 1

  /** `matches / Math.max(words1.length, words2.length)`, kept as a fraction. */
  datatype Score = Score(matches: nat, words: Positive)

  /** Strictly higher similarity, compared by cross-multiplication. */
  predicate Better(a: Score, b: Score)
  {
    a.matches * b.words > b.matches * a.words
  }

  /** `similarity > 0.3`. */
  predicate AboveThreshold(s: Score)
  {
    10 * s.matches > 3 * s.words
  }

  /** Number of words in `ws` that overlap `w`. */
  function CountWith(w: string, ws: seq<string>): (n: nat)
    ensures n <= |ws|
  {
    if ws == [] then 0
    else CountWith(w, ws[..|ws| - 1]) + (if WordsOverlap(w, ws[|ws| - 1]) then 1 else 0)
  }

  /** Number of pairs (a word of `xs`, a word of `ys`) that overlap. */
  function CountPairs(xs: seq<string>, ys: seq<string>): nat
  {
    if xs == [] then 0
    else CountPairs(xs[..|xs| - 1], ys) + CountWith(xs[|xs| - 1], ys)
  }

  lemma {:induction false} CountPairsBounded(xs: seq<string>, ys: seq<string>)
    ensures CountPairs(xs, ys) <= |xs| * |ys|
  {
    if xs != [] {
      CountPairsBounded(xs[..|xs| - 1], ys);
      assert (|xs| - 1) * |ys| + |ys| == |xs| * |ys|;
    }
  }

  /** `calculateSimilarity(str1, str2)`. */
  function Similarity(str1: string, str2: string): Score
  {
    var words1 := Text.Split(Text.Lower(str1));
    var words2 := Text.Split(Text.Lower(str2));
    Score(CountPairs(words1, words2), if |words1| < |words2| then |words2| else |words1|)
  }

  /** At most every pair of words overlaps: the match count never exceeds the product of the
      two word counts. */
  lemma SimilarityBounded(str1: string, str2: string)
    ensures Similarity(str1, str2).matches
      <= |Text.Split(Text.Lower(str1))| * |Text.Split(Text.Lower(str2))|
  {
    CountPairsBounded(Text.Split(Text.Lower(str1)), Text.Split(Text.Lower(str2)));
  }

  /** The nested `forEach` loops that count overlapping word pairs. */
  method CalculateSimilarity(str1: string, str2: string) returns (s: Score)
    ensures s == Similarity(str1, str2)
  {
    var words1 := Text.Split(Text.Lower(str1));
    var words2 := Text.Split(Text.Lower(str2));
    var matches := 0;
    var i := 0;
    while i < |words1|
      invariant 0 <= i <= |words1|
      invariant matches == CountPairs(words1[..i], words2)
    {
      var j := 0;
      while j < |words2|
        invariant 0 <= j <= |words2|
        invariant matches == CountPairs(words1[..i], words2) + CountWith(words1[i], words2[..j])
      {
        if Text.Includes(words1[i], words2[j]) || Text.Includes(words2[j], words1[i]) {
          matches := matches + 1;
        }
        assert words2[..j + 1][..j] == words2[..j];
        j := j + 1;
      }
      assert words2[..j] == words2;
      assert words1[..i + 1][..i] == words1[..i];
      i := i + 1;
    }
    assert words1[..i] == words1;
    s := Score(matches, if |words1| < |words2| then |words2| else |words1|);
  }

  /** Adding a word to the second list adds the first list's overlaps with it. */
  lemma {:induction false} CountPairsSnoc(xs: seq<string>, ys: seq<string>, x: string)
    ensures CountPairs(xs, ys + [x]) == CountPairs(xs, ys) + CountWith(x, xs)
    decreases |xs|
  {
    if xs != [] {
      var front := xs[..|xs| - 1];
      var last := xs[|xs| - 1];
      CountPairsSnoc(front, ys, x);
      assert (ys + [x])[..|ys + [x]| - 1] == ys;
      assert WordsOverlap(last, x) == WordsOverlap(x, last);
    }
  }

  /** No word overlaps a word of the empty list. */
  lemma {:induction false} CountPairsEmptyRight(xs: seq<string>)
    ensures CountPairs(xs, []) == 0
  {
    if xs != [] {
      CountPairsEmptyRight(xs[..|xs| - 1]);
    }
  }

  /** Overlap is symmetric, so the pair count does not depend on the order of the strings. */
  lemma {:induction false} CountPairsSymmetric(xs: seq<string>, ys: seq<string>)
    ensures CountPairs(xs, ys) == CountPairs(ys, xs)
    decreases |xs|
  {
    if xs == [] {
      CountPairsEmptyRight(ys);
    } else {
      var front := xs[..|xs| - 1];
      var last := xs[|xs| - 1];
      CountPairsSymmetric(front, ys);
      CountPairsSnoc(ys, front, last);
      assert CountPairs(xs, ys) == CountPairs(front, ys) + CountWith(last, ys);
      assert front + [last] == xs;
    }
  }

  /** `calculateSimilarity` is symmetric in its arguments. */
  lemma SimilaritySymmetric(str1: string, str2: string)
    ensures Similarity(str1, str2) == Similarity(str2, str1)
  {
    CountPairsSymmetric(Text.Split(Text.Lower(str1)), Text.Split(Text.Lower(str2)));
  }

  // ---------------------------------------------------------------------------
  // Ordering scores
  // ---------------------------------------------------------------------------

  /** The identity behind both mixed transitivity laws below. */
  lemma CrossIdentity(a: Score, b: Score, c: Score)
    ensures (a.matches * c.words - c.matches * a.words) * b.words
      == (a.matches * b.words - b.matches * a.words) * c.words
         + (b.matches * c.words - c.matches * b.words) * a.words
  {
  }

  lemma PositiveFactor(x: int, y: int)
    requires y > 0 && x * y > 0
    ensures x > 0
  {
  }

  /** `a > b >= c` gives `a > c`. */
  lemma BetterThenNotWorse(a: Score, b: Score, c: Score)
    requires Better(a, b) && !Better(c, b)
    ensures Better(a, c)
  {
    var x := a.matches * b.words - b.matches * a.words;
    var y := b.matches * c.words - c.matches * b.words;
    assert x * c.words > 0;
    assert y * a.words >= 0;
    CrossIdentity(a, b, c);
    PositiveFactor(a.matches * c.words - c.matches * a.words, b.words);
  }

  /** `a >= b > c` gives `a > c`. */
  lemma NotWorseThenBetter(a: Score, b: Score, c: Score)
    requires !Better(b, a) && Better(b, c)
    ensures Better(a, c)
  {
    var x := a.matches * b.words - b.matches * a.words;
    var y := b.matches * c.words - c.matches * b.words;
    assert x * c.words >= 0;
    assert y * a.words > 0;
    CrossIdentity(a, b, c);
    PositiveFactor(a.matches * c.words - c.matches * a.words, b.words);
  }

  /** Among the first `n` entries other than `skip`, entry `i` is the one a stable sort by
      descending score puts first after dropping those at or below 0.3: it clears the threshold,
      no qualifying entry scores higher, and every qualifying entry before it scores lower. */
  ghost predicate EarliestBest(l: seq<(string, Score)>, n: nat, i: nat, skip: int)
    requires n <= |l|
  {
    i < n && i != skip && AboveThreshold(l[i].1)
    && (forall j | 0 <= j < n && j != skip && AboveThreshold(l[j].1) :: !Better(l[j].1, l[i].1))
    && (forall j | 0 <= j < i && j != skip && AboveThreshold(l[j].1) :: Better(l[i].1, l[j].1))
  }

  /** The earliest best qualifying entry among the first `n` other than `skip`, if any
      qualifies. */
  function BestUpTo(l: seq<(string, Score)>, n: nat, skip: int): (r: Option<nat>)
    requires n <= |l|
    ensures r.None? <==> forall j | 0 <= j < n && j != skip :: !AboveThreshold(l[j].1)
    ensures r.Some? ==> EarliestBest(l, n, r.value, skip)
  {
    if n == 0 then None
    else
      var prev := BestUpTo(l, n - 1, skip);
      var x := l[n - 1].1;
      if n - 1 == skip || !AboveThreshold(x) then prev
      else
        match prev
        case None => Some(n - 1)
        case Some(b) =>
          if Better(x, l[b].1) then
            assert forall j | 0 <= j < n - 1 && j != skip && AboveThreshold(l[j].1) ::
              Better(x, l[j].1) by {
              forall j | 0 <= j < n - 1 && j != skip && AboveThreshold(l[j].1)
                ensures Better(x, l[j].1)
              {
                BetterThenNotWorse(x, l[b].1, l[j].1);
              }
            }
            Some(n - 1)
          else
            Some(b)
  }

  /** `.filter(item => item.similarity > 0.3).sort((a, b) => b.similarity - a.similarity)
      .slice(0, 2)` with a stable sort, as positions in the scored list: the earliest best
      qualifying entry, then the earliest best of the others; fewer when fewer qualify. */
  function SuggestionIndices(l: seq<(string, Score)>): (idx: seq<nat>)
    ensures |idx| <= 2
    ensures forall k :: 0 <= k < |idx| ==> idx[k] < |l|
    ensures idx == [] <==> forall j :: 0 <= j < |l| ==> !AboveThreshold(l[j].1)
    ensures |idx| >= 1 ==> EarliestBest(l, |l|, idx[0], -1)
    ensures |idx| == 1 ==> forall j | 0 <= j < |l| && j != idx[0] :: !AboveThreshold(l[j].1)
    ensures |idx| == 2 ==> EarliestBest(l, |l|, idx[1], idx[0])
  {
    match BestUpTo(l, |l|, -1)
    case None => []
    case Some(b) =>
      match BestUpTo(l, |l|, b)
      case None => [b]
      case Some(c) => [b, c]
  }

  /** A single qualifying entry is suggested alone. */
  lemma SingleQualifierAlone(l: seq<(string, Score)>, i: nat)
    requires i < |l| && AboveThreshold(l[i].1)
    requires forall j | 0 <= j < |l| && j != i :: !AboveThreshold(l[j].1)
    ensures SuggestionIndices(l) == [i]
  {
  }

  // ---------------------------------------------------------------------------
  // Suggestions
  // ---------------------------------------------------------------------------

  /** `commandKeys.map(cmd => ({ cmd, similarity: calculateSimilarity(transcript, cmd) }))`. */
  function Scored(table: Table, transcript: string): (l: seq<(string, Score)>)
    ensures |l| == |table|
    ensures forall i :: 0 <= i < |table| ==> l[i].0 == table[i].0
  {
    seq(|table|, i requires 0 <= i < |table| =>
      (table[i].0, Similarity(transcript, table[i].0)))
  }

  /** Each phrase is scored by its similarity to the transcript. */
  lemma ScoredIsSimilarity(table: Table, transcript: string, i: nat)
    requires i < |table|
    ensures Scored(table, transcript)[i].1 == Similarity(transcript, table[i].0)
  {
  }

  /** `getSuggestions(transcript)`: the phrases at `SuggestionIndices` of the scored table, or
      the table's first two phrases when no phrase scores above 0.3. */
  function Suggestions(table: Table, transcript: string): (r: seq<string>)
    requires |table| >= 2
    ensures 1 <= |r| <= 2
    ensures var idx := SuggestionIndices(Scored(table, transcript));
      (idx == [] ==> r == [table[0].0, table[1].0])
      && (idx != [] ==> |r| == |idx| && forall k :: 0 <= k < |idx| ==> r[k] == table[idx[k]].0)
  {
    var idx := SuggestionIndices(Scored(table, transcript));
    if idx == [] then [table[0].0, table[1].0]
    else seq(|idx|, k requires 0 <= k < |idx| => table[idx[k]].0)
  }

  // ---------------------------------------------------------------------------
  // Acting on a match
  // ---------------------------------------------------------------------------

  /** The notification announcing a recognised command; its message names the phrase. */
  function VoiceNotice(lang: Language, phrase: string): (n: Notification)
    ensures n.kind == NotificationType.Success && !n.read
    ensures Text.Includes(n.message, phrase)
  {
    var (title, before, after) :=
      match lang
      case En => ("Voice Command", "Navigating to ", "")
      case Hi => ("आवाज़ कमांड", "", " पर जा रहे हैं");
    Text.IncludesMiddle(before, phrase, after);
    Notification("", title, before + phrase + after, NotificationType.Success, false, "")
  }

  /** `processCommand(transcript)`. On a match the active view becomes the phrase's target
      and one success notification naming the phrase is added; otherwise the store is left as
      it is and the suggestions that would be spoken are returned. */
  method ProcessCommand(store: AppStore.Store, transcript: string, noticeAt: AppStore.Stamp)
    returns (suggestions: seq<string>)
    modifies store
    ensures var table := Commands(old(store.language));
      match Match(table, transcript)
      case Some(i) =>
        suggestions == []
        && store.State() == old(store.State()).(
             activeTab := table[i].1,
             notifications := AppStore.PushNotification(old(store.notifications),
               VoiceNotice(old(store.language), table[i].0)
                 .(id := noticeAt.millis, createdAt := noticeAt.iso)))
      case None =>
        suggestions == Suggestions(table, transcript) && store.State() == old(store.State())
  {
    var lang := store.language;
    var table := Commands(lang);
    match Match(table, transcript)
    case Some(i) =>
      store.SetActiveTab(table[i].1);
      store.AddNotification(VoiceNotice(lang, table[i].0), noticeAt);
      suggestions := [];
    case None =>
      suggestions := Suggestions(table, transcript);
  }

  // ---------------------------------------------------------------------------
  // Worked examples
  // ---------------------------------------------------------------------------

  /** A transcript equal to a phrase resolves in the exact tier: "show customers" opens the
      customers view. */
  lemma ShowCustomersOpensCustomers()
    ensures Match(Commands(En), "show customers") == Some(5)
    ensures Commands(En)[5].1 == "customers"
  {
    var table := Commands(En);
    var t := "show customers";
    assert table[..6] == EnNavigation + EnCustomers[..1];
    assert Text.Lower(table[5].0) == t;
    assert Text.Lower(table[0].0)[5] == 'd';
    assert Text.Lower(table[1].0)[0] == 'o';
    assert FirstIn(Exact, table, t, 5);
  }

  /** The example sentence of `CustomerListInSentence`, "open the customer list please", built
      word by word. */
  const Sentence: string := "open" + " " + ("the" + " " + ("customer" + " " + ("list" + " " + "please")))

  /** A word without spaces occurs in `Sentence` only inside one of its words "open", "the",
      "customer", "list" and "please". */
  lemma AbsentFromSentence(w: string)
    requires ' ' !in w
    requires !Text.Includes("open", w) && !Text.Includes("the", w)
    requires !Text.Includes("customer", w) && !Text.Includes("list", w)
    requires !Text.Includes("please", w)
    ensures !Text.Includes(Sentence, w)
  {
    Text.IncludesAcrossSpace("list", "please", w);
    Text.IncludesAcrossSpace("customer", "list" + " " + "please", w);
    Text.IncludesAcrossSpace("the", "customer" + " " + ("list" + " " + "please"), w);
    Text.IncludesAcrossSpace("open", "the" + " " + ("customer" + " " + ("list" + " " + "please")), w);
  }

  /** "dashboard" is in none of the words of `Sentence`, so neither are the four phrases
      before "customer list" that contain it. */
  lemma SentenceLacksDashboard()
    ensures !Text.Includes(Sentence, "show dashboard") && !Text.Includes(Sentence, "open dashboard")
    ensures !Text.Includes(Sentence, "go to dashboard") && !Text.Includes(Sentence, "dashboard")
  {
    AbsentFromSentence("dashboard");
    Text.IncludesInfix(Sentence, "show dashboard", 5, 14);
    assert "show dashboard"[5..14] == "dashboard";
    Text.IncludesInfix(Sentence, "open dashboard", 5, 14);
    assert "open dashboard"[5..14] == "dashboard";
    Text.IncludesInfix(Sentence, "go to dashboard", 6, 15);
    assert "go to dashboard"[6..15] == "dashboard";
  }

  /** "show" is in none of the words of `Sentence`, so "show customers" is not in it either. */
  lemma SentenceLacksShowCustomers()
    ensures !Text.Includes(Sentence, "show customers")
  {
    AbsentFromSentence("show");
    Text.IncludesInfix(Sentence, "show customers", 0, 4);
    assert "show customers"[0..4] == "show";
  }

  /** "home" is in none of the words of `Sentence`. */
  lemma SentenceLacksHome()
    ensures !Text.Includes(Sentence, "home")
  {
    AbsentFromSentence("home");
  }

  /** "open customers" would bring "customers" with it, which is in none of the words of
      `Sentence` ("customer" is one letter short). */
  lemma SentenceLacksOpenCustomers()
    ensures !Text.Includes(Sentence, "open customers")
  {
    AbsentFromSentence("customers");
    Text.IncludesInfix(Sentence, "open customers", 5, 14);
    assert "open customers"[5..14] == "customers";
  }

  /** Every English phrase is at most 20 characters long and `Sentence` has 29, so neither
      equals it nor contains it. */
  lemma SentenceLongerThanPhrases()
    ensures forall j :: 0 <= j < |Commands(En)| ==>
      !Hits(Exact, Sentence, Commands(En)[j].0)
      && !Text.Includes(Text.Lower(Commands(En)[j].0), Sentence)
  {
    TargetsRendered(En);
    forall j | 0 <= j < |Commands(En)|
      ensures !Hits(Exact, Sentence, Commands(En)[j].0)
      ensures !Text.Includes(Text.Lower(Commands(En)[j].0), Sentence)
    {
      if Text.Includes(Text.Lower(Commands(En)[j].0), Sentence) {
        Text.IncludesShorter(Text.Lower(Commands(En)[j].0), Sentence);
      }
    }
  }

  /** The first eight English phrases, lower-cased. */
  lemma EnFirstPhrases()
    ensures |Commands(En)| >= 8
    ensures Text.Lower(Commands(En)[0].0) == "show dashboard"
    ensures Text.Lower(Commands(En)[1].0) == "open dashboard"
    ensures Text.Lower(Commands(En)[2].0) == "go to dashboard"
    ensures Text.Lower(Commands(En)[3].0) == "dashboard"
    ensures Text.Lower(Commands(En)[4].0) == "home"
    ensures Text.Lower(Commands(En)[5].0) == "show customers"
    ensures Text.Lower(Commands(En)[6].0) == "open customers"
    ensures Text.Lower(Commands(En)[7].0) == "customer list"
    ensures Commands(En)[7].1 == "customers"
    ensures Commands(En)[0].0 == "show dashboard" && Commands(En)[1].0 == "open dashboard"
  {
    assert Commands(En)[..8] == EnNavigation + EnCustomers[..3];
  }

  /** When no phrase equals the transcript, the first phrase it fits in the substring tier is
      the one chosen. */
  lemma SubstringTierDecides(table: Table, transcript: string, i: nat)
    requires NoneIn(Exact, table, transcript) && FirstIn(Substring, table, transcript, i)
    ensures Match(table, transcript) == Some(i)
  {
  }

  /** "customer list" is the first English phrase that `Sentence` fits in the substring
      tier. */
  lemma CustomerListFirstSubstring()
    ensures FirstIn(Substring, Commands(En), Sentence, 7)
  {
    var table := Commands(En);
    EnFirstPhrases();
    SentenceHasCustomerList();
    SentenceMissesFirstSeven();
    SentenceLongerThanPhrases();
    forall j | 0 <= j < 7 ensures !Hits(Substring, Sentence, table[j].0) {
      assert !Text.Includes(Sentence, Text.Lower(table[j].0));
      assert !Text.Includes(Text.Lower(table[j].0), Sentence);
    }
  }

  /** `Sentence` contains "customer list". */
  lemma SentenceHasCustomerList()
    ensures Text.Includes(Sentence, "customer list")
  {
    assert Sentence == "open the " + "customer list" + " please";
    Text.IncludesMiddle("open the ", "customer list", " please");
  }

  /** None of the seven English phrases before "customer list" occurs in `Sentence`. */
  lemma SentenceMissesFirstSeven()
    ensures forall j :: 0 <= j < 7 ==> !Text.Includes(Sentence, Text.Lower(Commands(En)[j].0))
  {
    EnFirstPhrases();
    SentenceLacksDashboard();
    SentenceLacksShowCustomers();
    SentenceLacksHome();
    SentenceLacksOpenCustomers();
    var table := Commands(En);
    forall j | 0 <= j < 7 ensures !Text.Includes(Sentence, Text.Lower(table[j].0)) {
      if j == 0 {} else if j == 1 {} else if j == 2 {} else if j == 3 {}
      else if j == 4 {} else if j == 5 {} else {}
    }
  }

  /** A phrase inside a longer sentence resolves in the substring tier: "open the customer list
      please" opens the customers view through "customer list", the first phrase it contains. */
  lemma CustomerListInSentence()
    ensures Match(Commands(En), Sentence) == Some(7)
    ensures Commands(En)[7].1 == "customers"
  {
    SentenceLongerThanPhrases();
    CustomerListFirstSubstring();
    SubstringTierDecides(Commands(En), Sentence, 7);
    EnFirstPhrases();
  }

  /** With no phrase scoring above 0.3, the English suggestions fall back to the table's first
      two phrases. */
  lemma EnFallbackSuggestions(transcript: string)
    requires forall j :: 0 <= j < |Commands(En)| ==>
      !AboveThreshold(Similarity(transcript, Commands(En)[j].0))
    ensures Suggestions(Commands(En), transcript) == ["show dashboard", "open dashboard"]
  {
    var l := Scored(Commands(En), transcript);
    forall j | 0 <= j < |l| ensures !AboveThreshold(l[j].1) {
      ScoredIsSimilarity(Commands(En), transcript, j);
    }
    EnFirstPhrases();
  }
}
