/**
 * Properties of the text helpers in ChatOrchestrator.py: what each regular
 * expression search returns, the first-keyword rule of the loan-type
 * extractor, and the fact that no accepted suggestion is ever hesitant.
 */
module ExtractFacts {
  import opened Wrappers
  import opened Text
  import opened Extract

  /** Every position inside the digit run that starts at i holds a digit. */
  lemma DigitRunDigits(s: string, i: nat, k: nat)
    requires i <= |s| && i <= k < i + DigitRun(s, i)
    ensures IsDigit(s[k])
  {
    assert s[k] == s[i..i + DigitRun(s, i)][k - i];
  }

  /**
   * The greedy reading of `(\d+)\s*(year|years)` is the only one: the pattern
   * matches at i exactly when the whole digit run and the whole whitespace run
   * after it are followed by `year`.
   */
  lemma GreedyTenureMatch(t: string, i: nat)
    requires i <= |t|
    ensures TenureRegexAt(t, i) <==> TenureMatchAt(t, i)
  {
    if TenureRegexAt(t, i) {
      var d: nat, w: nat :| 1 <= d <= |t| - i && w <= |t| - i - d && TenureSplit(t, i, d, w);
      SplitIsMatch(t, i, d, w);
    }
    if TenureMatchAt(t, i) {
      MatchIsRegexMatch(t, i);
    }
  }

  lemma SplitIsMatch(t: string, i: nat, d: nat, w: nat)
    requires 1 <= d && i + d + w <= |t| && TenureSplit(t, i, d, w)
    ensures TenureMatchAt(t, i)
  {
    SplitIsGreedy(t, i, d, w);
    assert IsDigit(t[i..i + d][0]);
  }

  lemma MatchIsRegexMatch(t: string, i: nat)
    requires i <= |t| && TenureMatchAt(t, i)
    ensures TenureRegexAt(t, i)
  {
    var d := DigitRun(t, i);
    var w := SpaceRun(t, i + d);
    assert TenureSplit(t, i, d, w);
  }

  /**
   * Any way of splitting a tenure match into digits, whitespace and `year`
   * takes the whole digit run and the whole whitespace run, so the number
   * captured is always the whole run.
   */
  lemma SplitIsGreedy(t: string, i: nat, d: nat, w: nat)
    requires 1 <= d && i + d + w <= |t| && TenureSplit(t, i, d, w)
    ensures d == DigitRun(t, i) && w == SpaceRun(t, i + d)
  {
    var n := DigitRun(t, i);
    var y := i + d + w;
    assert t[y] == t[y..y + |YearWord|][0] == 'y';
    forall k | i <= k < i + d ensures IsDigit(t[k]) {
      assert t[k] == t[i..i + d][k - i];
    }
    forall k | i <= k < i + n ensures IsDigit(t[k]) {
      DigitRunDigits(t, i, k);
    }
    assert IsSpace(t[i + d]) || t[i + d] == 'y';
  }

  /** A digit just before position i lengthens the run that starts at i by one. */
  lemma DigitRunStep(t: string, i: nat)
    requires 0 < i <= |t| && IsDigit(t[i - 1])
    ensures DigitRun(t, i - 1) == 1 + DigitRun(t, i)
  {
  }

  /** A tenure match never starts in the middle of a digit run: it would also match one place earlier. */
  lemma MatchExtendsLeft(t: string, i: nat)
    requires 0 < i < |t| && TenureMatchAt(t, i) && IsDigit(t[i - 1])
    ensures TenureMatchAt(t, i - 1)
  {
    DigitRunStep(t, i);
  }

  /**
   * `extract_tenure` returns twelve times the number captured at the leftmost
   * position where `(\d+)\s*(year|years)` matches the lower-cased text; that
   * position starts a digit run, so the number is the whole run.
   */
  lemma ExtractTenureFound(text: string, i: nat)
    requires i < |Lower(text)| && TenureRegexAt(Lower(text), i)
    requires forall k :: 0 <= k < i ==> !TenureRegexAt(Lower(text), k)
    ensures ExtractTenure(text) == Some(12 * RunValue(Lower(text), i))
    ensures i == 0 || !IsDigit(Lower(text)[i - 1])
  {
    LeftmostTenureMatch(Lower(text), i);
    TenureMatchStartsRun(Lower(text), i);
  }

  /** The leftmost tenure match starts a digit run. */
  lemma TenureMatchStartsRun(t: string, i: nat)
    requires i < |t| && TenureFrom(t, 0) == i
    ensures i == 0 || !IsDigit(t[i - 1])
  {
    if 0 < i && IsDigit(t[i - 1]) {
      MatchExtendsLeft(t, i);
    }
  }

  /** The search finds the leftmost position where the regular expression matches. */
  lemma LeftmostTenureMatch(t: string, i: nat)
    requires i < |t| && TenureRegexAt(t, i)
    requires forall k :: 0 <= k < i ==> !TenureRegexAt(t, k)
    ensures TenureFrom(t, 0) == i && TenureMatchAt(t, i)
  {
    GreedyTenureMatch(t, i);
    forall k | 0 <= k < i ensures !TenureMatchAt(t, k) {
      GreedyTenureMatch(t, k);
    }
  }

  /** `extract_tenure` returns None exactly when the pattern matches nowhere. */
  lemma ExtractTenureNone(text: string)
    ensures ExtractTenure(text).None? <==> forall k :: 0 <= k < |Lower(text)| ==> !TenureRegexAt(Lower(text), k)
  {
    var t := Lower(text);
    var j := TenureFrom(t, 0);
    if j < |t| {
      GreedyTenureMatch(t, j);
    } else {
      forall k | 0 <= k < |t| ensures !TenureRegexAt(t, k) {
        GreedyTenureMatch(t, k);
      }
    }
  }

  /**
   * Lakh branch of `extract_amount`: once the comma-free lower-cased text
   * mentions "lakh", the amount is the first number anywhere in it times one
   * lakh, wherever that number stands relative to the word.
   */
  lemma ExtractAmountLakh(text: string, i: nat)
    requires Contains(AmountText(text), "lakh")
    requires i < |AmountText(text)| && IsDigit(AmountText(text)[i])
    requires forall k :: 0 <= k < i ==> !IsDigit(AmountText(text)[k])
    ensures ExtractAmount(text) == Some(RunValue(AmountText(text), i) * Lakh)
  {
    assert FirstDigitFrom(AmountText(text), 0) == i;
  }

  /** Lakh branch: no amount exactly when the text holds no digit at all. */
  lemma ExtractAmountLakhNone(text: string)
    requires Contains(AmountText(text), "lakh")
    ensures ExtractAmount(text).None? <==> forall k :: 0 <= k < |AmountText(text)| ==> !IsDigit(AmountText(text)[k])
  {
  }

  /**
   * Plain branch of `extract_amount`: without "lakh", the amount is the first
   * run of at least six digits, read from its first digit and cut after nine
   * digits, so it is below 10^9.
   */
  lemma ExtractAmountPlain(text: string, i: nat)
    requires !Contains(AmountText(text), "lakh")
    requires i < |AmountText(text)| && DigitRun(AmountText(text), i) >= MinAmountDigits
    requires forall k :: 0 <= k < i ==> DigitRun(AmountText(text), k) < MinAmountDigits
    ensures ExtractAmount(text) == Some(Value(CappedRun(AmountText(text), i)))
    ensures |CappedRun(AmountText(text), i)| == if DigitRun(AmountText(text), i) <= MaxAmountDigits then DigitRun(AmountText(text), i) else MaxAmountDigits
    ensures i == 0 || !IsDigit(AmountText(text)[i - 1])
    ensures ExtractAmount(text).value < Pow10(MaxAmountDigits)
  {
    var t := AmountText(text);
    LeftmostLongRun(t, i);
    if 0 < i && IsDigit(t[i - 1]) {
      DigitRunStep(t, i);
    }
  }

  /** The search finds the leftmost position where six digits start. */
  lemma LeftmostLongRun(t: string, i: nat)
    requires i < |t| && DigitRun(t, i) >= MinAmountDigits
    requires forall k :: 0 <= k < i ==> DigitRun(t, k) < MinAmountDigits
    ensures LongRunFrom(t, 0) == i
  {
  }

  /** Plain branch: no amount exactly when no run of six digits occurs. */
  lemma ExtractAmountPlainNone(text: string)
    requires !Contains(AmountText(text), "lakh")
    ensures ExtractAmount(text).None? <==> forall k :: 0 <= k < |AmountText(text)| ==> DigitRun(AmountText(text), k) < MinAmountDigits
  {
    var t := AmountText(text);
    var j := LongRunFrom(t, 0);
    if j < |t| {
      assert DigitRun(t, j) >= MinAmountDigits;
      assert ExtractAmount(text).Some?;
    }
  }

  /**
   * `extract_loan_type` returns the loan type of the first keyword in list
   * order (not in the order of the text) that occurs in the lower-cased
   * message, and None when no keyword occurs.
   */
  lemma LoanTypeFirstKeyword(text: string, j: nat)
    requires j < |KeywordOrder|
    ensures LoanTypeOf(text) == Some(KeywordOrder[j]) <==>
      Contains(Lower(text), KeywordAt(j)) && forall k :: 0 <= k < j ==> !Contains(Lower(text), KeywordAt(k))
    ensures LoanTypeOf(text).None? <==> forall k :: 0 <= k < |KeywordOrder| ==> !Contains(Lower(text), KeywordAt(k))
  {
    var t := Lower(text);
    var i := KeywordIndexFrom(t, 0);
    if i < |KeywordOrder| && KeywordOrder[i] == KeywordOrder[j] {
      assert i == j;
    }
  }

  /** `AnyContained` is Python's `any(p in t for p in phrases)`: some phrase occurs in `t`. */
  lemma {:induction false} AnyContainedIff(t: string, phrases: seq<string>)
    ensures AnyContained(t, phrases) <==> exists k :: 0 <= k < |phrases| && Contains(t, phrases[k])
    decreases |phrases|
  {
    if |phrases| > 0 {
      AnyContainedIff(t, phrases[1..]);
      if AnyContained(t, phrases[1..]) {
        var k :| 0 <= k < |phrases| - 1 && Contains(t, phrases[1..][k]);
        assert Contains(t, phrases[k + 1]);
      }
      if exists k :: 0 <= k < |phrases| && Contains(t, phrases[k]) {
        var k :| 0 <= k < |phrases| && Contains(t, phrases[k]);
        if k > 0 {
          assert Contains(t, phrases[1..][k - 1]);
        }
      }
    }
  }

  /** `OneOf` is Python's `w in phrases` on a list. */
  lemma {:induction false} OneOfIff(w: string, phrases: seq<string>)
    ensures OneOf(w, phrases) <==> w in phrases
    decreases |phrases|
  {
    if |phrases| > 0 {
      OneOfIff(w, phrases[1..]);
      assert phrases == [phrases[0]] + phrases[1..];
    }
  }

  /** `detect_sentiment`: HESITANT exactly when some hesitation phrase occurs in the lower-cased message. */
  lemma HesitantIff(text: string)
    ensures DetectSentiment(text) == Hesitant <==>
      exists k :: 0 <= k < |HesitantPhrases| && Contains(Lower(text), HesitantPhrases[k])
  {
    AnyContainedIff(Lower(text), HesitantPhrases);
  }

  /** `user_accepts_suggestion`: the whole lower-cased message is one of the accept phrases. */
  lemma AcceptsIff(text: string)
    ensures UserAcceptsSuggestion(text) <==> Lower(text) in AcceptPhrases
  {
    OneOfIff(Lower(text), AcceptPhrases);
  }

  /** `user_ready`: the whole lower-cased message is one of the readiness phrases. */
  lemma ReadyIff(text: string)
    ensures UserReady(text) <==> Lower(text) in ReadyPhrases
  {
    OneOfIff(Lower(text), ReadyPhrases);
  }

  /**
   * Picking, for every hesitation phrase, a letter that `a` lacks shows that
   * `a` contains none of them.
   */
  lemma CalmBy(a: string, picks: string)
    requires |picks| == |HesitantPhrases|
    requires forall k :: 0 <= k < |picks| ==> picks[k] !in a
    requires picks[0] in HesitantPhrases[0] &&
             picks[1] in HesitantPhrases[1] &&
             picks[2] in HesitantPhrases[2] &&
             picks[3] in HesitantPhrases[3] &&
             picks[4] in HesitantPhrases[4] &&
             picks[5] in HesitantPhrases[5] &&
             picks[6] in HesitantPhrases[6] &&
             picks[7] in HesitantPhrases[7] &&
             picks[8] in HesitantPhrases[8]
    ensures !AnyContained(a, HesitantPhrases)
  {
    forall k | 0 <= k < |HesitantPhrases| ensures !Contains(a, HesitantPhrases[k]) {
      AbsentCharNotContained(a, HesitantPhrases[k], picks[k]);
    }
    AnyContainedIff(a, HesitantPhrases);
  }

  /*
   * One lemma per accept phrase, each naming its own nine missing letters.
   * A single lemma quantified over the accept phrases would have the solver
   * search for those letters itself, which costs far more than spelling
   * them out.
   */
  lemma OkayCalm()
    ensures !AnyContained("okay", HesitantPhrases)
  {
    CalmBy("okay", "nuicwsfcs");
  }

  lemma OkCalm()
    ensures !AnyContained("ok", HesitantPhrases)
  {
    CalmBy("ok", "nuicwsfcs");
  }

  lemma FineCalm()
    ensures !AnyContained("fine", HesitantPhrases)
  {
    CalmBy("fine", "oudcwsrcs");
  }

  lemma SoundsGoodCalm()
    ensures !AnyContained("sounds good", HesitantPhrases)
  {
    CalmBy("sounds good", "tricwcfch");
  }

  lemma ThatWorksCalm()
    ensures !AnyContained("that works", HesitantPhrases)
  {
    CalmBy("that works", "nuicicfcu");
  }

  lemma AlrightCalm()
    ensures !AnyContained("alright", HesitantPhrases)
  {
    CalmBy("alright", "nudcwsfcs");
  }

  /** No accept phrase contains a hesitation phrase. */
  lemma AcceptPhraseCalm(a: string)
    requires a in AcceptPhrases
    ensures !AnyContained(a, HesitantPhrases)
  {
    OkayCalm();
    OkCalm();
    FineCalm();
    SoundsGoodCalm();
    ThatWorksCalm();
    AlrightCalm();
  }

  /**
   * No message is both hesitant and an accepted suggestion: every accept
   * phrase is a whole message, and none of them contains a hesitation phrase.
   */
  lemma AcceptedNeverHesitant(text: string)
    requires UserAcceptsSuggestion(text)
    ensures DetectSentiment(text) == Neutral
  {
    AcceptsIff(text);
    AcceptPhraseCalm(Lower(text));
  }

  /**
   * `is_verified` is a substring test on the lower-cased message: "verified"
   * in any letter case, anywhere, counts, so "not verified" and "unverified"
   * are read as verified too.
   */
  lemma VerifiedAnywhere(a: string, w: string, b: string)
    requires Lower(w) == "verified"
    ensures IsVerified(a + w + b)
  {
    var t := Lower(a + w + b);
    assert t[|a|..|a| + |w|] == Lower(w);
    assert OccursAt(t, "verified", |a|);
  }

  /** The characters of `text` from position i spell `w` in some letter case. */
  predicate SpelledAt(text: string, w: string, i: nat) {
    i + |w| <= |text| && Lower(text[i..i + |w|]) == w
  }

  /** Conversely, a message verified at all holds "verified", in some letter case, at some position. */
  lemma VerifiedSomewhere(text: string)
    requires IsVerified(text)
    ensures exists i: nat :: SpelledAt(text, "verified", i)
  {
    var t := Lower(text);
    var i: nat :| i <= |t| && OccursAt(t, "verified", i);
    assert Lower(text[i..i + 8]) == t[i..i + 8];
    assert SpelledAt(text, "verified", i);
  }
}
