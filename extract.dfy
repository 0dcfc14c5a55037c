/**
 * The text helpers of the dialogue controller (ChatOrchestrator.py, lines
 * 21-93): the three field extractors, the sentiment classifier and the three
 * message predicates.  Regular-expression searches are modelled as the
 * leftmost position at which the pattern matches, with greedy quantifiers.
 */
module Extract {
  import opened Wrappers
  import opened Text

  // ---------------------------------------------------------------- amount

  /** One lakh, the multiplier applied when the message mentions "lakh". */
  const Lakh: nat := 100000

  /** Shortest digit string `\d{6,9}` matches. */
  const MinAmountDigits: nat := 6

  /** Longest digit string `\d{6,9}` captures. */
  const MaxAmountDigits: nat := 9

  /** The text the amount extractor searches: lower-cased, commas removed. */
  function AmountText(text: string): string {
    RemoveCommas(Lower(text))
  }

  /**
   * Where `re.search(r"(\d+)", s[from..])` matches: the first digit at or
   * after `from`, or |s| when there is none.
   */
  function FirstDigitFrom(s: string, from: nat): (i: nat)
    requires from <= |s|
    ensures from <= i <= |s|
    ensures forall k :: from <= k < i ==> !IsDigit(s[k])
    ensures i < |s| ==> IsDigit(s[i])
    decreases |s| - from
  {
    if from == |s| || IsDigit(s[from]) then from else FirstDigitFrom(s, from + 1)
  }

  /**
   * Where `re.search(r"(\d{6,9})", s[from..])` matches: the first position at
   * or after `from` where at least six digits follow, or |s| when there is none.
   */
  function LongRunFrom(s: string, from: nat): (i: nat)
    requires from <= |s|
    ensures from <= i <= |s|
    ensures forall k :: from <= k < i ==> DigitRun(s, k) < MinAmountDigits
    ensures i < |s| ==> DigitRun(s, i) >= MinAmountDigits
    decreases |s| - from
  {
    if from == |s| || DigitRun(s, from) >= MinAmountDigits then from else LongRunFrom(s, from + 1)
  }

  /** The digits `\d{6,9}` captures at position i: the run, cut after nine digits. */
  function CappedRun(s: string, i: nat): (ds: string)
    requires i <= |s|
    ensures |ds| <= MaxAmountDigits && AllDigits(ds)
    ensures |ds| == (if DigitRun(s, i) <= MaxAmountDigits then DigitRun(s, i) else MaxAmountDigits)
    ensures ds == s[i..i + |ds|]
  {
    var n := DigitRun(s, i);
    var m := if n <= MaxAmountDigits then n else MaxAmountDigits;
    assert s[i..i + m] == s[i..i + n][..m];
    s[i..i + m]
  }

  /** `extract_amount`: the loan amount named in a message, if any. */
  function ExtractAmount(text: string): (r: Option<nat>)
    ensures !Contains(AmountText(text), "lakh") && r.Some? ==> r.value < Pow10(MaxAmountDigits)
    ensures Contains(AmountText(text), "lakh") && r.Some? ==> r.value % Lakh == 0
  {
    var t := AmountText(text);
    if Contains(t, "lakh") then
      var i := FirstDigitFrom(t, 0);
      if i == |t| then None else Some(RunValue(t, i) * Lakh)
    else
      var i := LongRunFrom(t, 0);
      if i == |t| then None
      else
        ValueBelowPow10(CappedRun(t, i));
        Pow10Monotone(|CappedRun(t, i)|, MaxAmountDigits);
        Some(Value(CappedRun(t, i)))
  }

  // ---------------------------------------------------------------- tenure

  /** The word that must follow the number: `year|years` matches exactly when `year` does. */
  const YearWord: string := "year"

  /**
   * `(\d+)\s*(year|years)` matches at position i, taking the whole digit run
   * and the whole whitespace run after it (the greedy choice; lemma
   * GreedyTenureMatch shows no shorter choice can match instead).
   */
  predicate TenureMatchAt(t: string, i: nat)
    requires i <= |t|
  {
    var digitsEnd := i + DigitRun(t, i);
    i < |t| && IsDigit(t[i]) && OccursAt(t, YearWord, digitsEnd + SpaceRun(t, digitsEnd))
  }

  /**
   * The regular expression's own meaning at position i: some non-empty digit
   * prefix, then some whitespace, then `year`.
   */
  predicate TenureRegexAt(t: string, i: nat)
    requires i <= |t|
  {
    exists d: nat, w: nat | 1 <= d <= |t| - i && w <= |t| - i - d :: TenureSplit(t, i, d, w)
  }

  /** Digits at [i, i + d), whitespace at [i + d, i + d + w), then `year`. */
  predicate TenureSplit(t: string, i: nat, d: nat, w: nat)
    requires i + d + w <= |t|
  {
    AllDigits(t[i..i + d]) && SpaceRunOf(t, i + d, w) && OccursAt(t, YearWord, i + d + w)
  }

  /** The w characters from position j are all whitespace. */
  predicate SpaceRunOf(t: string, j: nat, w: nat)
    requires j + w <= |t|
  {
    forall k :: j <= k < j + w ==> IsSpace(t[k])
  }

  /** Where `re.search` finds the tenure pattern at or after `from`, or |t|. */
  function TenureFrom(t: string, from: nat): (i: nat)
    requires from <= |t|
    ensures from <= i <= |t|
    ensures forall k :: from <= k < i ==> !TenureMatchAt(t, k)
    ensures i < |t| ==> TenureMatchAt(t, i)
    decreases |t| - from
  {
    if from == |t| || TenureMatchAt(t, from) then from else TenureFrom(t, from + 1)
  }

  /** `extract_tenure`: the tenure in months named in a message, if any. */
  function ExtractTenure(text: string): (r: Option<nat>)
    ensures r.Some? ==> r.value % 12 == 0
  {
    var t := Lower(text);
    var i := TenureFrom(t, 0);
    if i == |t| then None else Some(12 * RunValue(t, i))
  }

  // ------------------------------------------------------------- loan type

  /** The values `extract_loan_type` can return, one per keyword. */
  datatype LoanType = Education | Personal | Home | Auto | Car | Business {
    /** The keyword searched for in the message. */
    function Keyword(): string {
      match this
      case Education => "education"
      case Personal => "personal"
      case Home => "home"
      case Auto => "auto"
      case Car => "car"
      case Business => "business"
    }

    /** The string the controller stores and the underwriter reads (`k.upper()`). */
    function Name(): (n: string)
      ensures n == Upper(Keyword())
    {
      match this
      case Education => "EDUCATION"
      case Personal => "PERSONAL"
      case Home => "HOME"
      case Auto => "AUTO"
      case Car => "CAR"
      case Business => "BUSINESS"
    }
  }

  /** The order in which the keywords are tried. */
  const KeywordOrder: seq<LoanType> := [Education, Personal, Home, Auto, Car, Business]

  /** The keyword searched for at position k of the list. */
  function KeywordAt(k: nat): string
    requires k < |KeywordOrder|
  {
    KeywordOrder[k].Keyword()
  }

  /**
   * Position in the list of the first keyword at position `from` or later that
   * occurs in `t`, or |KeywordOrder| when none does.
   */
  function KeywordIndexFrom(t: string, from: nat): (k: nat)
    requires from <= |KeywordOrder|
    ensures from <= k <= |KeywordOrder|
    ensures forall j :: from <= j < k ==> !Contains(t, KeywordAt(j))
    ensures k < |KeywordOrder| ==> Contains(t, KeywordAt(k))
    decreases |KeywordOrder| - from
  {
    if from == |KeywordOrder| || Contains(t, KeywordAt(from)) then from
    else KeywordIndexFrom(t, from + 1)
  }

  /** The loan type a message names: the first keyword in list order found in it. */
  function LoanTypeOf(text: string): Option<LoanType> {
    var k := KeywordIndexFrom(Lower(text), 0);
    if k == |KeywordOrder| then None else Some(KeywordOrder[k])
  }

  /** `extract_loan_type`: tries the keywords in list order and returns at the first one found. */
  method ExtractLoanType(text: string) returns (r: Option<LoanType>)
    ensures r == LoanTypeOf(text)
  {
    var k := 0;
    while k < |KeywordOrder|
      invariant 0 <= k <= |KeywordOrder|
      invariant KeywordIndexFrom(Lower(text), 0) == KeywordIndexFrom(Lower(text), k)
    {
      if Contains(Lower(text), KeywordAt(k)) {
        return Some(KeywordOrder[k]);
      }
      k := k + 1;
    }
    return None;
  }

  // ------------------------------------------------------ sentiment, predicates

  datatype Sentiment = Hesitant | Neutral

  const HesitantPhrases: seq<string> := [
    "not sure", "unsure", "idk", "confused", "worried", "scared",
    "first loan", "can i afford", "should i take"
  ]

  /** Python's `any(p in t for p in phrases)`. */
  predicate AnyContained(t: string, phrases: seq<string>) {
    |phrases| > 0 && (Contains(t, phrases[0]) || AnyContained(t, phrases[1..]))
  }

  /** Python's `w in phrases` on a list of strings. */
  predicate OneOf(w: string, phrases: seq<string>) {
    |phrases| > 0 && (w == phrases[0] || OneOf(w, phrases[1..]))
  }

  /** `detect_sentiment`: HESITANT when the message contains any hesitation phrase. */
  function DetectSentiment(text: string): Sentiment {
    if AnyContained(Lower(text), HesitantPhrases) then Hesitant else Neutral
  }

  const AcceptPhrases: seq<string> := ["okay", "ok", "fine", "sounds good", "that works", "alright"]

  const ReadyPhrases: seq<string> := ["yes", "ok", "okay", "ready", "proceed", "continue"]

  /** `user_accepts_suggestion`: the whole lower-cased message is an accept phrase. */
  predicate UserAcceptsSuggestion(text: string) {
    OneOf(Lower(text), AcceptPhrases)
  }

  /** `user_ready`: the whole lower-cased message is a readiness phrase. */
  predicate UserReady(text: string) {
    OneOf(Lower(text), ReadyPhrases)
  }

  /** `is_verified`: the lower-cased message contains "verified" anywhere. */
  predicate IsVerified(text: string) {
    Contains(Lower(text), "verified")
  }
}
