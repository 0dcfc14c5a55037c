/**
 * Properties of the stage machine of ChatOrchestrator.py (`lambda_handler`):
 * first-write-wins fields, what each stage does with a turn, which stages can
 * follow which, the unreachable default-tenure branch, the EMI that is quoted,
 * and whole conversations with the underwriting rule table as the
 * underwriting worker.
 */
module OrchestratorFacts {
  import opened Wrappers
  import opened Extract
  import opened ExtractFacts
  import opened Emi
  import opened Underwriting
  import opened Orchestrator

  /** From SALES on the extraction block changes nothing: every field is already set. */
  lemma AbsorbKeeps(s: Session, r: Reading)
    requires Consistent(s) && Rank(s.stage) >= Rank(Sales)
    ensures Absorb(s, r) == s
  {
  }

  /**
   * First write wins: a loan type, or a truthy amount or tenure, survives
   * every turn unchanged; an amount or tenure of 0 counts as unset.
   */
  lemma StepKeepsFields(s: Session, r: Reading, kycVerified: bool, uwApproved: bool)
    requires Consistent(s)
    ensures var t := Step(s, r, kycVerified, uwApproved).session;
      (s.loanType.Some? ==> t.loanType == s.loanType) &&
      (Truthy(s.amount) ==> t.amount == s.amount) &&
      (Truthy(s.tenure) ==> t.tenure == s.tenure)
  {
  }

  /** A fresh session moves to DISCOVERY and greets, whatever the message says. */
  lemma WelcomeIgnoresMessage(r: Reading, kycVerified: bool, uwApproved: bool)
    ensures Step(NewSession, r, kycVerified, uwApproved) ==
      Outcome(Session(Discovery, None, None, None, None), Greeting, None)
  {
  }

  /** No reading of a real message is both hesitant and an accepted suggestion. */
  lemma ReadNeverHesitantAndAccepting(msg: string)
    ensures !(Read(msg).hesitant && Read(msg).accepts)
  {
    if UserAcceptsSuggestion(msg) {
      AcceptedNeverHesitant(msg);
    }
  }

  /**
   * DISCOVERY with a reading that is not both hesitant and accepting: the
   * session stays in DISCOVERY with the absorbed fields until all three are
   * set, and then is stored in CONFIRM with the EMI of the absorbed amount and
   * tenure.  The tenure is never replaced by the 60-month default.
   */
  lemma DiscoveryOutcome(s: Session, r: Reading, kycVerified: bool, uwApproved: bool)
    requires s.stage == Discovery && Consistent(s) && !(r.hesitant && r.accepts)
    ensures var a := Absorb(s, r);
      var o := Step(s, r, kycVerified, uwApproved);
      (o.session.stage == Confirm <==> a.loanType.Some? && Truthy(a.amount) && Truthy(a.tenure)) &&
      (o.session.stage != Confirm ==> o.session == a) &&
      o.session.tenure == a.tenure && o.invoked == None
  {
  }

  /** In DISCOVERY the prompts come in a fixed order: reassurance, tenure options, loan type, amount, tenure. */
  lemma DiscoveryPrompts(s: Session, r: Reading, kycVerified: bool, uwApproved: bool)
    requires s.stage == Discovery && Consistent(s) && !(r.hesitant && r.accepts)
    ensures var a := Absorb(s, r);
      var o := Step(s, r, kycVerified, uwApproved);
      (r.hesitant && !Truthy(a.amount) ==> o.reply == ReassureAmount) &&
      (r.hesitant && Truthy(a.amount) && !Truthy(a.tenure) ==> o.reply == TenureOptions) &&
      (a.loanType.None? && (!r.hesitant || (Truthy(a.amount) && Truthy(a.tenure))) ==> o.reply == AskLoanType) &&
      (!r.hesitant && a.loanType.Some? && !Truthy(a.amount) ==> o.reply == AskAmount) &&
      (Truthy(a.amount) && a.loanType.Some? && !Truthy(a.tenure) && !r.hesitant ==> o.reply == AskTenure)
  {
  }

  /**
   * The hesitant "accept the 60-month default" branch never fires: for every
   * message, a DISCOVERY turn stores the tenure the extraction block produced.
   */
  lemma DefaultTenureUnreachable(s: Session, msg: string, kycVerified: bool, uwApproved: bool)
    requires s.stage == Discovery && Consistent(s)
    ensures Step(s, Read(msg), kycVerified, uwApproved).session.tenure == Absorb(s, Read(msg)).tenure
  {
    ReadNeverHesitantAndAccepting(msg);
    DiscoveryOutcome(s, Read(msg), kycVerified, uwApproved);
  }

  /** The branch is live in the stage logic itself: a reading that were both hesitant and accepting would get 60 months. */
  lemma DefaultTenureBranch(r: Reading, kycVerified: bool, uwApproved: bool)
    requires r.hesitant && r.accepts && r.amount == None && r.tenure == None
    ensures var s := Session(Discovery, Some(Home), Some(500000), None, None);
      Step(s, r, kycVerified, uwApproved).session.tenure == Some(DefaultTenureMonths) &&
      Step(s, r, kycVerified, uwApproved).session.stage == Confirm
  {
    EmiDefinedIff(AnnualRatePercent, DefaultTenureMonths);
  }

  /**
   * The quote of a DISCOVERY turn that completes the fields: the EMI stored is
   * at least 0 and at most one month's principal plus interest, and the reply
   * repeats the amount, the tenure in whole years and the EMI.
   */
  lemma QuotedEmi(s: Session, r: Reading, kycVerified: bool, uwApproved: bool)
    requires s.stage == Discovery && Consistent(s) && !(r.hesitant && r.accepts)
    requires Step(s, r, kycVerified, uwApproved).session.stage == Confirm
    ensures var o := Step(s, r, kycVerified, uwApproved);
      var p := o.session.amount.value;
      o.session.emi.Some? && 0 <= o.session.emi.value &&
      (o.session.emi.value as real) <= (p as real) * (1.0 + MonthlyRate(AnnualRatePercent)) &&
      o.reply == Quote(r.hesitant, p, o.session.tenure.value / 12, o.session.emi.value)
  {
    var a := Absorb(s, r);
    DiscoveryOutcome(s, r, kycVerified, uwApproved);
    EmiBounds(a.amount.value, AnnualRatePercent, a.tenure.value);
  }

  /** CONFIRM moves to KYC exactly when the user says they are ready, and otherwise changes nothing. */
  lemma ConfirmOutcome(s: Session, r: Reading, kycVerified: bool, uwApproved: bool)
    requires s.stage == Confirm && Consistent(s)
    ensures var o := Step(s, r, kycVerified, uwApproved);
      (o.session.stage == Kyc <==> r.ready) &&
      (r.ready ==> o.session == s.(stage := Kyc) && o.reply == KycInstructions) &&
      (!r.ready ==> o.session == s && o.reply == NoRush) &&
      o.invoked == None
  {
  }

  /**
   * KYC calls the KYC worker exactly when the message says "verified", and
   * moves to UNDERWRITING exactly when it was called and answered VERIFIED.
   */
  lemma KycOutcome(s: Session, r: Reading, kycVerified: bool, uwApproved: bool)
    requires s.stage == Kyc && Consistent(s)
    ensures var o := Step(s, r, kycVerified, uwApproved);
      (o.invoked == Some(KycWorker) <==> r.verified) && o.invoked != Some(UnderwritingWorker) &&
      (o.session.stage == Underwriting <==> r.verified && kycVerified) &&
      (o.session.stage != Underwriting ==> o.session == s)
  {
  }

  /** UNDERWRITING calls its worker on every turn and moves to SANCTION exactly on approval. */
  lemma UnderwritingOutcome(s: Session, r: Reading, kycVerified: bool, uwApproved: bool)
    requires s.stage == Underwriting && Consistent(s)
    ensures var o := Step(s, r, kycVerified, uwApproved);
      o.invoked == Some(UnderwritingWorker) &&
      (o.session.stage == Sanction <==> uwApproved) &&
      (!uwApproved ==> o.session == s && o.reply == NotApproved)
  {
  }

  /** SANCTION always moves to DONE with the sanction letter; DONE changes nothing and replies with the fallback. */
  lemma LastStages(s: Session, r: Reading, kycVerified: bool, uwApproved: bool)
    requires Rank(s.stage) >= Rank(Sanction) && Consistent(s)
    ensures var o := Step(s, r, kycVerified, uwApproved);
      (s.stage == Sanction ==> o == Outcome(s.(stage := Done), SanctionLetter, None)) &&
      (s.stage == Done ==> o == Outcome(s, Fallback, None))
  {
  }

  /** The stage a turn can move to from `st`: SALES is passed through, so DISCOVERY is followed by CONFIRM. */
  function Successor(st: Stage): Stage {
    match st
    case Welcome => Discovery
    case Discovery => Confirm
    case Sales => Confirm
    case Confirm => Kyc
    case Kyc => Underwriting
    case Underwriting => Sanction
    case Sanction => Done
    case Done => Done
  }

  /** A turn either leaves the stage where it is or moves it to its successor: stages never move backward. */
  lemma StepStages(s: Session, r: Reading, kycVerified: bool, uwApproved: bool)
    requires Consistent(s)
    ensures var t := Step(s, r, kycVerified, uwApproved).session.stage;
      (t == s.stage && s.stage != Welcome && s.stage != Sales) || t == Successor(s.stage)
    ensures Rank(Step(s, r, kycVerified, uwApproved).session.stage) >= Rank(s.stage)
  {
  }

  /** The inputs of one turn: the reading of the message and the two worker answers. */
  datatype TurnInput = TurnInput(reading: Reading, kycVerified: bool, uwApproved: bool)

  /** The session after a whole conversation, one `Step` per turn. */
  function Run(s: Session, inputs: seq<TurnInput>): (t: Session)
    requires Consistent(s)
    ensures Consistent(t)
    decreases |inputs|
  {
    if inputs == [] then s
    else
      var i := inputs[0];
      StepStored(s, i.reading, i.kycVerified, i.uwApproved);
      Run(Step(s, i.reading, i.kycVerified, i.uwApproved).session, inputs[1..])
  }

  /** Over a whole conversation the stage never moves backward. */
  lemma {:induction false} RunNeverBackward(s: Session, inputs: seq<TurnInput>)
    requires Consistent(s)
    ensures Rank(Run(s, inputs).stage) >= Rank(s.stage)
    decreases |inputs|
  {
    if inputs != [] {
      var i := inputs[0];
      StepStages(s, i.reading, i.kycVerified, i.uwApproved);
      RunNeverBackward(Step(s, i.reading, i.kycVerified, i.uwApproved).session, inputs[1..]);
    }
  }

  /** Over a whole conversation a field, once set to a truthy value, keeps it. */
  lemma {:induction false} RunKeepsFields(s: Session, inputs: seq<TurnInput>)
    requires Consistent(s)
    ensures var t := Run(s, inputs);
      (s.loanType.Some? ==> t.loanType == s.loanType) &&
      (Truthy(s.amount) ==> t.amount == s.amount) &&
      (Truthy(s.tenure) ==> t.tenure == s.tenure)
    decreases |inputs|
  {
    if inputs != [] {
      var i := inputs[0];
      var t := Step(s, i.reading, i.kycVerified, i.uwApproved).session;
      StepKeepsFields(s, i.reading, i.kycVerified, i.uwApproved);
      RunKeepsFields(t, inputs[1..]);
      assert Run(s, inputs) == Run(t, inputs[1..]);
    }
  }

  /** After at least one turn the session is one that may be stored: never WELCOME or SALES. */
  lemma {:induction false} RunStored(s: Session, inputs: seq<TurnInput>)
    requires Consistent(s) && inputs != []
    ensures Stored(Run(s, inputs))
    decreases |inputs|
  {
    var i := inputs[0];
    StepStored(s, i.reading, i.kycVerified, i.uwApproved);
    if |inputs| > 1 {
      RunStored(Step(s, i.reading, i.kycVerified, i.uwApproved).session, inputs[1..]);
    }
  }

  /** The underwriting worker's answer for a stored session, from the payload it is sent. */
  function UnderwritingAnswer(s: Session): (approved: bool)
    requires Rank(s.stage) >= Rank(Confirm) && Consistent(s)
    ensures s.loanType == Some(Home) ==> approved
  {
    HomeAlwaysApproved(s.amount.value, s.emi.value);
    Decide(s.loanType.value.Name(), s.amount.value, s.emi.value).decision == Approved
  }

  /** With the rule table as the worker, a HOME loan in UNDERWRITING is always sanctioned. */
  lemma HomeLoanSanctioned(s: Session, r: Reading, kycVerified: bool)
    requires s.stage == Underwriting && Consistent(s) && s.loanType == Some(Home)
    ensures Step(s, r, kycVerified, UnderwritingAnswer(s)).session.stage == Sanction
  {
  }

  /** With the rule table as the worker, an application over twice the pre-approved limit stays in UNDERWRITING. */
  lemma LargeLoanStuck(s: Session, r: Reading, kycVerified: bool)
    requires s.stage == Underwriting && Consistent(s) && s.loanType != Some(Home)
    requires s.amount.value > 2 * PreapprovedLimit
    ensures Step(s, r, kycVerified, UnderwritingAnswer(s)) == Outcome(s, NotApproved, Some(UnderwritingWorker))
  {
  }

  /**
   * With the KYC stub (always VERIFIED) and the rule table, a HOME loan in
   * KYC reaches DONE in three turns: "verified", then any two messages.
   */
  lemma HomeLoanEndToEnd(s: Session, r1: Reading, r2: Reading, r3: Reading)
    requires s.stage == Kyc && Consistent(s) && s.loanType == Some(Home) && r1.verified
    ensures var s1 := Step(s, r1, true, false).session;
      s1.stage == Underwriting &&
      var s2 := Step(s1, r2, true, UnderwritingAnswer(s1)).session;
      s2.stage == Sanction &&
      Step(s2, r3, true, false).session.stage == Done
  {
    var s1 := Step(s, r1, true, false).session;
    StepStored(s, r1, true, false);
    HomeLoanSanctioned(s1, r2, true);
  }
}
