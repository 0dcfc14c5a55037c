/**
 * The dialogue controller of ChatOrchestrator.py (`lambda_handler`, lines
 * 154-370): a per-session record moved through the stages WELCOME,
 * DISCOVERY, SALES, CONFIRM, KYC, UNDERWRITING, SANCTION and DONE, one user
 * message per turn.
 *
 * `Step` is the specification of one turn as a function of the stored
 * session, the message and the two worker answers; `SessionStore.Turn` is
 * the handler itself, updating the session map step by step as the source
 * does, and is proved to store exactly what `Step` says.  The KYC and
 * underwriting workers are oracle parameters; the rephrasing call is the
 * identity, as it is when no API key is configured; replies are prompt kinds
 * rather than their wording.
 */
module Orchestrator {
  import opened Wrappers
  import opened Extract
  import opened Emi

  datatype Stage = Welcome | Discovery | Sales | Confirm | Kyc | Underwriting | Sanction | Done

  /** Position of a stage along the flow. */
  function Rank(st: Stage): nat {
    match st
    case Welcome => 0
    case Discovery => 1
    case Sales => 2
    case Confirm => 3
    case Kyc => 4
    case Underwriting => 5
    case Sanction => 6
    case Done => 7
  }

  /** The session record (`stage`, `loan_type`, `amount`, `tenure`, `emi`). */
  datatype Session = Session(
    stage: Stage,
    loanType: Option<LoanType>,
    amount: Option<nat>,
    tenure: Option<nat>,
    emi: Option<int>)

  /** The record a session id without an entry starts from. */
  const NewSession: Session := Session(Welcome, None, None, None, None)

  /** Session id used when the request carries none. */
  const DefaultSessionId: string := "demo-user"

  /** The fixed annual interest rate of every quote, in percent. */
  const AnnualRatePercent: int := 13

  /** The tenure a hesitant user accepting the suggestion would get (5 years). */
  const DefaultTenureMonths: nat := 60

  /** Python truthiness of an optional number: None and 0 are both false. */
  predicate Truthy(x: Option<nat>) {
    x.Some? && x.value != 0
  }

  /** Python's `a or b` on optional numbers. */
  function Or(a: Option<nat>, b: Option<nat>): Option<nat> {
    if Truthy(a) then a else b
  }

  /** What the controller reads from one message: the three fields and the four classifications. */
  datatype Reading = Reading(
    loanType: Option<LoanType>,
    amount: Option<nat>,
    tenure: Option<nat>,
    hesitant: bool,
    accepts: bool,
    ready: bool,
    verified: bool)

  /** The helpers of lines 21-93 applied to a message. */
  function Read(msg: string): Reading {
    Reading(LoanTypeOf(msg), ExtractAmount(msg), ExtractTenure(msg),
            DetectSentiment(msg) == Hesitant, UserAcceptsSuggestion(msg), UserReady(msg), IsVerified(msg))
  }

  /**
   * The extraction block run on every turn after WELCOME: a field keeps a
   * truthy value and otherwise takes whatever the message yields.
   */
  function Absorb(s: Session, r: Reading): Session {
    s.(loanType := if s.loanType.Some? then s.loanType else r.loanType,
       amount := Or(s.amount, r.amount),
       tenure := Or(s.tenure, r.tenure))
  }

  /** The two workers the controller may invoke. */
  datatype Worker = KycWorker | UnderwritingWorker

  /** The reply of a turn, by the prompt it sends. */
  datatype Reply =
    | Greeting
    | ReassureAmount
    | TenureOptions
    | AskLoanType
    | AskAmount
    | AskTenure
    | Quote(hesitant: bool, amount: nat, years: nat, emi: int)
    | KycInstructions
    | NoRush
    | KycReminder
    | KycPassed
    | KycRetry
    | LoanApproved
    | NotApproved
    | SanctionLetter
    | Fallback

  /** What one turn does: the session stored, the reply, and the worker it invoked, if any. */
  datatype Outcome = Outcome(session: Session, reply: Reply, invoked: Option<Worker>)

  /**
   * What holds of every session the controller handles: from SALES on the
   * three fields are set and truthy, so the EMI can be computed, and from
   * CONFIRM on the EMI is known.
   */
  predicate Consistent(s: Session) {
    (Rank(s.stage) >= Rank(Sales) ==> s.loanType.Some? && Truthy(s.amount) && Truthy(s.tenure)) &&
    (Rank(s.stage) >= Rank(Confirm) ==> s.emi.Some?)
  }

  /** What holds of every session in the store: consistent, and never in WELCOME or SALES. */
  predicate Stored(s: Session) {
    Consistent(s) && s.stage != Welcome && s.stage != Sales
  }

  /** SALES: compute the EMI at 13% and quote it; the session moves to CONFIRM. */
  function SalesStep(a: Session, hesitant: bool): Outcome
    requires Truthy(a.amount) && Truthy(a.tenure)
  {
    EmiDefinedIff(AnnualRatePercent, a.tenure.value);
    var emi := CalculateEmi(a.amount.value, AnnualRatePercent, a.tenure.value);
    Outcome(a.(stage := Confirm, emi := Some(emi)),
            Quote(hesitant, a.amount.value, a.tenure.value / 12, emi), None)
  }

  /**
   * DISCOVERY, after extraction: the hesitation block, then the prompts for
   * missing fields (`FieldsStep`).
   */
  function DiscoveryStep(a: Session, r: Reading): Outcome {
    if r.hesitant && !Truthy(a.amount) then Outcome(a, ReassureAmount, None)
    else if r.hesitant && !Truthy(a.tenure) && !r.accepts then Outcome(a, TenureOptions, None)
    else if r.hesitant && !Truthy(a.tenure) then FieldsStep(a.(tenure := Some(DefaultTenureMonths)), r.hesitant)
    else FieldsStep(a, r.hesitant)
  }

  /** A prompt for the first missing field, and once all three are there, SALES in the same turn. */
  function FieldsStep(b: Session, hesitant: bool): Outcome {
    if b.loanType.None? then Outcome(b, AskLoanType, None)
    else if !Truthy(b.amount) then Outcome(b, AskAmount, None)
    else if !Truthy(b.tenure) then Outcome(b, AskTenure, None)
    else SalesStep(b.(stage := Sales), hesitant)
  }

  /** CONFIRM: move on to KYC once the user says they are ready. */
  function ConfirmStep(a: Session, r: Reading): Outcome {
    if r.ready then Outcome(a.(stage := Kyc), KycInstructions, None)
    else Outcome(a, NoRush, None)
  }

  /** KYC: only a message saying "verified" calls the KYC worker, whose answer decides. */
  function KycStep(a: Session, r: Reading, kycVerified: bool): Outcome {
    if !r.verified then Outcome(a, KycReminder, None)
    else if kycVerified then Outcome(a.(stage := Underwriting), KycPassed, Some(KycWorker))
    else Outcome(a, KycRetry, Some(KycWorker))
  }

  /** UNDERWRITING: every turn calls the underwriting worker, whose answer decides. */
  function UnderwritingStep(a: Session, uwApproved: bool): Outcome {
    if uwApproved then Outcome(a.(stage := Sanction), LoanApproved, Some(UnderwritingWorker))
    else Outcome(a, NotApproved, Some(UnderwritingWorker))
  }

  /**
   * One turn for the session record `s`, given what the user's message reads
   * as, the KYC worker's answer (status VERIFIED) and the underwriting
   * worker's answer (decision APPROVED).  A worker's answer matters only on
   * the turns where `invoked` names it.
   */
  function Step(s: Session, r: Reading, kycVerified: bool, uwApproved: bool): Outcome
    requires Consistent(s)
  {
    var a := Absorb(s, r);
    match s.stage
    case Welcome => Outcome(s.(stage := Discovery), Greeting, None)
    case Discovery => DiscoveryStep(a, r)
    case Sales => SalesStep(a, r.hesitant)
    case Confirm => ConfirmStep(a, r)
    case Kyc => KycStep(a, r, kycVerified)
    case Underwriting => UnderwritingStep(a, uwApproved)
    case Sanction => Outcome(a.(stage := Done), SanctionLetter, None)
    case Done => Outcome(a, Fallback, None)
  }

  /**
   * Every turn leaves a session that may be stored: consistent, and neither
   * in WELCOME nor in SALES, which is only passed through.
   */
  lemma StepStored(s: Session, r: Reading, kycVerified: bool, uwApproved: bool)
    requires Consistent(s)
    ensures Stored(Step(s, r, kycVerified, uwApproved).session)
  {
  }

  /** The process-wide session map `SESSION_STATE`. */
  class SessionStore {
    var sessions: map<string, Session>

    ghost predicate Valid()
      reads this
    {
      forall sid :: sid in sessions ==> Stored(sessions[sid])
    }

    /** `Valid`, except perhaps for the entry of `sid`, which the current turn is rewriting. */
    ghost predicate ValidExcept(sid: string)
      reads this
    {
      forall k :: k in sessions && k != sid ==> Stored(sessions[k])
    }

    constructor ()
      ensures Valid() && sessions == map[]
    {
      sessions := map[];
    }

    /** `SESSION_STATE.get(sid, <new session>)`. */
    function Lookup(sid: string): (s: Session)
      reads this
      requires Valid()
      ensures Consistent(s)
      ensures sid !in sessions ==> s == NewSession
    {
      if sid in sessions then sessions[sid] else NewSession
    }

    /**
     * `lambda_handler` for one message: load or create the session, run the
     * stage machine, write the session back, and reply.
     */
    method Turn(sid: string, msg: string, kycVerified: bool, uwApproved: bool)
      returns (reply: Reply, invoked: Option<Worker>)
      requires Valid()
      modifies this
      ensures Valid()
      ensures var o := Step(old(Lookup(sid)), Read(msg), kycVerified, uwApproved);
        sessions == old(sessions)[sid := o.session] && reply == o.reply && invoked == o.invoked
      ensures sessions.Keys == old(sessions).Keys + {sid}
      ensures forall k :: k in old(sessions) && k != sid ==> sessions[k] == old(sessions)[k]
    {
      ghost var r := Read(msg);
      ghost var s0 := Lookup(sid);
      var sentiment := DetectSentiment(msg);
      var state := Lookup(sid);
      invoked := None;

      if state.stage == Welcome {
        state := state.(stage := Discovery);
        sessions := sessions[sid := state];
        reply := Greeting;
        return;
      }

      state := ExtractFields(state, msg, r);
      reply, invoked := Advance(sid, state, msg, sentiment == Hesitant, s0, r, kycVerified, uwApproved);
    }

    /** Everything after the extraction block: the write-back and the stage sections. */
    method Advance(sid: string, state: Session, msg: string, hesitant: bool,
                   ghost s0: Session, ghost r: Reading, kycVerified: bool, uwApproved: bool)
      returns (reply: Reply, invoked: Option<Worker>)
      requires Valid()
      requires s0.stage != Welcome && Consistent(s0) && state == Absorb(s0, r)
      requires hesitant == r.hesitant && UserAcceptsSuggestion(msg) == r.accepts
      requires UserReady(msg) == r.ready && IsVerified(msg) == r.verified
      modifies this
      ensures Valid()
      ensures var o := Step(s0, r, kycVerified, uwApproved);
        sessions == old(sessions)[sid := o.session] && reply == o.reply && invoked == o.invoked
    {
      sessions := sessions[sid := state];
      reply, invoked := Dispatch(sid, state, msg, hesitant, s0, r, kycVerified, uwApproved);
    }

    /** The stage sections after extraction, chosen by the stage of the extracted record. */
    method Dispatch(sid: string, state: Session, msg: string, hesitant: bool,
                    ghost s0: Session, ghost r: Reading, kycVerified: bool, uwApproved: bool)
      returns (reply: Reply, invoked: Option<Worker>)
      requires ValidExcept(sid)
      requires s0.stage != Welcome && Consistent(s0) && state == Absorb(s0, r)
      requires sid in sessions && sessions[sid] == state
      requires hesitant == r.hesitant && UserAcceptsSuggestion(msg) == r.accepts
      requires UserReady(msg) == r.ready && IsVerified(msg) == r.verified
      modifies this
      ensures Valid()
      ensures var o := Step(s0, r, kycVerified, uwApproved);
        sessions == old(sessions)[sid := o.session] && reply == o.reply && invoked == o.invoked
    {
      invoked := None;
      if state.stage == Discovery {
        reply := DiscoveryTurn(sid, state, msg, hesitant, s0, r, kycVerified, uwApproved);
      } else if state.stage == Sales {
        reply := SalesTurn(sid, state, hesitant, s0, r, kycVerified, uwApproved);
      } else if state.stage == Confirm {
        reply := ConfirmTurn(sid, state, msg, s0, r, kycVerified, uwApproved);
      } else if state.stage == Kyc {
        reply, invoked := KycTurn(sid, state, msg, kycVerified, s0, r, uwApproved);
      } else if state.stage == Underwriting {
        reply, invoked := UnderwritingTurn(sid, state, uwApproved, s0, r, kycVerified);
      } else if state.stage == Sanction {
        sessions := sessions[sid := state.(stage := Done)];
        reply := SanctionLetter;
      } else {
        reply := Fallback;
      }
    }

    /** The extraction block: each field keeps a truthy value, else takes what the message yields (`x = x or extract(msg)`). */
    static method ExtractFields(state: Session, msg: string, ghost r: Reading) returns (next: Session)
      requires r.loanType == LoanTypeOf(msg) && r.amount == ExtractAmount(msg) && r.tenure == ExtractTenure(msg)
      ensures next == Absorb(state, r)
    {
      next := state;
      if next.loanType.None? {
        var lt := ExtractLoanType(msg);
        next := next.(loanType := lt);
      }
      if !Truthy(next.amount) {
        next := next.(amount := ExtractAmount(msg));
      }
      if !Truthy(next.tenure) {
        next := next.(tenure := ExtractTenure(msg));
      }
    }

    /*
     * Each stage section below is called with the extracted record `state`
     * already written back under `sid`, and is proved to leave the store as
     * `Step` says for the record `s0` loaded at the start of the turn and the
     * reading `r` of the message.
     */

    /**
     * The DISCOVERY section: the hesitation block, the prompts for missing
     * fields, and, once all three are known, straight on into SALES.
     */
    method DiscoveryTurn(sid: string, state: Session, msg: string, hesitant: bool,
                         ghost s0: Session, ghost r: Reading, ghost kycVerified: bool, ghost uwApproved: bool)
      returns (reply: Reply)
      requires ValidExcept(sid)
      requires s0.stage == Discovery && Consistent(s0) && state == Absorb(s0, r)
      requires sid in sessions && sessions[sid] == state
      requires hesitant == r.hesitant && UserAcceptsSuggestion(msg) == r.accepts
      modifies this
      ensures Valid()
      ensures var o := Step(s0, r, kycVerified, uwApproved);
        sessions == old(sessions)[sid := o.session] && reply == o.reply && o.invoked == None
    {
      var state := state;
      if hesitant {
        if !Truthy(state.amount) {
          return ReassureAmount;
        }
        if !Truthy(state.tenure) {
          if UserAcceptsSuggestion(msg) {
            state := state.(tenure := Some(DefaultTenureMonths));
            sessions := sessions[sid := state];
          } else {
            return TenureOptions;
          }
        }
      }
      reply := FieldsTurn(sid, state, hesitant);
    }

    /** The rest of DISCOVERY: ask for the first missing field, or go on into SALES. */
    method FieldsTurn(sid: string, state: Session, hesitant: bool) returns (reply: Reply)
      requires ValidExcept(sid)
      requires state.stage == Discovery && sid in sessions && sessions[sid] == state
      modifies this
      ensures Valid()
      ensures var o := FieldsStep(state, hesitant);
        sessions == old(sessions)[sid := o.session] && reply == o.reply && o.invoked == None
    {
      if state.loanType.None? {
        return AskLoanType;
      }
      if !Truthy(state.amount) {
        return AskAmount;
      }
      if !Truthy(state.tenure) {
        return AskTenure;
      }
      var state := state.(stage := Sales);
      sessions := sessions[sid := state];
      reply := Quoting(sid, state, hesitant);
    }

    /** The SALES section: compute the EMI at 13%, store CONFIRM and quote. */
    method Quoting(sid: string, state: Session, hesitant: bool) returns (reply: Reply)
      requires Truthy(state.amount) && Truthy(state.tenure)
      modifies this
      ensures var o := SalesStep(state, hesitant);
        sessions == old(sessions)[sid := o.session] && reply == o.reply && o.invoked == None
    {
      EmiDefinedIff(AnnualRatePercent, state.tenure.value);
      var emi := CalculateEmi(state.amount.value, AnnualRatePercent, state.tenure.value);
      var state := state.(emi := Some(emi));
      state := state.(stage := Confirm);
      sessions := sessions[sid := state];
      reply := Quote(hesitant, state.amount.value, state.tenure.value / 12, emi);
    }

    /** A turn that finds the record in SALES quotes at once. */
    method SalesTurn(sid: string, state: Session, hesitant: bool,
                     ghost s0: Session, ghost r: Reading, ghost kycVerified: bool, ghost uwApproved: bool)
      returns (reply: Reply)
      requires ValidExcept(sid)
      requires s0.stage == Sales && Consistent(s0) && state == Absorb(s0, r) && hesitant == r.hesitant
      modifies this
      ensures Valid()
      ensures var o := Step(s0, r, kycVerified, uwApproved);
        sessions == old(sessions)[sid := o.session] && reply == o.reply && o.invoked == None
    {
      reply := Quoting(sid, state, hesitant);
    }

    /** The CONFIRM section. */
    method ConfirmTurn(sid: string, state: Session, msg: string,
                       ghost s0: Session, ghost r: Reading, ghost kycVerified: bool, ghost uwApproved: bool)
      returns (reply: Reply)
      requires ValidExcept(sid)
      requires s0.stage == Confirm && Consistent(s0) && state == Absorb(s0, r) && UserReady(msg) == r.ready
      requires sid in sessions && sessions[sid] == state
      modifies this
      ensures Valid()
      ensures var o := Step(s0, r, kycVerified, uwApproved);
        sessions == old(sessions)[sid := o.session] && reply == o.reply && o.invoked == None
    {
      if UserReady(msg) {
        sessions := sessions[sid := state.(stage := Kyc)];
        return KycInstructions;
      }
      return NoRush;
    }

    /** The KYC section: the worker is called only when the message says "verified". */
    method KycTurn(sid: string, state: Session, msg: string, kycVerified: bool,
                   ghost s0: Session, ghost r: Reading, ghost uwApproved: bool)
      returns (reply: Reply, invoked: Option<Worker>)
      requires ValidExcept(sid)
      requires s0.stage == Kyc && Consistent(s0) && state == Absorb(s0, r) && IsVerified(msg) == r.verified
      requires sid in sessions && sessions[sid] == state
      modifies this
      ensures Valid()
      ensures var o := Step(s0, r, kycVerified, uwApproved);
        sessions == old(sessions)[sid := o.session] && reply == o.reply && invoked == o.invoked
    {
      if !IsVerified(msg) {
        return KycReminder, None;
      }
      invoked := Some(KycWorker);
      if kycVerified {
        sessions := sessions[sid := state.(stage := Underwriting)];
        return KycPassed, invoked;
      }
      return KycRetry, invoked;
    }

    /** The UNDERWRITING section: the worker is called on every such turn. */
    method UnderwritingTurn(sid: string, state: Session, uwApproved: bool,
                            ghost s0: Session, ghost r: Reading, ghost kycVerified: bool)
      returns (reply: Reply, invoked: Option<Worker>)
      requires ValidExcept(sid)
      requires s0.stage == Underwriting && Consistent(s0) && state == Absorb(s0, r)
      requires sid in sessions && sessions[sid] == state
      modifies this
      ensures Valid()
      ensures var o := Step(s0, r, kycVerified, uwApproved);
        sessions == old(sessions)[sid := o.session] && reply == o.reply && invoked == o.invoked
    {
      invoked := Some(UnderwritingWorker);
      if uwApproved {
        sessions := sessions[sid := state.(stage := Sanction)];
        return LoanApproved, invoked;
      }
      return NotApproved, invoked;
    }

    /**
     * The request envelope: a missing message reads as the empty string and
     * a missing session id as "demo-user"; the reply goes back with the
     * session id it was computed for.
     */
    method Handle(message: Option<string>, sessionId: Option<string>, kycVerified: bool, uwApproved: bool)
      returns (sid: string, reply: Reply)
      requires Valid()
      modifies this
      ensures Valid()
      ensures sid == (if sessionId.Some? then sessionId.value else DefaultSessionId)
      ensures var msg := if message.Some? then message.value else "";
        var o := Step(old(Lookup(sid)), Read(msg), kycVerified, uwApproved);
        sessions == old(sessions)[sid := o.session] && reply == o.reply
    {
      var msg := if message.Some? then message.value else "";
      sid := if sessionId.Some? then sessionId.value else DefaultSessionId;
      var invoked;
      reply, invoked := Turn(sid, msg, kycVerified, uwApproved);
    }
  }
}
