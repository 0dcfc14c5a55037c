# Loan chatbot dialogue controller and underwriting rules, in Dafny

This project models the deterministic core of a loan-approval chatbot:

- **The dialogue controller** (`ChatOrchestrator.py`). Each user message is one turn. A turn loads the session record for its session id from the process-wide `SESSION_STATE` map. It extracts the loan type, amount and tenure from the message, keeping any truthy value already stored. It then moves the record through the stages WELCOME, DISCOVERY, (SALES), CONFIRM, KYC, UNDERWRITING, SANCTION and DONE, and writes it back. The text helpers decide what a message says:
  - the three field extractors;
  - the hesitation classifier;
  - the "accepts the suggestion", "ready" and "verified" predicates.
- **The underwriting worker** (`UnderWritingLambda.py`). A fixed rule table from loan type, amount and EMI (equated monthly installment) to a decision and a reason.

Modules:

- `Text`: ASCII lower- and upper-casing, comma removal, substring search, digit and whitespace runs, decimal values.
- `Extract`: the extractors, with each regular-expression search modelled as the leftmost position where the pattern matches with greedy quantifiers. Also the classifier and the predicates. `extract_loan_type` is a method whose loop mirrors the source's early-return `for`.
- `ExtractFacts`: what each extractor returns. This includes a proof that the greedy reading of `(\d+)\s*(year|years)` is the only reading, and a proof that no message is both hesitant and an accepted suggestion.
- `Emi`: `calculate_emi` over exact reals, when it is defined, and bounds on it.
- `Underwriting`: the rule table as a pure function, with its branch properties and monotonicity.
- `Orchestrator`:
  - `Step` is the pure specification of one turn. It is a function of the stored record, what the message reads as (`Read`), and the answers of the KYC and underwriting workers, which are oracle parameters.
  - `SessionStore` is the session map as a class. `Turn` is `lambda_handler`, written step by step as the source does. It is proved to leave the map exactly as `Step` says, to touch no other session, and to keep every stored record consistent.
- `OrchestratorFacts`: per-stage behaviour, first-write-wins fields, stages never moving backward, whole conversations (`Run`), and end-to-end runs with the rule table as the underwriting worker.

Three properties of the source as written are proved rather than assumed:

- The hesitant "accept the 60-month default" branch can never fire. It needs a message that is hesitant and also, as a whole, one of the accept phrases, and no accept phrase contains a hesitation phrase (`OrchestratorFacts.DefaultTenureUnreachable`).
- SALES is never left stored at the end of a turn that returns normally. A DISCOVERY turn that completes the fields passes through SALES and stores CONFIRM with the EMI set (`Orchestrator.StepStored`). A turn whose EMI computation raises leaves SALES stored; see the `CalculateEmi` line under "## Left out".
- The "Low credit score" rejection is unreachable, because the credit score is the constant 780 (`Underwriting.Decide`).

Points where the code behaves in a way a reader may not expect. The model follows the code in each:

- With "lakh" anywhere in the message, the amount is the first number anywhere in the message times 100000, even if that number is not the one next to "lakh". For example, "3 years, 5 lakh" reads as 300000 (`ExtractFacts.ExtractAmountLakh`).
- The tenure is the whole digit run before the year word. "13 years" contains "3 years" but reads as 156 months (`ExtractFacts.TenureMatchStartsRun`, `ExtractFacts.ExtractTenureFound`).
- A DISCOVERY turn that completes the fields stores CONFIRM, not SALES, and computes the EMI in the same turn.
- UNDERWRITING stays put when the worker does not approve, just as KYC does when the worker does not verify.
- `int()` of the EMI truncates toward zero (`Emi.Truncate`).

## Model

| member | source | states |
|---|---|---|
| `Text.Lower` | ChatOrchestrator.py:23 | `text.lower()`: same length, and every character is mapped to its ASCII lower-case form |
| `Text.RemoveCommas` | ChatOrchestrator.py:23 | `.replace(",", "")`: no comma is left, and every other character keeps its number of occurrences |
| `Text.RemoveCommasAppend` | ChatOrchestrator.py:23 | removing commas distributes over concatenation, so kept characters keep their order |
| `Text.RemoveCommasChar` | ChatOrchestrator.py:23 | one comma is dropped and any other single character is kept |
| `Text.RemoveCommasNoComma` | ChatOrchestrator.py:23 | a text without commas comes back unchanged |
| `Text.DigitRun` | ChatOrchestrator.py:25 | what a greedy `\d+` consumes from a position: all digits, and not followed by a digit |
| `Text.SpaceRun` | ChatOrchestrator.py:33 | what a greedy `\s*` consumes from a position: all whitespace, and not followed by whitespace |
| `Text.ValueBelowPow10` | ChatOrchestrator.py:29 | `int()` of a k-digit string is below 10^k |
| `Extract.FirstDigitFrom` | ChatOrchestrator.py:25 | where `re.search(r"(\d+)")` matches: the leftmost digit, with none before it |
| `Extract.LongRunFrom` | ChatOrchestrator.py:28 | where `re.search(r"(\d{6,9})")` matches: the leftmost position followed by at least six digits |
| `Extract.CappedRun` | ChatOrchestrator.py:28 | the capture of `\d{6,9}` is the first min(run, 9) characters of the digit run at the match, so only digits and at most nine of them |
| `Extract.ExtractAmount` | ChatOrchestrator.py:22-29 | without "lakh" the amount is below 10^9; with "lakh" it is a whole number of lakhs |
| `ExtractFacts.ExtractAmountLakh` | ChatOrchestrator.py:24-26 | with "lakh" anywhere, the amount is the first number anywhere in the text times 100000 |
| `ExtractFacts.ExtractAmountLakhNone` | ChatOrchestrator.py:24-26 | with "lakh", None exactly when the text has no digit |
| `ExtractFacts.ExtractAmountPlain` | ChatOrchestrator.py:28-29 | without "lakh", the amount is the first run of six or more digits, cut to nine digits, starting a run, and below 10^9 |
| `ExtractFacts.ExtractAmountPlainNone` | ChatOrchestrator.py:28-29 | without "lakh", None exactly when no run of six digits occurs |
| `Extract.TenureFrom` | ChatOrchestrator.py:33 | the tenure search finds the leftmost greedy match of digits, optional whitespace and `year` |
| `Extract.ExtractTenure` | ChatOrchestrator.py:32-34 | the tenure is always a multiple of 12 months |
| `ExtractFacts.GreedyTenureMatch` | ChatOrchestrator.py:33 | `(\d+)\s*(year or years)` matches at a position exactly when the greedy split does |
| `ExtractFacts.SplitIsGreedy` | ChatOrchestrator.py:33 | every way to split a match takes the whole digit run and the whole whitespace run |
| `ExtractFacts.SplitIsMatch` | ChatOrchestrator.py:33 | any split of a regular-expression match is the greedy match at that position |
| `ExtractFacts.MatchIsRegexMatch` | ChatOrchestrator.py:33 | the greedy split is a match of the regular expression |
| `ExtractFacts.LeftmostTenureMatch` | ChatOrchestrator.py:33 | the search returns the leftmost position where the regular expression matches |
| `ExtractFacts.TenureMatchStartsRun` | ChatOrchestrator.py:33 | the leftmost match starts at the beginning of a digit run |
| `ExtractFacts.ExtractTenureFound` | ChatOrchestrator.py:32-34 | the tenure is 12 times the whole number at the leftmost match |
| `ExtractFacts.ExtractTenureNone` | ChatOrchestrator.py:32-34 | the tenure is None exactly when the pattern matches nowhere |
| `Extract.LoanType.Name` | ChatOrchestrator.py:40 | the stored loan type is the upper-cased keyword (`k.upper()`) |
| `Extract.KeywordIndexFrom` | ChatOrchestrator.py:38-41 | the first keyword in list order at or after a position that occurs, with none before it |
| `Extract.ExtractLoanType` | ChatOrchestrator.py:37-41 | the early-return keyword loop returns the first keyword in list order found in the message |
| `ExtractFacts.LoanTypeFirstKeyword` | ChatOrchestrator.py:37-41 | a loan type is returned iff its keyword occurs and no earlier keyword in the list does; None iff no keyword occurs |
| `Extract.LoanTypeOf` | ChatOrchestrator.py:37-41 | the loan type a message names, by definition: the type of the first keyword in list order that occurs in the lower-cased message, or None |
| `ExtractFacts.AnyContainedIff` | ChatOrchestrator.py:52-65 | the phrase test is `any(x in t for x in phrases)` |
| `ExtractFacts.OneOfIff` | ChatOrchestrator.py:71-78 | the whole-message test is list membership |
| `ExtractFacts.HesitantIff` | ChatOrchestrator.py:50-67 | HESITANT iff some hesitation phrase occurs in the lower-cased message |
| `ExtractFacts.AcceptsIff` | ChatOrchestrator.py:70-78 | accepts iff the whole lower-cased message is an accept phrase |
| `ExtractFacts.ReadyIff` | ChatOrchestrator.py:81-89 | ready iff the whole lower-cased message is a readiness phrase |
| `ExtractFacts.CalmBy` | ChatOrchestrator.py:52-65 | a text lacking one letter of each hesitation phrase is not hesitant |
| `ExtractFacts.AcceptPhraseCalm` | ChatOrchestrator.py:52-78 | no accept phrase contains a hesitation phrase |
| `ExtractFacts.AcceptedNeverHesitant` | ChatOrchestrator.py:50-78 | a message that accepts the suggestion is never HESITANT |
| `Extract.DetectSentiment` | ChatOrchestrator.py:50-67 | by definition, HESITANT when any of the nine hesitation phrases occurs as a substring of the lower-cased message, otherwise NEUTRAL |
| `Extract.UserAcceptsSuggestion` | ChatOrchestrator.py:70-78 | by definition, the whole lower-cased message equals one of the six accept phrases (not a substring test) |
| `Extract.UserReady` | ChatOrchestrator.py:81-89 | by definition, the whole lower-cased message equals one of the six readiness phrases (not a substring test) |
| `Extract.IsVerified` | ChatOrchestrator.py:92-93 | by definition, "verified" occurs as a substring of the lower-cased message, unlike the two whole-message tests |
| `ExtractFacts.VerifiedAnywhere` | ChatOrchestrator.py:92-93 | "verified" in any letter case at any position makes a message verified, so "not verified" and "unverified" count too |
| `ExtractFacts.VerifiedSomewhere` | ChatOrchestrator.py:92-93 | conversely, a verified message spells "verified", in some letter case, at some position |
| `Emi.Bernoulli` | ChatOrchestrator.py:46 | (1 + r)^n >= 1 + n r for r > 0, the fact that keeps the divisor of `calculate_emi` away from zero |
| `Emi.Truncate` | ChatOrchestrator.py:46 | `int(x)` truncates toward zero |
| `Emi.CalculateEmi` | ChatOrchestrator.py:44-46 | `calculate_emi(p, r, n)`: the monthly rate is the annual percentage divided by 1200, then the annuity p r (1+r)^n / ((1+r)^n - 1) over exact reals, truncated by `int()`; defined only where the divisor is nonzero (see `Emi.EmiDefinedIff`) |
| `Emi.EmiDefinedIff` | ChatOrchestrator.py:44-46 | at a positive rate the division in `calculate_emi` is defined iff the tenure is positive |
| `Emi.EmiBounds` | ChatOrchestrator.py:44-46 | before truncation the EMI lies between p r and p (1 + r) |
| `Emi.SolutionBounds` | ChatOrchestrator.py:46 | the solution of e ((1+r)^n - 1) = p r (1+r)^n lies between p r and p (1 + r) |
| `Emi.EmiNonNegative` | ChatOrchestrator.py:44-46 | a non-negative principal at a positive rate gives a non-negative EMI |
| `Underwriting.Decide` | UnderWritingLambda.py:10-77 | APPROVED iff HOME, or amount <= 1500000, or amount <= 3000000 with EMI <= 40000; never "Low credit score" |
| `Underwriting.HomeAlwaysApproved` | UnderWritingLambda.py:14-22 | HOME is approved with its reason whatever the amount and EMI |
| `Underwriting.WithinPreapprovedLimit` | UnderWritingLambda.py:39-47 | outside HOME, an amount up to the limit is approved as within the pre-approved limit |
| `Underwriting.AffordabilityBand` | UnderWritingLambda.py:49-68 | outside HOME, between the limit and twice the limit, approved iff EMI <= 40000, with the two reasons |
| `Underwriting.AboveEligibility` | UnderWritingLambda.py:70-77 | outside HOME, above twice the limit, rejected as exceeding eligibility |
| `Underwriting.DecideMonotone` | UnderWritingLambda.py:10-77 | lowering the amount or the EMI never turns an approval into a rejection |
| `Orchestrator.Read` | ChatOrchestrator.py:159-293 | what one message reads as: the three extracted fields (lines 185-187) and the four classifications the turn consults (lines 159, 207, 273 and 293), each the function above |
| `Orchestrator.Absorb` | ChatOrchestrator.py:184-187 | by definition, `x = x or extract(msg)` per field: a set loan type or a truthy amount or tenure is kept, otherwise the message's value is taken |
| `Orchestrator.Step` | ChatOrchestrator.py:172-370 | one turn as a function of the stored record, the reading of the message and the answers of the two workers: the record stored, the reply kind, and the worker called, if any; WELCOME skips extraction, every other stage absorbs the message first |
| `Orchestrator.DiscoveryStep` | ChatOrchestrator.py:190-247 | the hesitation block: reassurance while the amount is missing, tenure options while the tenure is missing and the message does not accept, otherwise the 60-month default or straight on to the field prompts |
| `Orchestrator.FieldsStep` | ChatOrchestrator.py:221-247 | the prompts for loan type, amount and tenure in that order; with all three set, SALES within the same turn |
| `Orchestrator.SalesStep` | ChatOrchestrator.py:249-269 | the EMI at 13% on the stored amount and tenure, CONFIRM stored, and a quote of the amount, the whole years and the EMI |
| `Orchestrator.ConfirmStep` | ChatOrchestrator.py:271-289 | KYC with the instructions when the user is ready, otherwise the record unchanged and the no-rush reply |
| `Orchestrator.KycStep` | ChatOrchestrator.py:291-323 | without "verified" a reminder and no worker call; otherwise the KYC worker is called and its VERIFIED answer moves the stage to UNDERWRITING |
| `Orchestrator.UnderwritingStep` | ChatOrchestrator.py:325-352 | the underwriting worker is called, and its APPROVED answer moves the stage to SANCTION; otherwise the stage stays |
| `Orchestrator.StepStored` | ChatOrchestrator.py:172-269 | every turn leaves a consistent record that is neither WELCOME nor SALES |
| `Orchestrator.SessionStore.constructor` | ChatOrchestrator.py:19 | the store starts empty |
| `Orchestrator.SessionStore.Lookup` | ChatOrchestrator.py:161-170 | a missing session id yields the fresh WELCOME record, and every loaded record is consistent |
| `Orchestrator.SessionStore.Turn` | ChatOrchestrator.py:154-370 | the map afterwards is the old map with this session's entry replaced by `Step`'s record; reply and worker calls are `Step`'s; other sessions are untouched |
| `Orchestrator.SessionStore.Advance` | ChatOrchestrator.py:188-370 | given the extracted record, the write-back and the stage sections store and reply as `Step` says |
| `Orchestrator.SessionStore.ExtractFields` | ChatOrchestrator.py:184-187 | the extraction block yields the record with each truthy field kept and the others replaced by the extractors' results |
| `Orchestrator.SessionStore.Dispatch` | ChatOrchestrator.py:190-370 | the stage sections store and reply as `Step` says |
| `Orchestrator.SessionStore.DiscoveryTurn` | ChatOrchestrator.py:190-247 | the DISCOVERY section stores and replies as `Step` says |
| `Orchestrator.SessionStore.FieldsTurn` | ChatOrchestrator.py:223-247 | the prompts for missing fields, or the move into SALES |
| `Orchestrator.SessionStore.Quoting` | ChatOrchestrator.py:250-269 | SALES stores CONFIRM with the EMI of the stored amount and tenure, and quotes them |
| `Orchestrator.SessionStore.SalesTurn` | ChatOrchestrator.py:249-269 | a record found in SALES is quoted as `Step` says |
| `Orchestrator.SessionStore.ConfirmTurn` | ChatOrchestrator.py:271-289 | the CONFIRM section stores and replies as `Step` says |
| `Orchestrator.SessionStore.KycTurn` | ChatOrchestrator.py:291-323 | the KYC section stores, replies and calls the worker as `Step` says |
| `Orchestrator.SessionStore.UnderwritingTurn` | ChatOrchestrator.py:325-352 | the UNDERWRITING section stores, replies and calls the worker as `Step` says |
| `Orchestrator.SessionStore.Handle` | ChatOrchestrator.py:154-157 | a missing message reads as "" and a missing session id as "demo-user" |
| `OrchestratorFacts.AbsorbKeeps` | ChatOrchestrator.py:184-187 | from SALES on, extraction changes nothing |
| `OrchestratorFacts.StepKeepsFields` | ChatOrchestrator.py:184-187 | first write wins: a set loan type and a truthy amount or tenure survive the turn |
| `OrchestratorFacts.WelcomeIgnoresMessage` | ChatOrchestrator.py:172-182 | a fresh session moves to DISCOVERY and greets, extracting nothing |
| `OrchestratorFacts.ReadNeverHesitantAndAccepting` | ChatOrchestrator.py:194-209 | no message reads as both hesitant and accepting |
| `OrchestratorFacts.DiscoveryOutcome` | ChatOrchestrator.py:190-269 | DISCOVERY stays with the absorbed fields until all three are set, then stores CONFIRM; the tenure is the extracted one |
| `OrchestratorFacts.DiscoveryPrompts` | ChatOrchestrator.py:194-245 | the order of the DISCOVERY prompts: a hesitant message asks about the amount, then the tenure, and otherwise falls through to the loan type, amount and tenure prompts |
| `OrchestratorFacts.DefaultTenureUnreachable` | ChatOrchestrator.py:206-209 | for every message, a DISCOVERY turn never stores the 60-month default |
| `OrchestratorFacts.DefaultTenureBranch` | ChatOrchestrator.py:206-209 | a reading both hesitant and accepting would store 60 months, so the branch is live in the stage logic |
| `OrchestratorFacts.QuotedEmi` | ChatOrchestrator.py:249-269 | the stored EMI is between 0 and p (1 + r), and the quote repeats amount, years and EMI |
| `OrchestratorFacts.ConfirmOutcome` | ChatOrchestrator.py:271-289 | CONFIRM moves to KYC iff the user is ready, else nothing changes |
| `OrchestratorFacts.KycOutcome` | ChatOrchestrator.py:291-323 | the KYC worker is called iff the message says "verified"; UNDERWRITING iff it then answers VERIFIED |
| `OrchestratorFacts.UnderwritingOutcome` | ChatOrchestrator.py:325-352 | the underwriting worker is called every turn; SANCTION iff approved, else nothing changes |
| `OrchestratorFacts.LastStages` | ChatOrchestrator.py:354-370 | SANCTION moves to DONE with the letter; DONE changes nothing and falls back |
| `OrchestratorFacts.StepStages` | ChatOrchestrator.py:172-370 | a turn keeps the stage or moves it to its successor; stages never move backward |
| `OrchestratorFacts.Run` | ChatOrchestrator.py:154-370 | a conversation of turns keeps the record consistent |
| `OrchestratorFacts.RunNeverBackward` | ChatOrchestrator.py:154-370 | over a conversation the stage never moves backward |
| `OrchestratorFacts.RunKeepsFields` | ChatOrchestrator.py:184-187 | over a conversation a set field keeps its value |
| `OrchestratorFacts.RunStored` | ChatOrchestrator.py:172-269 | after any turn the record is never in WELCOME or SALES |
| `OrchestratorFacts.UnderwritingAnswer` | UnderWritingLambda.py:14-22 | the rule table answers APPROVED for a HOME record |
| `OrchestratorFacts.HomeLoanSanctioned` | ChatOrchestrator.py:325-340 | with the rule table as worker, a HOME loan in UNDERWRITING is sanctioned |
| `OrchestratorFacts.LargeLoanStuck` | UnderWritingLambda.py:70-77 | with the rule table as worker, an amount over twice the limit stays in UNDERWRITING |
| `OrchestratorFacts.HomeLoanEndToEnd` | ChatOrchestrator.py:291-370 | with the always-VERIFIED KYC stub and the rule table, a HOME loan goes from KYC to DONE in three turns |

## Left out

- `llm_say` is the identity, as it is when no API key is configured. The Groq HTTP call and its nondeterministic rewording are not modelled, and neither is `generate_sales_response`.
- The workers are oracle booleans: "the KYC status is VERIFIED" and "the decision is APPROVED". The `lambda_client.invoke` transport and the double JSON decoding of the payloads are not modelled. The KYC worker (`KYCVerificationLambda.py`) always answers VERIFIED, which the end-to-end lemmas use as the constant `true`.
- Replies are prompt kinds (`Reply`), not their wording. The HTTP/JSON envelope, CORS headers and the thousands-separator formatting of `respond` are presentation only.
- `calculate_emi` is computed over exact reals, not binary floating point, so the EMI can differ from Python's by rounding.
- CalculateEmi, ExtractAmount, ExtractTenure: the exceptions the source raises on huge numbers are not modelled; the model returns a value in each case. The lakh branch accepts a digit run of any length. An amount beyond the float range makes `p * r` raise OverflowError. A huge tenure does the same in `(1 + r) ** n`. A product that overflows to infinity makes `int()` raise. Each of these happens after the turn has already stored SALES, so on the source that session stays in SALES, where `Orchestrator.StepStored` says it never does. On Python versions with the limit on integer-string conversion, `int()` of a run longer than 4300 digits raises ValueError in `extract_amount` or `extract_tenure`. By then the extraction block has already updated the stored dictionary in place. Such runs are not modelled as errors either.
- Text is treated as ASCII. `Lower` and `Upper` change only A-Z and a-z, `\d` is 0-9, and `\s` is the ASCII whitespace Python matches. Unicode digits, whitespace and case folding are not modelled.
- A JSON `null` message or session id (a present key with no value) is not modelled. Only a missing key falls back to its default.
- `Read` evaluates every classification of a message, while the source evaluates each one only in the branch that uses it. The helpers are pure, so the turn's effect is the same.
- The source mutates the loaded dictionary in place. The model writes a record value back at the same points. Every mutation in the source is followed by a write of that dictionary, so the map ends up the same.
- Concurrent requests racing on `SESSION_STATE` are not modelled. Turns run one at a time.
- `SalesAgentLambda.py` is never called by the controller, and only formats text for a language model, so it is not part of this model.
