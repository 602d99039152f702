# BudgetHero core, modelled in Dafny

BudgetHero is a personal-finance game set in Kenya. The player is shown a
scenario such as a rent rise, a car breakdown, a promotion, a windfall or a
medical bill, and picks one of four choices. A rule engine turns the choice
text into an outcome: a story, a money change, maybe a badge, a consequence
and a reason. The game folds that outcome into the player's saved progress.
Between scenarios, a short micro-lesson with a quiz earns a bonus.

This project models four parts of the program and proves properties of them:

- **The outcome rules engine.** This is `generateKenyanFinancialOutcome` and
  its `try`/`catch` wrapper `generateOutcome`.
  - It lives in `outcome_engine.dfy`.
  - The case analysis is in `dispatch.dfy`.
  - What the engine does with the catalog's real texts is in
    `catalog_routing.dfy`.
  - Lemmas over all inputs are in `engine_facts.dfy`.
- **The session rules of the game component.** This covers money clamping,
  the badge append, the `scenario_state` memo, a new scenario, reset, the
  lesson bonus, the level thresholds and the choice of the first scenario.
  It lives in `game_session.dfy`: pure update rules, plus a `Game` class whose
  methods mirror the component's handlers.
- **The scenario catalog.** This is the five scenarios, lookup by id and the
  random pick. It lives in `scenarios.dfy`.
- **The micro-lesson modal.** This is the premium lesson filter and the step
  machine that leads through the content to the quiz. It lives in
  `microlearning.dfy`: pure rules, plus a `LessonModal` class.

Supporting modules:

- `text.dfy`: ASCII lower-casing and substring search.
- `draws.dfy`: random draws.
- `wrappers.dfy`: an `Option` type.

How the model is built:

- **Random draws.** Every `Math.random()` call becomes a draw from an
  explicit stream `d: nat -> [0,1)`. Draws are numbered in program order, and
  `d(0)` is always `randomFactor`.
- **Money.** Amounts are `real`, because one branch produces a fraction.
  `Math.floor` is `.Floor`.
- **Case analysis.** `Dispatch.Classify` sorts a choice into one of sixteen
  intents, or into `Unmatched`. The first family entered that recognises an
  intent decides. `Dispatch.EvaluateIsResolve` proves that the engine's nested
  blocks compute exactly the outcome of that intent. Its first draw is given
  by `Dispatch.FirstDraw`.

What the proofs show about the program:

- **Every choice gets an outcome.** A family whose keywords match but whose
  intents all miss passes the choice on to the later families, and in the end
  to the default pool. "Decline and stay in current position" enters the
  housing block, because "current" contains "rent", and ends in the default
  pool.
- **The windfall rules are never reached from the catalog.** The windfall
  scenario is titled "Unexpected Money". That title contains neither
  "windfall" nor "bonus", and no choice text contains "250000", so all four of
  its choices end in the default pool. "Pay off credit card debt" also
  passes through the transport block, because "card" contains "car".
- **The insurance rule is never reached from the catalog.** No catalog choice
  mentions NHIF or insurance.
- **Premium is not always better.** A premium player gets a cheaper
  moving-cost estimate. With 80000 in savings, that estimate can let the
  player move when a non-premium player could not, and the move loses more.
  In every other branch, premium never does worse for the same draws, as long
  as the money is not negative; the game guarantees that through
  `GameSession.NewMoney`.
- **Without premium, some top tiers cannot be reached.** A non-premium
  player's market knowledge stays below 0.4, so the top rent-negotiation tier
  is out of reach. The same holds for the "Budget Master" badge.
- **One amount is not a whole number.** The used-car shortfall
  `-0.8 · money` is fractional. For example, it is -0.8 when the player has 1.
- **The catalog is well formed.** Every lookup of a catalog id finds its own
  entry. The random pick always returns a catalog member. The first scenario
  always resolves, so the component's "No scenarios available" error can never
  be shown.
- **The modal keeps its state after completion.** Completing a lesson closes
  the modal but does not clear the lesson, because the modal stays mounted.

## Model

| member | source | states |
|---|---|---|
| Text.Lower | src/hooks/useAI.ts:41 | `toLowerCase` on ASCII: same length, each letter lowered, no upper-case letter remains |
| Draws.ScaledDrawInRange | src/data/scenarios.ts:178 | for a draw in [0,1) and a positive length n, `floor(r·n)` is a valid index in [0, n) |
| Scenarios.Find | src/data/scenarios.ts:173-175 | `find`: None iff no entry has the id; otherwise an entry with that id and no earlier entry with it |
| Scenarios.GetScenarioById | src/data/scenarios.ts:173-175 | the result is a catalog entry with the requested id; undefined iff no entry has it |
| Scenarios.RandomPick | src/data/scenarios.ts:177-179 | indexing by `floor(r·length)` fails only on an empty catalog, and otherwise returns a member |
| Scenarios.GetRandomScenario | src/data/scenarios.ts:177-179 | `getRandomScenario` always returns a member of the catalog, namely entry `floor(r·5)` |
| Scenarios.CatalogIdsDistinct | src/data/scenarios.ts:20-171 | the five catalog ids are pairwise distinct |
| Scenarios.LookupFindsEntry | src/data/scenarios.ts:173-175 | for every entry s, `getScenarioById(s.id)` returns s |
| Scenarios.StartIdIsFirst | src/data/scenarios.ts:21-23 | 'rent_increase' is entry 0, so looking it up returns the first entry |
| Scenarios.FourDistinctChoices | src/data/scenarios.ts:20-171 | every scenario has exactly four choices, with ids distinct within it |
| OutcomeEngine.MarketKnowledge | src/hooks/useAI.ts:54 | premium market knowledge lies in [0.3, 0.6); non-premium in [0.2, 0.4) |
| OutcomeEngine.NegotiateRent | src/hooks/useAI.ts:52-78 | three tiers: +15000 with "Master Negotiator"; otherwise +8000 when skill > 0.5, with "Silver Tongue" iff randomFactor > 0.7; otherwise -15000 with no badge; without premium, at most +8000 and never the top badge |
| OutcomeEngine.MovingCosts | src/hooks/useAI.ts:81-83 | premium estimates lie in [60000, 90000); non-premium in [70000, 110000) |
| OutcomeEngine.MonthlySavings | src/hooks/useAI.ts:84 | the monthly saving from moving lies in [10000, 35000) |
| OutcomeEngine.CommuteCost | src/hooks/useAI.ts:87-88 | the commute costs 4000, 5000 or 6000, and costs 4000 exactly when the location draw exceeds 0.6 |
| OutcomeEngine.MoveOut | src/hooks/useAI.ts:80-104 | moving needs money above the cost estimate and then loses more than 29000, with "Smart Mover" iff the saving exceeds 20000; otherwise -15000 |
| OutcomeEngine.BudgetingSkill | src/hooks/useAI.ts:107 | premium budgeting skill lies in [0.4, 0.8); non-premium in [0.3, 0.6) |
| OutcomeEngine.AcceptIncrease | src/hooks/useAI.ts:106-123 | "Budget Master" iff skill > 0.6, with -8000; otherwise -13000; a non-premium player never earns the badge |
| OutcomeEngine.FindRoommate | src/hooks/useAI.ts:125-151 | three tiers on thresholds lowered by the screening bonus: 25000 with "Social Butterfly", then 18000, then 8000 |
| OutcomeEngine.MechanicQuality | src/hooks/useAI.ts:161 | premium mechanic quality lies in [0.6, 0.9); non-premium in [0.4, 0.8) |
| OutcomeEngine.RepairCar | src/hooks/useAI.ts:159-186 | with at least 75000 the repair costs 75000, with "Maintenance Master" iff quality > 0.8; otherwise -90000; non-premium players never get the badge |
| OutcomeEngine.MonthlyMatatu | src/hooks/useAI.ts:190 | the matatu fare is 8000, 10000 or 12000 |
| OutcomeEngine.TakePublicTransport | src/hooks/useAI.ts:188-198 | the change is 15000 minus the fare, so one of 7000, 5000 or 3000; "Public Transport Pro" iff the fare is below 9000, iff efficiency > 0.6 |
| OutcomeEngine.UsedCarCost | src/hooks/useAI.ts:201 | a used car costs between 150000 and 350000 (exclusive) |
| OutcomeEngine.BuyUsedCar | src/hooks/useAI.ts:200-228 | affordable: minus the cost, with "Bargain Hunter" iff it is under 200000, or minus the cost and 40000 for a poor car; unaffordable: -0.8·money; whole amounts whenever affordable |
| OutcomeEngine.OrganizationSkill | src/hooks/useAI.ts:231 | premium organisation skill lies in [0.5, 0.8); non-premium in [0.3, 0.7) |
| OutcomeEngine.OrganizeCarpool | src/hooks/useAI.ts:230-249 | "Community Builder" iff skill > 0.7, with +12000; otherwise +6000; never for non-premium |
| OutcomeEngine.RelocateForPromotion | src/hooks/useAI.ts:252-276 | salary rise minus coastal costs minus 180000 relocation, and 20000 more if adaptation fails; "Career Climber" on success; always a whole amount |
| OutcomeEngine.NegotiateRemote | src/hooks/useAI.ts:278-297 | success (draw above 0.3 premium / 0.5 otherwise) pays the full salary rise with "Master Negotiator"; otherwise a quarter of it, floored |
| OutcomeEngine.BuildEmergencyFund | src/hooks/useAI.ts:303-320 | always +250000; "Emergency Fund Hero" iff the draw exceeds 0.3 (premium) or 0.6 |
| OutcomeEngine.PayOffDebt | src/hooks/useAI.ts:322-333 | always +300000 with "Debt Destroyer" |
| OutcomeEngine.InvestWindfall | src/hooks/useAI.ts:335-365 | diversified in a good market: 250000 + 30000 + 10000 with "Smart Investor"; otherwise 275000 or 225000 by market draw |
| OutcomeEngine.OutOfPocket | src/hooks/useAI.ts:370-376 | NHIF leaves 22500 to pay for premium players and 37500 for the others |
| OutcomeEngine.ClaimInsurance | src/hooks/useAI.ts:372-391 | with NHIF current (draw > 0.2) the out-of-pocket share and "Insurance Wise"; otherwise the whole 150000 |
| OutcomeEngine.HospitalPaymentPlan | src/hooks/useAI.ts:393-410 | -15000 when the hospital is flexible (draw > 0.6), otherwise -20000; never a badge |
| OutcomeEngine.FamilyHarambee | src/hooks/useAI.ts:412-437 | family support and a successful harambee: -25000 with "Community Champion"; support alone -100000; no support -15000 |
| OutcomeEngine.DefaultPool | src/hooks/useAI.ts:441-459 | the fallback change is a whole amount in [-500, 3999], with no badge and no consequence |
| OutcomeEngine.Settle | src/hooks/useAI.ts:20-30 | a thrown error becomes moneyChange 0, no badge, no consequence, reasoning "Error in outcome generation"; a finished call passes through |
| OutcomeEngine.GenerateOutcome | src/hooks/useAI.ts:14-35 | `generateOutcome` returns exactly the engine's outcome, since the modelled engine is total |
| Dispatch.IntentIn | src/hooks/useAI.ts:51-439 | an intent recognised inside a family belongs to that family |
| Dispatch.Classify | src/hooks/useAI.ts:51-459 | families are tried in order rent, transport, promotion, windfall, medical: `Unmatched` iff none of them both is entered and recognises an intent; otherwise the intent belongs to a family that does, and no family earlier in that order does |
| Dispatch.FirstDraw | src/hooks/useAI.ts:48-157 | an intent's own draws start at index 1 or 2, and at 2 exactly when the intent is not a housing one and the transport block was entered, which draws the car's age |
| Dispatch.RentBlockAgrees | src/hooks/useAI.ts:51-153 | the housing block decides exactly when the rent family decides, with that intent's outcome |
| Dispatch.TransportBlockAgrees | src/hooks/useAI.ts:155-250 | the transport block decides exactly when its family decides, one draw later |
| Dispatch.PromotionBlockAgrees | src/hooks/useAI.ts:252-298 | the promotion block decides exactly when its family decides |
| Dispatch.WindfallBlockAgrees | src/hooks/useAI.ts:300-366 | the windfall block decides exactly when its family decides |
| Dispatch.MedicalBlockAgrees | src/hooks/useAI.ts:368-439 | the medical block decides exactly when its family decides |
| Dispatch.EvaluateIsResolve | src/hooks/useAI.ts:40-460 | the whole chain of blocks yields the outcome of the classified intent, starting at its first draw |
| CatalogRouting.RentShockRoutes | src/data/scenarios.ts:21-49 | the four rent choices are read as negotiate, move, accept/tighten and roommate |
| CatalogRouting.CarTroubleRoutes | src/data/scenarios.ts:51-79 | the four car choices are read as repair, public transport, used car and carpool |
| CatalogRouting.PromotionRoutes | src/data/scenarios.ts:81-109 | relocation and remote work are recognised; declining and researching match nothing |
| CatalogRouting.WindfallRoutes | src/data/scenarios.ts:111-139 | no windfall choice is recognised by any family |
| CatalogRouting.MedicalRoutes | src/data/scenarios.ts:141-169 | the payment plan and asking family are recognised; the loan and the delay match nothing |
| EngineFacts.ResolveBadgeKnown | src/hooks/useAI.ts:52-437 | every badge an intent awards is one of the fifteen badge names |
| EngineFacts.BadgeKnown | src/hooks/useAI.ts:40-460 | any badge the engine returns is one of the fifteen badge names |
| EngineFacts.UnmatchedGivesDefault | src/hooks/useAI.ts:441-459 | a choice no family decides gets a change in [-500, 3999], no badge and no consequence |
| EngineFacts.ResolveIntegral | src/hooks/useAI.ts:52-459 | every intent except buying a used car yields a whole amount |
| EngineFacts.IntegralChange | src/hooks/useAI.ts:40-460 | the engine yields a whole amount whenever the choice is not a used-car purchase |
| EngineFacts.ZeroMoneyIsAssumedMoney | src/hooks/useAI.ts:42 | current money 0, absent, or 50000 all give the same outcome |
| EngineFacts.ResolvePremiumNoWorse | src/hooks/useAI.ts:52-437 | for the same draws, premium never does worse, except when moving, and for remote work it needs money that is not negative |
| EngineFacts.PremiumNeverWorse | src/hooks/useAI.ts:40-460 | the same for the whole engine over every choice and context outside those two cases |
| EngineFacts.PremiumCanLoseByMoving | src/hooks/useAI.ts:80-104 | with 80000 and all draws 0.5, a premium move loses 57500 while a non-premium player loses 15000 |
| EngineFacts.DeclineEndsInDefault | src/hooks/useAI.ts:51-459 | declining the promotion enters the rent block ("current" contains "rent") yet ends in the default pool: a loss of at most 500 or a gain below 4000, with no badge |
| EngineFacts.WindfallScenarioPaysLittle | src/hooks/useAI.ts:300-459 | every choice of the windfall scenario gets the default pool, never the 250000 |
| EngineFacts.NegotiationCappedWithoutPremium | src/hooks/useAI.ts:52-78 | in the rent scenario without premium, negotiating gains at most 8000 and never "Master Negotiator" |
| EngineFacts.UsedCarShortfallIsFractional | src/hooks/useAI.ts:221-223 | with 1 unit of money the used-car shortfall is -0.8, not a whole amount |
| EngineFacts.CreditCardSkipsAgeDraw | src/hooks/useAI.ts:155-157 | paying off the credit card passes through the transport block ("card" contains "car"), so its default-pool outcome is built from draws 2 to 5 |
| EngineFacts.CarTroubleSkipsAgeDraw | src/hooks/useAI.ts:155-157 | in the car scenario every choice's own draws start after the car-age draw |
| GameSession.NewMoney | src/components/GameEngine.tsx:105 | `max(0, money + change)`: never negative, at least money + change, and either 0 or money + change |
| GameSession.NewBadges | src/components/GameEngine.tsx:106-108 | the old list is a prefix; the badge is appended iff present and not yet held; membership is old or new badge; no duplicates is kept |
| GameSession.NewBadgesIdempotent | src/components/GameEngine.tsx:106-108 | earning the same badge again changes nothing |
| GameSession.RecordChoice | src/components/GameEngine.tsx:113-117 | the memo keeps every key, gains lastChoice and lastOutcome, sets those two, and leaves all others unchanged |
| GameSession.ApplyOutcome | src/components/GameEngine.tsx:105-118 | the new record is exactly the clamped money (`NewMoney`), the badge list with any new badge added once (`NewBadges`) and the state with the last choice and narrative written (`RecordChoice`); money is not negative, the current scenario is unchanged, and a well-formed record stays well formed |
| GameSession.WithLessonBonus | src/components/GameEngine.tsx:180-184 | a lesson adds exactly 2500 with no clamp and changes nothing else |
| GameSession.ErrorLeavesRecord | src/components/GameEngine.tsx:90-118 | folding the error fallback (src/hooks/useAI.ts:26-30) into a record with non-negative money keeps its money and badges; only the memo records the choice |
| GameSession.StartingProgressWellFormed | src/components/GameEngine.tsx:146-149 | the reset record (50000, no badges) is well formed |
| GameSession.LevelName | src/components/GameEngine.tsx:222-224 | the level's rank counts the thresholds 100000, 250000 and 400000 that the money reaches |
| GameSession.LevelMonotone | src/components/GameEngine.tsx:222-224 | the level never goes down as money rises |
| GameSession.SelectInitial | src/components/GameEngine.tsx:43 | lookup of the saved id, else the first entry, else a random pick: None only for an empty catalog; the found entry wins when there is one |
| GameSession.InitialAlwaysResolves | src/components/GameEngine.tsx:43-48 | with the real catalog the initial scenario always resolves, and the start id resolves to the rent scenario |
| GameSession.StartScenario | src/components/GameEngine.tsx:152 | the reset scenario is entry 0, whose id is 'rent_increase' |
| GameSession.Game.constructor | src/components/GameEngine.tsx:28-36 | no progress or scenario, nothing shown, no error, not premium, no lessons |
| GameSession.Game.ReceiveProgress | src/components/GameEngine.tsx:39 | the persistence layer sets the progress record and nothing else changes |
| GameSession.Game.ResolveInitialScenario | src/components/GameEngine.tsx:41-50 | with progress but no scenario, the scenario becomes `SelectInitial` of the saved id; otherwise nothing changes |
| GameSession.Game.HandleChoice | src/components/GameEngine.tsx:84-124 | a no-op without a scenario or progress; otherwise the error is cleared and the engine's outcome is shown and folded in by `ApplyOutcome`; `current_scenario` never changes |
| GameSession.Game.NextScenario | src/components/GameEngine.tsx:126-139 | the outcome is cleared and a random catalog scenario is shown; its id is recorded when there is progress |
| GameSession.Game.ResetGame | src/components/GameEngine.tsx:141-160 | a present record becomes (50000, [], 'rent_increase', {}); the rent scenario is shown and the outcome is cleared |
| GameSession.Game.Upgrade | src/components/GameEngine.tsx:162-173 | only the plan 'premium' turns premium on; nothing else of the modelled state changes |
| GameSession.Game.HandleLessonComplete | src/components/GameEngine.tsx:175-185 | one more lesson is counted and a present record gains the bonus |
| Microlearning.AvailableLessons | src/components/MicrolearningModal.tsx:109 | the filter keeps exactly the lessons that are not premium, or all of them for a premium player |
| Microlearning.FirstAvailableLeads | src/components/MicrolearningModal.tsx:109-111 | the first available lesson heads the filtered list |
| Microlearning.SelectLesson | src/components/MicrolearningModal.tsx:109-111 | None iff no lesson is available; otherwise an available lesson from the list |
| Microlearning.SelectLessonIsFirst | src/components/MicrolearningModal.tsx:109-111 | the selected lesson is the earliest available one |
| Microlearning.EveryPlayerStartsWithEmergencyFund | src/components/MicrolearningModal.tsx:36-111 | premium or not, the player is given 'emergency_fund_basics' |
| Microlearning.PremiumLessonsNeedPremium | src/components/MicrolearningModal.tsx:59-109 | the two premium lessons are filtered out without premium, and a premium player sees all three |
| Microlearning.StepKinds | src/components/MicrolearningModal.tsx:122-123 | content and quiz steps exclude each other, and one of them holds for every step up to the content length |
| Microlearning.Advance | src/components/MicrolearningModal.tsx:125-131 | a content step moves on by exactly one; the quiz step shows the result iff an answer is selected and keeps the step; the step never passes the quiz |
| Microlearning.StepAfterIsCapped | src/components/MicrolearningModal.tsx:125-131 | from step 0, n presses reach step min(n, content length) |
| Microlearning.ProgressFraction | src/components/MicrolearningModal.tsx:173-179 | the bar fraction lies in (0, 1], and is 1 exactly on the quiz step |
| Microlearning.LessonsWellFormed | src/components/MicrolearningModal.tsx:36-104 | each lesson has content; its correct index is among the options; exactly that option, and no missing answer, is judged correct (line 233) |
| Microlearning.LessonModal.constructor | src/components/MicrolearningModal.tsx:30-34 | no lesson, step 0, not playing, no answer, no result |
| Microlearning.LessonModal.SetProps | src/components/MicrolearningModal.tsx:106-118 | an open modal without a lesson selects one and resets step, playing, answer and result; otherwise the lesson state is kept; the step bound is preserved |
| Microlearning.LessonModal.HandleNext | src/components/MicrolearningModal.tsx:125-131 | the step and result flag follow `Advance`; nothing else changes; the step bound is preserved |
| Microlearning.LessonModal.SelectAnswer | src/components/MicrolearningModal.tsx:218 | the pressed option becomes the selected answer |
| Microlearning.LessonModal.TogglePlay | src/components/MicrolearningModal.tsx:138-141 | playing is flipped and nothing else changes |
| Microlearning.LessonModal.HandleComplete | src/components/MicrolearningModal.tsx:133-136 | the shown lesson's id is reported and the modal is closed; the lesson state is kept |

## Left out

- **Persistence, sign-in and the leaderboard.** These live in
  `src/hooks/useSupabase.ts` and `src/lib/supabase.ts`, which are not part of
  this model.
  - `GameSession.Game.ReceiveProgress` stands for the record that the
    persistence layer delivers.
  - **Starting money.** A new record there starts with 1000
    (`useSupabase.ts:54`), while the game component uses 50000. The model uses
    50000.
  - `initializeProgress` (`GameEngine.tsx:52-72`) is not modelled. It asks the
    persistence layer to write a record while none exists, and the layer
    ignores updates without a record (`useSupabase.ts:87-88`), so the call has
    no effect.
- **Failures of the persistence layer.** These include the `catch` branches of
  `handleChoice`, `resetGame` and `initializeProgress`, which set an error
  text. The model writes every update directly and in order. It does not
  model network failure, asynchronous ordering, or a record that comes back
  different from the update.
- `GameSession.Game.HandleChoice`: the outcome is folded into the record the
  handler started from. A stale record is not possible, because updates are
  sequential.
- `GameSession.Game.ResolveInitialScenario`: the error branch at
  `GameEngine.tsx:47` is not modelled as a state change.
  `GameSession.InitialAlwaysResolves` proves that it cannot be reached, so the
  branch is `assert false`.
- **Timing, browser storage and display.** Not modelled:
  - the 1200 ms delay and the loading flag;
  - the outcome popup's timers;
  - the money animation and its timeout;
  - the daily-lesson gate kept in `localStorage`;
  - the pricing dialog, and the `alert` texts of `handleUpgrade`. The
    'enterprise' plan only closes that dialog, so it changes no modelled
    state.
- **The UI-only files.** These are `LandingPage.tsx`, `PricingModal.tsx`,
  `AICoachPanel.tsx`, `ScenarioCard.tsx`, `BadgeDisplay.tsx`,
  `ProgressBar.tsx`, `AIOutcomePopup.tsx`, `App.tsx` and the tailwind
  configuration.
- **`Math.random` and floating point.** `Math.random` becomes the draw
  stream. IEEE floating-point rounding is not modelled: the factors 0.8,
  0.15, 0.25 and so on are exact reals.
- **Prose becomes short labels.** The narratives, consequences and reasons of
  the outcomes, and the lesson content, questions and options, are replaced
  by short labels. The badge names, catalog titles, choice texts, ids and the
  error reason "Error in outcome generation" are kept word for word. The
  `toLocaleString` formatting of amounts inside narratives is not modelled.
- **Scenario fields the engine never reads.** The catalog's `description`,
  `situation`, `consequence`, `moneyChange`, `nextScenario` and `aiPrompt`
  fields are not modelled.
- **Values the engine computes but never uses.**
  - `outcomeVariety` (`useAI.ts:47`) is not modelled.
  - The `playerState` passed in by the component (`GameEngine.tsx:93`) is not
    modelled.
  - The car's age (`useAI.ts:157`) is only counted as a consumed draw.
- **Lower-casing is ASCII only.** All catalog texts are ASCII.
- `OutcomeEngine.GenerateOutcome`: the modelled engine is total over its
  typed inputs, so the `catch` path never arises. `OutcomeEngine.Settle` still
  models what that path returns.
- `EngineFacts.PremiumNeverWorse`: the lemma excludes two cases.
  - Moving out is excluded. `EngineFacts.PremiumCanLoseByMoving` gives a
    counterexample.
  - Remote-work negotiation with negative money is excluded. There, a
    floored quarter of a negative rise beats the full rise. The game never
    passes negative money, because `GameSession.NewMoney` clamps at 0.
- `Microlearning.LessonModal.SetProps`: the selection effect runs on every
  prop update. React runs it only when `isOpen` or `isPremium` changes. The
  two agree here, because the effect acts only when the modal is open without
  a lesson, and a run like that always selects a lesson.
- `Microlearning.LessonModal.SelectAnswer`: the source only offers the
  indices of the shown quiz's options. The model accepts any index.
- **Closing the modal by "skip" or the close button.** This is the parent's
  `onClose`, which is a prop update to a closed modal (`SetProps(false, …)`).
