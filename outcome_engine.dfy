/**
 * The outcome rules engine (`generateKenyanFinancialOutcome` and the
 * error fallback of `generateOutcome`): a choice text, the scenario title,
 * the player's money and the premium flag are mapped to an outcome.
 *
 * The engine lower-cases both texts, then tries five scenario families in a
 * fixed order (rent, transport, promotion, windfall, medical). A family is
 * entered when one of its keywords occurs; inside it the intents are tried
 * in order, and a family whose intents all miss falls through to the next
 * family. When nothing returns, a small default pool decides.
 *
 * Each `Math.random()` call is a value of the stream `d`, taken in program
 * order; the first one (`randomFactor`) is always `d(0)`.
 */
module OutcomeEngine {
  import opened Wrappers
  import opened Draws
  import opened Text

  /**
   * `AIOutcome`. Narrative, consequence and reasoning are short keys that
   * stand for the original prose; only the amounts, the badges and the
   * presence of a consequence are modelled exactly.
   */
  datatype Outcome = Outcome(
    narrative: string,
    moneyChange: real,
    badgeEarned: Option<string>,
    consequence: Option<string>,
    reasoning: string)

  /** The `context` object: scenario title, current money and premium flag (all optional in JavaScript). */
  datatype Context = Context(scenario: Option<string>, currentMoney: Option<real>, isPremium: bool)

  /** The money assumed when the context gives none, or gives 0. */
  const AssumedMoney: real := 50000.0

  const MasterNegotiator := "Master Negotiator"
  const SilverTongue := "Silver Tongue"
  const SmartMover := "Smart Mover"
  const BudgetMaster := "Budget Master"
  const SocialButterfly := "Social Butterfly"
  const MaintenanceMaster := "Maintenance Master"
  const PublicTransportPro := "Public Transport Pro"
  const BargainHunter := "Bargain Hunter"
  const CommunityBuilder := "Community Builder"
  const CareerClimber := "Career Climber"
  const EmergencyFundHero := "Emergency Fund Hero"
  const DebtDestroyer := "Debt Destroyer"
  const SmartInvestor := "Smart Investor"
  const InsuranceWise := "Insurance Wise"
  const CommunityChampion := "Community Champion"

  const RentIncrease: real := 15000.0
  const RepairCost: int := 75000
  const RelocationCosts: int := 180000
  const WindfallAmount: int := 250000
  const MedicalCost: int := 150000

  predicate IsInteger(x: real)
  {
    x == x.Floor as real
  }

  /** `context.currentMoney || 50000`. */
  function EffectiveMoney(m: Option<real>): real
  {
    if m.Some? && m.value != 0.0 then m.value else AssumedMoney
  }

  /** `context.scenario?.toLowerCase() || ''`. */
  function ScenarioText(title: Option<string>): string
  {
    if title.Some? then Lower(title.value) else ""
  }

  // ---------------------------------------------------------------- rent

  /** Market knowledge: premium players draw from [0.3, 0.6), the others from [0.2, 0.4). */
  function MarketKnowledge(premium: bool, u: Unit): (k: real)
    ensures premium ==> 0.3 <= k < 0.6
    ensures !premium ==> 0.2 <= k < 0.4
  {
    if premium then u * 0.3 + 0.3 else u * 0.2 + 0.2
  }

  /** Rent negotiation: three tiers on the negotiation skill and the market knowledge. */
  function NegotiateRent(premium: bool, randomFactor: Unit, skill: Unit, market: Unit): (o: Outcome)
    ensures skill > 0.7 && MarketKnowledge(premium, market) > 0.5 ==>
              o.moneyChange == RentIncrease && o.badgeEarned == Some(MasterNegotiator)
    ensures !(skill > 0.7 && MarketKnowledge(premium, market) > 0.5) && skill > 0.5 ==>
              o.moneyChange == 8000.0 &&
              o.badgeEarned == (if randomFactor > 0.7 then Some(SilverTongue) else None)
    ensures skill <= 0.5 ==> o.moneyChange == -RentIncrease && o.badgeEarned == None && o.consequence.Some?
    ensures !premium ==> o.moneyChange <= 8000.0 && o.badgeEarned != Some(MasterNegotiator)
  {
    var knowledge := MarketKnowledge(premium, market);
    if skill > 0.7 && knowledge > 0.5 then
      Outcome("lease won", RentIncrease,
              Some(MasterNegotiator), None, "prepared")
    else if skill > 0.5 then
      Outcome("increase cut", 8000.0,
              if randomFactor > 0.7 then Some(SilverTongue) else None, None, "partly prepared")
    else
      Outcome("increase stands", -RentIncrease,
              None, Some("unprepared"), "unprepared")
  }

  /** Deposit and moving costs: premium estimates lie in [60000, 90000), the others in [70000, 110000). */
  function MovingCosts(premium: bool, u: Unit): (c: int)
    ensures premium ==> 60000 <= c < 90000
    ensures !premium ==> 70000 <= c < 110000
  {
    if premium then (u * 30000.0).Floor + 60000 else (u * 40000.0).Floor + 70000
  }

  /** Monthly rent saved by moving, in [10000, 35000). */
  function MonthlySavings(u: Unit): (s: int)
    ensures 10000 <= s < 35000
  {
    (u * 25000.0).Floor + 10000
  }

  /** The commute cost of the new location chosen by `randomFactor`. */
  function CommuteCost(randomFactor: Unit): (c: int)
    ensures c == 4000 || c == 5000 || c == 6000
    ensures c == 4000 <==> randomFactor > 0.6
  {
    if randomFactor > 0.6 then 4000 else if randomFactor > 0.3 then 5000 else 6000
  }

  function Location(randomFactor: Unit): string
  {
    if randomFactor > 0.6 then "Kasarani" else if randomFactor > 0.3 then "Kahawa West" else "Githurai"
  }

  /** Moving out: only a player with more money than the moving costs can move. */
  function MoveOut(money: real, premium: bool, randomFactor: Unit, costDraw: Unit, savingsDraw: Unit): (o: Outcome)
    ensures money > MovingCosts(premium, costDraw) as real ==>
              o.moneyChange == (MonthlySavings(savingsDraw) - MovingCosts(premium, costDraw) - CommuteCost(randomFactor)) as real &&
              (o.badgeEarned.Some? <==> MonthlySavings(savingsDraw) > 20000) &&
              (o.badgeEarned.Some? ==> o.badgeEarned == Some(SmartMover))
    ensures money > MovingCosts(premium, costDraw) as real ==> o.moneyChange < -29000.0
    ensures money <= MovingCosts(premium, costDraw) as real ==>
              o.moneyChange == -RentIncrease && o.badgeEarned == None && o.consequence.Some?
  {
    var movingCosts := MovingCosts(premium, costDraw);
    var monthlySavings := MonthlySavings(savingsDraw);
    if money > movingCosts as real then
      var commute := CommuteCost(randomFactor);
      Outcome("moved to " + Location(randomFactor), (-movingCosts + monthlySavings - commute) as real,
              if monthlySavings > 20000 then Some(SmartMover) else None, None,
              "good value")
    else
      Outcome("stayed", -RentIncrease,
              None, Some("no deposit"), "needs capital")
  }

  /** Budgeting skill: premium players draw from [0.4, 0.8), the others from [0.3, 0.6). */
  function BudgetingSkill(premium: bool, u: Unit): (k: real)
    ensures premium ==> 0.4 <= k < 0.8
    ensures !premium ==> 0.3 <= k < 0.6
  {
    if premium then u * 0.4 + 0.4 else u * 0.3 + 0.3
  }

  /** Accepting the increase and tightening the budget. */
  function AcceptIncrease(premium: bool, u: Unit): (o: Outcome)
    ensures o.badgeEarned == Some(BudgetMaster) <==> BudgetingSkill(premium, u) > 0.6
    ensures o.badgeEarned.Some? ==> o.moneyChange == -8000.0
    ensures o.badgeEarned.None? ==> o.moneyChange == -13000.0
    ensures !premium ==> o.badgeEarned == None
  {
    if BudgetingSkill(premium, u) > 0.6 then
      Outcome("budget mastered", -8000.0, Some(BudgetMaster), None,
              "habits")
    else
      Outcome("few savings", -13000.0, None, None,
              "unsystematic")
  }

  /** Screening advice lowers the roommate thresholds by 0.3 for premium players, by 0.1 otherwise. */
  function Screening(premium: bool): real
  {
    if premium then 0.3 else 0.1
  }

  /** Finding a roommate: always a gain, in three tiers. */
  function FindRoommate(premium: bool, quality: Unit): (o: Outcome)
    ensures quality > 0.6 - Screening(premium) ==> o.moneyChange == 25000.0 && o.badgeEarned == Some(SocialButterfly)
    ensures 0.3 - Screening(premium) < quality <= 0.6 - Screening(premium) ==>
              o.moneyChange == 18000.0 && o.badgeEarned == None
    ensures quality <= 0.3 - Screening(premium) ==> o.moneyChange == 8000.0 && o.badgeEarned == None
  {
    var screening := Screening(premium);
    if quality > 0.6 - screening then
      Outcome("great roommate", 25000.0, Some(SocialButterfly), None,
              "screened")
    else if quality > 0.3 - screening then
      Outcome("ok roommate", 18000.0, None, Some("conflicts"),
              "mixed")
    else
      Outcome("bad roommate", 8000.0, None, Some("stress"),
              "unscreened")
  }

  // ----------------------------------------------------------- transport

  /** Mechanic quality: premium players draw from [0.6, 0.9), the others from [0.4, 0.8). */
  function MechanicQuality(premium: bool, u: Unit): (k: real)
    ensures premium ==> 0.6 <= k < 0.9
    ensures !premium ==> 0.4 <= k < 0.8
  {
    if premium then u * 0.3 + 0.6 else u * 0.4 + 0.4
  }

  /** Repairing the car: needs at least the repair cost, otherwise a digital loan adds 15000. */
  function RepairCar(money: real, premium: bool, u: Unit): (o: Outcome)
    ensures money >= RepairCost as real ==>
              o.moneyChange == -RepairCost as real &&
              (o.badgeEarned == Some(MaintenanceMaster) <==> MechanicQuality(premium, u) > 0.8) &&
              (o.badgeEarned.Some? ==> o.badgeEarned == Some(MaintenanceMaster))
    ensures money < RepairCost as real ==> o.moneyChange == -90000.0 && o.badgeEarned == None && o.consequence.Some?
    ensures !premium ==> o.badgeEarned == None
  {
    if money >= RepairCost as real then
      if MechanicQuality(premium, u) > 0.8 then
        Outcome("warranty", -RepairCost as real, Some(MaintenanceMaster), None,
                "quality")
      else
        Outcome("mediocre", -RepairCost as real, None, Some("recurring"),
                "cheap")
    else
      Outcome("loan repair", (-RepairCost - 15000) as real, None,
              Some("digital loan"), "no fund")
  }

  /** Monthly matatu fare, chosen by the route efficiency. */
  function MonthlyMatatu(routeEfficiency: Unit): (f: int)
    ensures f == 8000 || f == 10000 || f == 12000
  {
    if routeEfficiency > 0.6 then 8000 else if routeEfficiency > 0.3 then 10000 else 12000
  }

  /** Public transport saves 15000 minus the fare. */
  function TakePublicTransport(routeEfficiency: Unit): (o: Outcome)
    ensures o.moneyChange == (15000 - MonthlyMatatu(routeEfficiency)) as real
    ensures o.moneyChange == 7000.0 || o.moneyChange == 5000.0 || o.moneyChange == 3000.0
    ensures o.badgeEarned.Some? <==> MonthlyMatatu(routeEfficiency) < 9000
    ensures o.badgeEarned.Some? <==> routeEfficiency > 0.6
    ensures o.badgeEarned.Some? ==> o.badgeEarned == Some(PublicTransportPro)
  {
    var fare := MonthlyMatatu(routeEfficiency);
    Outcome("matatus", (15000 - fare) as real,
            if fare < 9000 then Some(PublicTransportPro) else None, None,
            "route")
  }

  /** Price of a used car, in [150000, 350000). */
  function UsedCarCost(u: Unit): (c: int)
    ensures 150000 <= c < 350000
  {
    (u * 200000.0).Floor + 150000
  }

  /** Buying a used car: a player who cannot pay the price loses 80% of the money. */
  function BuyUsedCar(money: real, costDraw: Unit, condition: Unit): (o: Outcome)
    ensures money >= UsedCarCost(costDraw) as real && condition > 0.7 ==>
              o.moneyChange == -UsedCarCost(costDraw) as real &&
              (o.badgeEarned.Some? <==> UsedCarCost(costDraw) < 200000) &&
              (o.badgeEarned.Some? ==> o.badgeEarned == Some(BargainHunter))
    ensures money >= UsedCarCost(costDraw) as real && condition <= 0.7 ==>
              o.moneyChange == (-UsedCarCost(costDraw) - 40000) as real && o.badgeEarned == None
    ensures money < UsedCarCost(costDraw) as real ==> o.moneyChange == -money * 0.8 && o.badgeEarned == None
    ensures money >= UsedCarCost(costDraw) as real ==> IsInteger(o.moneyChange)
  {
    var cost := UsedCarCost(costDraw);
    if money >= cost as real then
      if condition > 0.7 then
        Outcome("inspected", -cost as real,
                if cost < 200000 then Some(BargainHunter) else None, None,
                "inspection")
      else
        Outcome("broke down", (-cost - 40000) as real, None,
                Some("unreliable"), "uninspected")
    else
      Outcome("cheap car", -money * 0.8, None,
              Some("unreliable"), "no funds")
  }

  /** Organisation skill: premium players draw from [0.5, 0.8), the others from [0.3, 0.7). */
  function OrganizationSkill(premium: bool, u: Unit): (k: real)
    ensures premium ==> 0.5 <= k < 0.8
    ensures !premium ==> 0.3 <= k < 0.7
  {
    if premium then u * 0.3 + 0.5 else u * 0.4 + 0.3
  }

  /** Organising a carpool. */
  function OrganizeCarpool(premium: bool, u: Unit): (o: Outcome)
    ensures o.badgeEarned == Some(CommunityBuilder) <==> OrganizationSkill(premium, u) > 0.7
    ensures o.badgeEarned.Some? ==> o.moneyChange == 12000.0
    ensures o.badgeEarned.None? ==> o.moneyChange == 6000.0
    ensures !premium ==> o.badgeEarned == None
  {
    if OrganizationSkill(premium, u) > 0.7 then
      Outcome("carpool", 12000.0, Some(CommunityBuilder), None,
              "organised")
    else
      Outcome("loose carpool", 6000.0, None, Some("coordination"),
              "commitment")
  }

  // ----------------------------------------------------------- promotion

  /** 40% of the estimated monthly salary, which is 60% of the money (both floored). */
  function SalaryIncrease(money: real): int
  {
    ((money * 0.6).Floor as real * 0.4).Floor
  }

  /** Higher coastal living costs: 15% of the raise, floored. */
  function CoastalCostIncrease(money: real): int
  {
    (SalaryIncrease(money) as real * 0.15).Floor
  }

  /** Accepting the promotion and moving: relocation costs 180000, a poor adaptation 20000 more. */
  function RelocateForPromotion(money: real, adaptation: Unit): (o: Outcome)
    ensures adaptation > 0.6 ==>
              o.moneyChange == (SalaryIncrease(money) - CoastalCostIncrease(money) - RelocationCosts) as real &&
              o.badgeEarned == Some(CareerClimber)
    ensures adaptation <= 0.6 ==>
              o.moneyChange == (SalaryIncrease(money) - CoastalCostIncrease(money) - RelocationCosts - 20000) as real &&
              o.badgeEarned == None
    ensures IsInteger(o.moneyChange)
  {
    var net := SalaryIncrease(money) - CoastalCostIncrease(money) - RelocationCosts;
    if adaptation > 0.6 then
      Outcome("adapted", net as real, Some(CareerClimber), None,
              "adaptation")
    else
      Outcome("struggled", (net - 20000) as real, None,
              Some("relocation"), "offset")
  }

  /** Negotiating remote work: succeeds on a draw above 0.3 (premium) or 0.5 (otherwise). */
  function NegotiateRemote(money: real, premium: bool, u: Unit): (o: Outcome)
    ensures (if premium then u > 0.3 else u > 0.5) ==>
              o.moneyChange == SalaryIncrease(money) as real && o.badgeEarned == Some(MasterNegotiator)
    ensures !(if premium then u > 0.3 else u > 0.5) ==>
              o.moneyChange == (SalaryIncrease(money) as real * 0.25).Floor as real && o.badgeEarned == None
    ensures IsInteger(o.moneyChange)
  {
    var success := if premium then u > 0.3 else u > 0.5;
    var increase := SalaryIncrease(money);
    if success then
      Outcome("remote won", increase as real, Some(MasterNegotiator), None,
              "win-win")
    else
      Outcome("remote lost", (increase as real * 0.25).Floor as real, None,
              Some("missed"), "refused")
  }

  // ------------------------------------------------------------ windfall

  /** Putting the windfall into an emergency fund: the whole windfall is kept either way. */
  function BuildEmergencyFund(premium: bool, u: Unit): (o: Outcome)
    ensures o.moneyChange == WindfallAmount as real
    ensures o.badgeEarned.Some? <==> (if premium then u > 0.3 else u > 0.6)
    ensures o.badgeEarned.Some? ==> o.badgeEarned == Some(EmergencyFundHero)
  {
    if (if premium then u > 0.3 else u > 0.6) then
      Outcome("money market", WindfallAmount as real, Some(EmergencyFundHero), None,
              "growth")
    else
      Outcome("savings", WindfallAmount as real, None, None,
              "safe")
  }

  /** Paying off debt: 80% of the windfall repays debt; a year of 25% interest is saved. */
  function PayOffDebt(): (o: Outcome)
    ensures o.moneyChange == 300000.0 && o.badgeEarned == Some(DebtDestroyer)
  {
    var debtAmount := (WindfallAmount as real * 0.8).Floor;
    var interestSaved := (debtAmount as real * 0.25).Floor;
    Outcome("debt paid", (WindfallAmount + interestSaved) as real,
            Some(DebtDestroyer), None, "guaranteed")
  }

  /** Investing the windfall: a diversified portfolio in a good market returns most. */
  function InvestWindfall(premium: bool, market: Unit, diversificationDraw: Unit): (o: Outcome)
    ensures (if premium then diversificationDraw > 0.3 else diversificationDraw > 0.6) && market > 0.4 ==>
              o.moneyChange == 290000.0 && o.badgeEarned == Some(SmartInvestor)
    ensures !((if premium then diversificationDraw > 0.3 else diversificationDraw > 0.6) && market > 0.4) ==>
              o.badgeEarned == None &&
              o.moneyChange == (if market > 0.3 then 275000.0 else 225000.0)
  {
    var diversified := if premium then diversificationDraw > 0.3 else diversificationDraw > 0.6;
    if diversified && market > 0.4 then
      var saccoReturn := (WindfallAmount as real * 0.12).Floor;
      var stockReturn := (WindfallAmount as real * 0.5 * 0.08).Floor;
      Outcome("diversified", (WindfallAmount + saccoReturn + stockReturn) as real,
              Some(SmartInvestor), None, "spread")
    else if market > 0.3 then
      var returnAmount := (WindfallAmount as real * 0.10).Floor;
      Outcome("sacco", (WindfallAmount + returnAmount) as real, None, None,
              "single")
    else
      Outcome("rough market", (WindfallAmount - 25000) as real, None,
              Some("volatility"), "risk")
  }

  // ------------------------------------------------------------- medical

  /** NHIF coverage: 85% with premium guidance, 75% otherwise. */
  function NhifCoverage(premium: bool): real
  {
    if premium then 0.85 else 0.75
  }

  /** The part of the medical bill paid out of pocket when NHIF is current. */
  function OutOfPocket(premium: bool): (c: int)
    ensures c == (if premium then 22500 else 37500)
  {
    (MedicalCost as real * (1.0 - NhifCoverage(premium))).Floor
  }

  /** Claiming on NHIF: current with a draw above 0.2, otherwise the full bill is paid. */
  function ClaimInsurance(premium: bool, u: Unit): (o: Outcome)
    ensures u > 0.2 ==> o.moneyChange == -OutOfPocket(premium) as real && o.badgeEarned == Some(InsuranceWise)
    ensures u <= 0.2 ==> o.moneyChange == -MedicalCost as real && o.badgeEarned == None
  {
    if u > 0.2 then
      Outcome("covered", -OutOfPocket(premium) as real, Some(InsuranceWise), None,
              "current")
    else
      Outcome("lapsed", -MedicalCost as real, None,
              Some("lapsed"), "contribute")
  }

  /** A hospital payment plan: interest-free with a draw above 0.6. */
  function HospitalPaymentPlan(u: Unit): (o: Outcome)
    ensures u > 0.6 ==> o.moneyChange == -15000.0
    ensures u <= 0.6 ==> o.moneyChange == -20000.0
    ensures o.badgeEarned == None
  {
    if u > 0.6 then
      Outcome("free plan", -15000.0, None, None,
              "free")
    else
      Outcome("paid plan", -20000.0, None, Some("interest"),
              "not free")
  }

  /** Community strength lowers the harambee threshold by 0.3 for premium players, by 0.2 otherwise. */
  function CommunityStrength(premium: bool): real
  {
    if premium then 0.3 else 0.2
  }

  /** A family harambee; the second draw is only taken when the family can help. */
  function FamilyHarambee(premium: bool, supportDraw: Unit, harambeeDraw: Unit): (o: Outcome)
    ensures supportDraw > 0.15 && harambeeDraw > 0.5 - CommunityStrength(premium) ==>
              o.moneyChange == -25000.0 && o.badgeEarned == Some(CommunityChampion)
    ensures supportDraw > 0.15 && harambeeDraw <= 0.5 - CommunityStrength(premium) ==>
              o.moneyChange == -100000.0 && o.badgeEarned == None
    ensures supportDraw <= 0.15 ==> o.moneyChange == -15000.0 && o.badgeEarned == None
  {
    var familySupport := supportDraw > 0.15;
    if familySupport && harambeeDraw > 0.5 - CommunityStrength(premium) then
      Outcome("harambee", -25000.0, Some(CommunityChampion), None,
              "community")
    else if familySupport then
      Outcome("small harambee", -100000.0, None, None,
              "limited")
    else
      Outcome("no support", -15000.0, None, Some("no support"),
              "unavailable")
  }

  // ------------------------------------------------------------- default

  /** The default pool: three generic outcomes; their amounts are drawn before the pick. */
  function DefaultPool(first: Unit, second: Unit, third: Unit, pick: Unit): (o: Outcome)
    ensures -500.0 <= o.moneyChange <= 3999.0
    ensures IsInteger(o.moneyChange)
    ensures o.badgeEarned == None && o.consequence == None
  {
    var pool := [
      Outcome("thoughtful", ((first * 3000.0).Floor + 1000) as real, None, None,
              "learning"),
      Outcome("instincts", (second * 2000.0).Floor as real, None, None,
              "instinct"),
      Outcome("lesson", ((third * 1000.0).Floor - 500) as real, None, None,
              "varying")
    ];
    ScaledDrawInRange(pick, 3);
    pool[(pick * 3.0).Floor]
  }

  // ----------------------------------------------------------- the chain

  /** What a family block does: return an outcome, or fall through with the index of the next draw. */
  datatype Step = Done(outcome: Outcome) | Next(draw: nat)

  function RentBlock(c: string, s: string, money: real, premium: bool, d: Stream): Step
  {
    if !(Contains(s, "rent") || Contains(c, "rent")) then Next(1)
    else if Contains(c, "negotiate") then Done(NegotiateRent(premium, d(0), d(1), d(2)))
    else if Contains(c, "move") || Contains(c, "apartment") then Done(MoveOut(money, premium, d(0), d(1), d(2)))
    else if Contains(c, "accept") || Contains(c, "tighten") then Done(AcceptIncrease(premium, d(1)))
    else if Contains(c, "roommate") || Contains(c, "share") then Done(FindRoommate(premium, d(1)))
    else Next(1)
  }

  /** The car's age is drawn on entry, before any intent is tested. */
  function TransportBlock(c: string, s: string, money: real, premium: bool, d: Stream, n: nat): Step
  {
    if !(Contains(s, "transport") || Contains(s, "car") || Contains(c, "car")) then Next(n)
    else
      var m := n + 1;
      if Contains(c, "repair") || Contains(c, "fix") then Done(RepairCar(money, premium, d(m)))
      else if Contains(c, "matatu") || Contains(c, "public") then Done(TakePublicTransport(d(m)))
      else if Contains(c, "used") || Contains(c, "buy") then Done(BuyUsedCar(money, d(m), d(m + 1)))
      else if Contains(c, "carpool") || Contains(c, "colleagues") then Done(OrganizeCarpool(premium, d(m)))
      else Next(m)
  }

  function PromotionBlock(c: string, s: string, money: real, premium: bool, d: Stream, n: nat): Step
  {
    if !(Contains(s, "promotion") || Contains(s, "job")) then Next(n)
    else if Contains(c, "accept") && Contains(c, "move") then Done(RelocateForPromotion(money, d(n)))
    else if Contains(c, "negotiate") || Contains(c, "remote") then Done(NegotiateRemote(money, premium, d(n)))
    else Next(n)
  }

  function WindfallBlock(c: string, s: string, premium: bool, d: Stream, n: nat): Step
  {
    if !(Contains(s, "windfall") || Contains(s, "bonus") || Contains(c, "250000")) then Next(n)
    else if Contains(c, "emergency") || Contains(c, "fund") then Done(BuildEmergencyFund(premium, d(n)))
    else if Contains(c, "debt") || Contains(c, "pay off") then Done(PayOffDebt())
    else if Contains(c, "invest") || Contains(c, "sacco") then Done(InvestWindfall(premium, d(n), d(n + 1)))
    else Next(n)
  }

  function MedicalBlock(c: string, s: string, premium: bool, d: Stream, n: nat): Step
  {
    if !(Contains(s, "medical") || Contains(c, "hospital")) then Next(n)
    else if Contains(c, "nhif") || Contains(c, "insurance") then Done(ClaimInsurance(premium, d(n)))
    else if Contains(c, "payment plan") || Contains(c, "hospital") then Done(HospitalPaymentPlan(d(n)))
    else if Contains(c, "family") || Contains(c, "harambee") then Done(FamilyHarambee(premium, d(n), d(n + 1)))
    else Next(n)
  }

  /** `generateKenyanFinancialOutcome`. */
  function Evaluate(choice: string, ctx: Context, d: Stream): Outcome
  {
    var c := Lower(choice);
    var s := ScenarioText(ctx.scenario);
    var money := EffectiveMoney(ctx.currentMoney);
    var premium := ctx.isPremium;
    match RentBlock(c, s, money, premium, d)
    case Done(o) => o
    case Next(n1) =>
      match TransportBlock(c, s, money, premium, d, n1)
      case Done(o) => o
      case Next(n2) =>
        match PromotionBlock(c, s, money, premium, d, n2)
        case Done(o) => o
        case Next(n3) =>
          match WindfallBlock(c, s, premium, d, n3)
          case Done(o) => o
          case Next(n4) =>
            match MedicalBlock(c, s, premium, d, n4)
            case Done(o) => o
            case Next(n5) => DefaultPool(d(n5), d(n5 + 1), d(n5 + 2), d(n5 + 3))
  }

  /** The neutral outcome `generateOutcome` returns when the engine throws. */
  const GenerationError := Outcome("unexpected", 0.0, None, None, "Error in outcome generation")

  /** How a call of the engine ended. */
  datatype Attempt = Finished(outcome: Outcome) | Threw

  /** The `try`/`catch` of `generateOutcome`: an exception becomes the neutral outcome. */
  function Settle(a: Attempt): (o: Outcome)
    ensures a.Threw? ==> o.moneyChange == 0.0 && o.badgeEarned == None && o.consequence == None
    ensures a.Threw? ==> o.reasoning == "Error in outcome generation"
    ensures a.Finished? ==> o == a.outcome
  {
    match a
    case Finished(o) => o
    case Threw => GenerationError
  }

  /** `generateOutcome`. Over well-typed inputs the engine is total, so the call always finishes. */
  function GenerateOutcome(choice: string, ctx: Context, d: Stream): (o: Outcome)
    ensures o == Evaluate(choice, ctx, d)
  {
    Settle(Finished(Evaluate(choice, ctx, d)))
  }
}
