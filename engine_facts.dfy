/**
 * Properties of the outcome engine over all inputs, lifted through
 * `Dispatch.EvaluateIsResolve`, and what the engine does with the
 * catalog's own scenarios.
 */
module EngineFacts {
  import opened Wrappers
  import opened Draws
  import opened Text
  import opened OutcomeEngine
  import opened Dispatch
  import opened CatalogRouting
  import Scenarios

  /** The intent the engine reads in a choice under a context. */
  function IntentOf(choice: string, ctx: Context): Intent
  {
    Classify(Lower(choice), ScenarioText(ctx.scenario))
  }

  /** Every badge the engine can award. */
  const AllBadges: set<string> := {
    MasterNegotiator, SilverTongue, SmartMover, BudgetMaster, SocialButterfly,
    MaintenanceMaster, PublicTransportPro, BargainHunter, CommunityBuilder, CareerClimber,
    EmergencyFundHero, DebtDestroyer, SmartInvestor, InsuranceWise, CommunityChampion }

  /** Contexts that differ only in the premium flag. */
  function AsPremium(ctx: Context, premium: bool): Context
  {
    ctx.(isPremium := premium)
  }

  // ------------------------------------------------------------ totality

  /** Whatever intent a choice expresses, the badge awarded is one of the fifteen. */
  lemma ResolveBadgeKnown(i: Intent, money: real, premium: bool, d: Stream, n: nat)
    ensures Resolve(i, money, premium, d, n).badgeEarned.Some? ==>
            Resolve(i, money, premium, d, n).badgeEarned.value in AllBadges
  {
  }

  lemma BadgeKnown(choice: string, ctx: Context, d: Stream)
    ensures Evaluate(choice, ctx, d).badgeEarned.Some? ==> Evaluate(choice, ctx, d).badgeEarned.value in AllBadges
  {
    EvaluateIsResolve(choice, ctx, d);
    ResolveBadgeKnown(IntentOf(choice, ctx), EffectiveMoney(ctx.currentMoney), ctx.isPremium, d,
                      FirstDraw(IntentOf(choice, ctx), Lower(choice), ScenarioText(ctx.scenario)));
  }

  /** A choice no family recognises ends in the default pool: a small change, no badge, no consequence. */
  lemma UnmatchedGivesDefault(choice: string, ctx: Context, d: Stream)
    requires IntentOf(choice, ctx) == Unmatched
    ensures -500.0 <= Evaluate(choice, ctx, d).moneyChange <= 3999.0
    ensures Evaluate(choice, ctx, d).badgeEarned == None
    ensures Evaluate(choice, ctx, d).consequence == None
  {
    EvaluateIsResolve(choice, ctx, d);
  }

  /** The amounts are whole numbers except for the used-car shortfall, which is 80% of the money. */
  lemma ResolveIntegral(i: Intent, money: real, premium: bool, d: Stream, n: nat)
    requires i != CarUsed
    ensures IsInteger(Resolve(i, money, premium, d, n).moneyChange)
  {
  }

  lemma IntegralChange(choice: string, ctx: Context, d: Stream)
    requires IntentOf(choice, ctx) != CarUsed
    ensures IsInteger(Evaluate(choice, ctx, d).moneyChange)
  {
    EvaluateIsResolve(choice, ctx, d);
    ResolveIntegral(IntentOf(choice, ctx), EffectiveMoney(ctx.currentMoney), ctx.isPremium, d,
                    FirstDraw(IntentOf(choice, ctx), Lower(choice), ScenarioText(ctx.scenario)));
  }

  /** Money of 0 is treated exactly like absent money, and both like 50000. */
  lemma ZeroMoneyIsAssumedMoney(choice: string, ctx: Context, d: Stream)
    ensures Evaluate(choice, ctx.(currentMoney := Some(0.0)), d) == Evaluate(choice, ctx.(currentMoney := None), d)
    ensures Evaluate(choice, ctx.(currentMoney := None), d) == Evaluate(choice, ctx.(currentMoney := Some(AssumedMoney)), d)
  {
    EvaluateIsResolve(choice, ctx.(currentMoney := Some(0.0)), d);
    EvaluateIsResolve(choice, ctx.(currentMoney := None), d);
    EvaluateIsResolve(choice, ctx.(currentMoney := Some(AssumedMoney)), d);
  }

  // ----------------------------------------------------------- premium

  /** For the same draws, a premium player does no worse, except when moving out or with negative money. */
  lemma ResolvePremiumNoWorse(i: Intent, money: real, d: Stream, n: nat)
    requires i != RentMove
    requires i == JobRemote ==> money >= 0.0
    ensures Resolve(i, money, true, d, n).moneyChange >= Resolve(i, money, false, d, n).moneyChange
  {
    if i == JobRemote {
      var increase := SalaryIncrease(money);
      assert (money * 0.6).Floor >= 0;
      assert increase >= 0;
      assert (increase as real * 0.25).Floor <= increase;
    }
  }

  lemma PremiumNeverWorse(choice: string, ctx: Context, d: Stream)
    requires IntentOf(choice, ctx) != RentMove
    requires IntentOf(choice, ctx) == JobRemote ==> EffectiveMoney(ctx.currentMoney) >= 0.0
    ensures Evaluate(choice, AsPremium(ctx, true), d).moneyChange >= Evaluate(choice, AsPremium(ctx, false), d).moneyChange
  {
    EvaluateIsResolve(choice, AsPremium(ctx, true), d);
    EvaluateIsResolve(choice, AsPremium(ctx, false), d);
    ResolvePremiumNoWorse(IntentOf(choice, ctx), EffectiveMoney(ctx.currentMoney), d,
                          FirstDraw(IntentOf(choice, ctx), Lower(choice), ScenarioText(ctx.scenario)));
  }

  /** A draw stream that always yields one half. */
  function Halves(): Stream
  {
    (k: nat) => 0.5
  }

  /**
   * Moving out is the exception: with 80000 and every draw one half, the
   * cheaper premium estimate (75000) lets the premium player move and lose
   * 57500, while the other player cannot afford the 90000 and loses 15000.
   */
  lemma PremiumCanLoseByMoving()
    ensures var choice, title := Scenarios.RentIncrease.choices[1].text, Scenarios.RentIncrease.title;
            var ctx := Context(Some(title), Some(80000.0), true);
            Evaluate(choice, ctx, Halves()).moneyChange == -57500.0 &&
            Evaluate(choice, AsPremium(ctx, false), Halves()).moneyChange == -RentIncrease
  {
    var choice, title := Scenarios.RentIncrease.choices[1].text, Scenarios.RentIncrease.title;
    var ctx := Context(Some(title), Some(80000.0), true);
    RouteApartment();
    EvaluateIsResolve(choice, ctx, Halves());
    EvaluateIsResolve(choice, AsPremium(ctx, false), Halves());
    assert MovingCosts(true, 0.5) == 75000;
    assert MovingCosts(false, 0.5) == 90000;
    assert MonthlySavings(0.5) == 22500;
  }

  // ------------------------------------------------- the catalog in play

  /**
   * Declining the promotion matches no intent although it enters the rent
   * block: the default pool decides.
   */
  lemma DeclineEndsInDefault(ctx: Context, d: Stream)
    requires ctx.scenario == Some(Scenarios.JobPromotion.title)
    ensures -500.0 <= Evaluate(Scenarios.JobPromotion.choices[2].text, ctx, d).moneyChange <= 3999.0
    ensures Evaluate(Scenarios.JobPromotion.choices[2].text, ctx, d).badgeEarned == None
    ensures Entered(Rent, Lower(Scenarios.JobPromotion.choices[2].text), Lower(Scenarios.JobPromotion.title))
  {
    RouteDecline();
    UnmatchedGivesDefault(Scenarios.JobPromotion.choices[2].text, ctx, d);
  }

  /** The windfall scenario never pays the windfall: every one of its choices ends in the default pool. */
  lemma WindfallScenarioPaysLittle(k: nat, ctx: Context, d: Stream)
    requires k < 4
    requires ctx.scenario == Some(Scenarios.Windfall.title)
    ensures -500.0 <= Evaluate(Scenarios.Windfall.choices[k].text, ctx, d).moneyChange <= 3999.0
    ensures Evaluate(Scenarios.Windfall.choices[k].text, ctx, d).badgeEarned == None
  {
    WindfallRoutes();
    UnmatchedGivesDefault(Scenarios.Windfall.choices[k].text, ctx, d);
  }

  /**
   * Paying off the credit card enters the transport block ("card" contains
   * "car"), which draws the car's age, so its default pool reads draws 2 to 5.
   */
  lemma CreditCardSkipsAgeDraw(ctx: Context, d: Stream)
    requires ctx.scenario == Some(Scenarios.Windfall.title)
    ensures Evaluate(Scenarios.Windfall.choices[1].text, ctx, d) == DefaultPool(d(2), d(3), d(4), d(5))
  {
    var c := Scenarios.Windfall.choices[1].text;
    RouteCreditCard();
    EvaluateIsResolve(c, ctx, d);
  }

  /** Without premium, negotiating the rent gains at most 8000 and never earns "Master Negotiator". */
  lemma NegotiationCappedWithoutPremium(ctx: Context, d: Stream)
    requires ctx.scenario == Some(Scenarios.RentIncrease.title) && !ctx.isPremium
    ensures Evaluate(Scenarios.RentIncrease.choices[0].text, ctx, d).moneyChange <= 8000.0
    ensures Evaluate(Scenarios.RentIncrease.choices[0].text, ctx, d).badgeEarned != Some(MasterNegotiator)
  {
    RouteLandlord();
    EvaluateIsResolve(Scenarios.RentIncrease.choices[0].text, ctx, d);
  }

  /** Buying a used car with 1 unit of money loses 0.8, which is not a whole amount. */
  lemma UsedCarShortfallIsFractional(d: Stream)
    ensures var ctx := Context(Some(Scenarios.CarRepair.title), Some(1.0), false);
            Evaluate(Scenarios.CarRepair.choices[2].text, ctx, d).moneyChange == -0.8 &&
            !IsInteger(Evaluate(Scenarios.CarRepair.choices[2].text, ctx, d).moneyChange)
  {
    var ctx := Context(Some(Scenarios.CarRepair.title), Some(1.0), false);
    RouteUsedCar();
    EvaluateIsResolve(Scenarios.CarRepair.choices[2].text, ctx, d);
  }

  /** In the car scenario the car's age is drawn first, so an intent's own draws start at index 2. */
  lemma CarTroubleSkipsAgeDraw(k: nat)
    requires k < 4
    ensures FirstDraw(Route(Scenarios.CarRepair, k), Lower(Scenarios.CarRepair.choices[k].text),
                      Lower(Scenarios.CarRepair.title)) == 2
  {
    CarTroubleRoutes();
    FoundLower(Scenarios.CarRepair.title, "", "Car", Scenarios.CarRepair.title[3..], "car");
  }
}
