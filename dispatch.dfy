/**
 * An independent reading of the engine's dispatch: first decide which
 * intent a choice expresses (the first family, in the engine's order, that
 * is entered and recognises one of its intents in the choice), then
 * resolve that intent with the draws that are left. The lemma
 * `EvaluateIsResolve` shows that the engine's nested blocks are exactly
 * this two-level table.
 */
module Dispatch {
  import opened Wrappers
  import opened Draws
  import opened Text
  import opened OutcomeEngine

  datatype Family = Rent | Transport | Promotion | Windfall | Medical

  datatype Intent =
    | RentNegotiate | RentMove | RentAccept | RentRoommate
    | CarRepair | CarPublic | CarUsed | CarCarpool
    | JobRelocate | JobRemote
    | FundEmergency | FundDebt | FundInvest
    | MedInsurance | MedPaymentPlan | MedFamily
    | Unmatched

  /** The family an intent belongs to; `Unmatched` belongs to none. */
  function FamilyOf(i: Intent): Option<Family>
  {
    match i
    case RentNegotiate | RentMove | RentAccept | RentRoommate => Some(Rent)
    case CarRepair | CarPublic | CarUsed | CarCarpool => Some(Transport)
    case JobRelocate | JobRemote => Some(Promotion)
    case FundEmergency | FundDebt | FundInvest => Some(Windfall)
    case MedInsurance | MedPaymentPlan | MedFamily => Some(Medical)
    case Unmatched => None
  }

  /** The position of a family in the engine's order of blocks. */
  function Rank(f: Family): nat
  {
    match f
    case Rent => 0
    case Transport => 1
    case Promotion => 2
    case Windfall => 3
    case Medical => 4
  }

  /** Whether a family's block is entered, given the lower-cased choice `c` and scenario `s`. */
  predicate Entered(f: Family, c: string, s: string)
  {
    match f
    case Rent => Contains(s, "rent") || Contains(c, "rent")
    case Transport => Contains(s, "transport") || Contains(s, "car") || Contains(c, "car")
    case Promotion => Contains(s, "promotion") || Contains(s, "job")
    case Windfall => Contains(s, "windfall") || Contains(s, "bonus") || Contains(c, "250000")
    case Medical => Contains(s, "medical") || Contains(c, "hospital")
  }

  /** The first intent of family `f` that the lower-cased choice `c` expresses. */
  function IntentIn(f: Family, c: string): (r: Option<Intent>)
    ensures r.Some? ==> FamilyOf(r.value) == Some(f)
  {
    match f
    case Rent =>
      if Contains(c, "negotiate") then Some(RentNegotiate)
      else if Contains(c, "move") || Contains(c, "apartment") then Some(RentMove)
      else if Contains(c, "accept") || Contains(c, "tighten") then Some(RentAccept)
      else if Contains(c, "roommate") || Contains(c, "share") then Some(RentRoommate)
      else None
    case Transport =>
      if Contains(c, "repair") || Contains(c, "fix") then Some(CarRepair)
      else if Contains(c, "matatu") || Contains(c, "public") then Some(CarPublic)
      else if Contains(c, "used") || Contains(c, "buy") then Some(CarUsed)
      else if Contains(c, "carpool") || Contains(c, "colleagues") then Some(CarCarpool)
      else None
    case Promotion =>
      if Contains(c, "accept") && Contains(c, "move") then Some(JobRelocate)
      else if Contains(c, "negotiate") || Contains(c, "remote") then Some(JobRemote)
      else None
    case Windfall =>
      if Contains(c, "emergency") || Contains(c, "fund") then Some(FundEmergency)
      else if Contains(c, "debt") || Contains(c, "pay off") then Some(FundDebt)
      else if Contains(c, "invest") || Contains(c, "sacco") then Some(FundInvest)
      else None
    case Medical =>
      if Contains(c, "nhif") || Contains(c, "insurance") then Some(MedInsurance)
      else if Contains(c, "payment plan") || Contains(c, "hospital") then Some(MedPaymentPlan)
      else if Contains(c, "family") || Contains(c, "harambee") then Some(MedFamily)
      else None
  }

  /** Whether family `f` decides the outcome: it is entered and recognises an intent. */
  predicate Decides(f: Family, c: string, s: string)
  {
    Entered(f, c, s) && IntentIn(f, c).Some?
  }

  /** The intent of the first deciding family, in the engine's order; `Unmatched` when none decides. */
  function Classify(c: string, s: string): (i: Intent)
    ensures i == Unmatched <==>
              !Decides(Rent, c, s) && !Decides(Transport, c, s) && !Decides(Promotion, c, s) &&
              !Decides(Windfall, c, s) && !Decides(Medical, c, s)
    ensures i != Unmatched ==> Decides(FamilyOf(i).value, c, s) && IntentIn(FamilyOf(i).value, c) == Some(i)
    ensures i != Unmatched ==> forall f :: Rank(f) < Rank(FamilyOf(i).value) ==> !Decides(f, c, s)
  {
    if Decides(Rent, c, s) then IntentIn(Rent, c).value
    else if Decides(Transport, c, s) then IntentIn(Transport, c).value
    else if Decides(Promotion, c, s) then IntentIn(Promotion, c).value
    else if Decides(Windfall, c, s) then IntentIn(Windfall, c).value
    else if Decides(Medical, c, s) then IntentIn(Medical, c).value
    else Unmatched
  }

  /**
   * The index of the first draw the intent uses: `randomFactor` is always
   * drawn, and the car's age is drawn as well whenever the transport block
   * was entered before the intent was reached.
   */
  function FirstDraw(i: Intent, c: string, s: string): (n: nat)
    ensures n == 1 || n == 2
    ensures n == 2 <==> FamilyOf(i) != Some(Rent) && Entered(Transport, c, s)
  {
    if FamilyOf(i) != Some(Rent) && Entered(Transport, c, s) then 2 else 1
  }

  /** The outcome of intent `i`, whose own draws start at index `n`. */
  function Resolve(i: Intent, money: real, premium: bool, d: Stream, n: nat): Outcome
  {
    match i
    case RentNegotiate => NegotiateRent(premium, d(0), d(n), d(n + 1))
    case RentMove => MoveOut(money, premium, d(0), d(n), d(n + 1))
    case RentAccept => AcceptIncrease(premium, d(n))
    case RentRoommate => FindRoommate(premium, d(n))
    case CarRepair => RepairCar(money, premium, d(n))
    case CarPublic => TakePublicTransport(d(n))
    case CarUsed => BuyUsedCar(money, d(n), d(n + 1))
    case CarCarpool => OrganizeCarpool(premium, d(n))
    case JobRelocate => RelocateForPromotion(money, d(n))
    case JobRemote => NegotiateRemote(money, premium, d(n))
    case FundEmergency => BuildEmergencyFund(premium, d(n))
    case FundDebt => PayOffDebt()
    case FundInvest => InvestWindfall(premium, d(n), d(n + 1))
    case MedInsurance => ClaimInsurance(premium, d(n))
    case MedPaymentPlan => HospitalPaymentPlan(d(n))
    case MedFamily => FamilyHarambee(premium, d(n), d(n + 1))
    case Unmatched => DefaultPool(d(n), d(n + 1), d(n + 2), d(n + 3))
  }

  lemma RentBlockAgrees(c: string, s: string, money: real, premium: bool, d: Stream)
    ensures RentBlock(c, s, money, premium, d) ==
            if Decides(Rent, c, s) then Done(Resolve(IntentIn(Rent, c).value, money, premium, d, 1)) else Next(1)
  {
  }

  lemma TransportBlockAgrees(c: string, s: string, money: real, premium: bool, d: Stream, n: nat)
    ensures TransportBlock(c, s, money, premium, d, n) ==
            if Decides(Transport, c, s) then Done(Resolve(IntentIn(Transport, c).value, money, premium, d, n + 1))
            else Next(if Entered(Transport, c, s) then n + 1 else n)
  {
  }

  lemma PromotionBlockAgrees(c: string, s: string, money: real, premium: bool, d: Stream, n: nat)
    ensures PromotionBlock(c, s, money, premium, d, n) ==
            if Decides(Promotion, c, s) then Done(Resolve(IntentIn(Promotion, c).value, money, premium, d, n)) else Next(n)
  {
  }

  lemma WindfallBlockAgrees(c: string, s: string, money: real, premium: bool, d: Stream, n: nat)
    ensures WindfallBlock(c, s, premium, d, n) ==
            if Decides(Windfall, c, s) then Done(Resolve(IntentIn(Windfall, c).value, money, premium, d, n)) else Next(n)
  {
  }

  lemma MedicalBlockAgrees(c: string, s: string, money: real, premium: bool, d: Stream, n: nat)
    ensures MedicalBlock(c, s, premium, d, n) ==
            if Decides(Medical, c, s) then Done(Resolve(IntentIn(Medical, c).value, money, premium, d, n)) else Next(n)
  {
  }

  /** The engine equals classification followed by resolution, for every input. */
  lemma EvaluateIsResolve(choice: string, ctx: Context, d: Stream)
    ensures Evaluate(choice, ctx, d) ==
            Resolve(Classify(Lower(choice), ScenarioText(ctx.scenario)),
                    EffectiveMoney(ctx.currentMoney), ctx.isPremium, d,
                    FirstDraw(Classify(Lower(choice), ScenarioText(ctx.scenario)), Lower(choice), ScenarioText(ctx.scenario)))
  {
    var c, s, money, premium := Lower(choice), ScenarioText(ctx.scenario), EffectiveMoney(ctx.currentMoney), ctx.isPremium;
    var i := Classify(c, s);
    RentBlockAgrees(c, s, money, premium, d);
    if Decides(Rent, c, s) {
      assert i == IntentIn(Rent, c).value && FirstDraw(i, c, s) == 1;
    } else {
      TransportBlockAgrees(c, s, money, premium, d, 1);
      if Decides(Transport, c, s) {
        assert i == IntentIn(Transport, c).value && FirstDraw(i, c, s) == 2;
      } else {
        var n := if Entered(Transport, c, s) then 2 else 1;
        assert FirstDraw(i, c, s) == n;
        PromotionBlockAgrees(c, s, money, premium, d, n);
        if Decides(Promotion, c, s) {
          assert i == IntentIn(Promotion, c).value;
        } else {
          WindfallBlockAgrees(c, s, money, premium, d, n);
          if Decides(Windfall, c, s) {
            assert i == IntentIn(Windfall, c).value;
          } else {
            MedicalBlockAgrees(c, s, money, premium, d, n);
          }
        }
      }
    }
  }
}
