/**
 * The subscription page: the plans and subscribers of the selected club,
 * the monthly revenue those subscribers bring in, the per-plan subscriber
 * counts and the colour cycle of the plan cards.
 */
module SubscriptionPage {
  import opened Wrappers
  import opened Types
  import Seqs
  import opened AppReducer
  import opened AppStore

  function FilteredPlans(plans: seq<SubscriptionPlan>, selected: Option<Club>): seq<SubscriptionPlan>
  {
    Scoped(plans, PlanClub, selected)
  }

  /** Members of the selected club whose plan id is non-empty (a truthy string). */
  function ActiveSubscriptions(members: seq<Member>, selected: Option<Club>): seq<Member>
  {
    Seqs.Filter(Scoped(members, MemberClub, selected), (m: Member) => m.subscriptionPlanId != "")
  }

  /** The price of the first listed plan with that id; nothing when no listed plan has it. */
  function PriceOf(plans: seq<SubscriptionPlan>, planId: string): int
  {
    match Seqs.FindById(plans, planId, PlanKey)
    case Some(p) => p.price
    case None => 0
  }

  /** The sum over subscribers of their plan's price, in subscriber order. */
  function MonthlyRevenue(plans: seq<SubscriptionPlan>, subs: seq<Member>): int
  {
    if subs == [] then 0 else PriceOf(plans, subs[0].subscriptionPlanId) + MonthlyRevenue(plans, subs[1..])
  }

  /** The count shown on a plan card. */
  function SubscriberCount(subs: seq<Member>, planId: string): nat
  {
    |Seqs.Filter(subs, (m: Member) => m.subscriptionPlanId == planId)|
  }

  /** The subscribers whose plan is one of the listed plans. */
  function Matched(plans: seq<SubscriptionPlan>, subs: seq<Member>): (r: nat)
    ensures r <= |subs|
  {
    if subs == [] then 0
    else (if Seqs.FindById(plans, subs[0].subscriptionPlanId, PlanKey).Some? then 1 else 0) + Matched(plans, subs[1..])
  }

  /** Per plan, its price times its subscriber count, summed over the listed plans. */
  function PlanTotals(plans: seq<SubscriptionPlan>, subs: seq<Member>): int
  {
    if plans == [] then 0
    else plans[0].price * SubscriberCount(subs, plans[0].id) + PlanTotals(plans[1..], subs)
  }

  /** The per-plan counts of the listed plans, added up. */
  function CountTotals(plans: seq<SubscriptionPlan>, subs: seq<Member>): int
  {
    if plans == [] then 0 else SubscriberCount(subs, plans[0].id) + CountTotals(plans[1..], subs)
  }

  predicate DistinctIds(plans: seq<SubscriptionPlan>)
  {
    forall i, j :: 0 <= i < j < |plans| ==> plans[i].id != plans[j].id
  }

  const PlanColors: seq<string> := [
    "border-blue-200 bg-blue-50 dark:border-blue-800 dark:bg-blue-900/20",
    "border-purple-200 bg-purple-50 dark:border-purple-800 dark:bg-purple-900/20",
    "border-green-200 bg-green-50 dark:border-green-800 dark:bg-green-900/20",
    "border-orange-200 bg-orange-50 dark:border-orange-800 dark:bg-orange-900/20"
  ]

  function PlanColor(index: nat): string
  {
    PlanColors[index % |PlanColors|]
  }

  /** The card colours cycle through the four entries: cards four apart share a colour, neighbours differ. */
  lemma PlanColorCycles(index: nat)
    ensures PlanColor(index) in PlanColors
    ensures PlanColor(index + 4) == PlanColor(index)
    ensures PlanColor(index + 1) != PlanColor(index)
  {
  }

  /** A subscriber is a member of the selected club with a plan id. */
  lemma ActiveSubscriptionsExact(members: seq<Member>, selected: Option<Club>)
    ensures forall m :: m in ActiveSubscriptions(members, selected) <==>
      m in members && InSelectedClub(selected, m.clubId) && m.subscriptionPlanId != ""
  {
    ScopedIsClubQuery(members, MemberClub, selected);
    Seqs.FilterMembership(Scoped(members, MemberClub, selected), (m: Member) => m.subscriptionPlanId != "");
  }

  /** Looking up a price in a non-empty plan list: the head plan answers for its own id. */
  lemma PriceOfCons(plans: seq<SubscriptionPlan>, planId: string)
    requires plans != []
    ensures PriceOf(plans, planId) == if planId == plans[0].id then plans[0].price else PriceOf(plans[1..], planId)
    ensures Seqs.FindById(plans, planId, PlanKey).Some? <==>
      planId == plans[0].id || Seqs.FindById(plans[1..], planId, PlanKey).Some?
  {
  }

  lemma {:induction false} RevenueWithoutPlans(subs: seq<Member>)
    ensures MonthlyRevenue([], subs) == 0
  {
    if subs != [] {
      RevenueWithoutPlans(subs[1..]);
    }
  }

  /** The count on a plan card, one subscriber at a time. */
  lemma SubscriberCountStep(subs: seq<Member>, planId: string)
    requires subs != []
    ensures SubscriberCount(subs, planId) ==
      (if subs[0].subscriptionPlanId == planId then 1 else 0) + SubscriberCount(subs[1..], planId)
  {
  }

  /**
   * When the head plan's id occurs nowhere else in the list, revenue is the
   * head plan's price once per subscriber of it, plus the revenue of the rest.
   */
  lemma {:induction false} RevenueCons(plans: seq<SubscriptionPlan>, subs: seq<Member>)
    requires plans != []
    requires forall i :: 1 <= i < |plans| ==> plans[i].id != plans[0].id
    ensures MonthlyRevenue(plans, subs) ==
      plans[0].price * SubscriberCount(subs, plans[0].id) + MonthlyRevenue(plans[1..], subs)
  {
    if subs != [] {
      var head := plans[0];
      var id := subs[0].subscriptionPlanId;
      var c := SubscriberCount(subs[1..], head.id);
      RevenueCons(plans, subs[1..]);
      PriceOfCons(plans, id);
      SubscriberCountStep(subs, head.id);
      if id == head.id {
        assert Seqs.FindById(plans[1..], id, PlanKey).None?;
        assert head.price * (c + 1) == head.price * c + head.price;
      } else {
        assert SubscriberCount(subs, head.id) == c;
      }
    }
  }

  /** The same decomposition for the number of matched subscribers. */
  lemma {:induction false} MatchedCons(plans: seq<SubscriptionPlan>, subs: seq<Member>)
    requires plans != []
    requires forall i :: 1 <= i < |plans| ==> plans[i].id != plans[0].id
    ensures Matched(plans, subs) == SubscriberCount(subs, plans[0].id) + Matched(plans[1..], subs)
  {
    if subs != [] {
      MatchedCons(plans, subs[1..]);
      PriceOfCons(plans, subs[0].subscriptionPlanId);
      SubscriberCountStep(subs, plans[0].id);
    }
  }

  lemma {:induction false} MatchedWithoutPlans(subs: seq<Member>)
    ensures Matched([], subs) == 0
  {
    if subs != [] {
      MatchedWithoutPlans(subs[1..]);
    }
  }

  /**
   * With distinct plan ids, the monthly revenue is the sum over the plan
   * cards of price times the card's subscriber count.
   */
  lemma {:induction false} RevenueByPlan(plans: seq<SubscriptionPlan>, subs: seq<Member>)
    requires DistinctIds(plans)
    ensures MonthlyRevenue(plans, subs) == PlanTotals(plans, subs)
  {
    if plans == [] {
      RevenueWithoutPlans(subs);
    } else {
      RevenueByPlan(plans[1..], subs);
      RevenueCons(plans, subs);
    }
  }

  /**
   * With distinct plan ids, the counts on the plan cards add up to the
   * subscribers whose plan is listed, so never to more than the subscriber total.
   */
  lemma {:induction false} CountsByPlan(plans: seq<SubscriptionPlan>, subs: seq<Member>)
    requires DistinctIds(plans)
    ensures CountTotals(plans, subs) == Matched(plans, subs)
    ensures CountTotals(plans, subs) <= |subs|
  {
    if plans == [] {
      MatchedWithoutPlans(subs);
    } else {
      CountsByPlan(plans[1..], subs);
      MatchedCons(plans, subs);
    }
  }

  /** A subscriber on a plan the selected club does not list contributes nothing. */
  lemma UnlistedPlanEarnsNothing(plans: seq<SubscriptionPlan>, m: Member, subs: seq<Member>)
    requires forall i :: 0 <= i < |plans| ==> plans[i].id != m.subscriptionPlanId
    ensures MonthlyRevenue(plans, [m] + subs) == MonthlyRevenue(plans, subs)
  {
    assert ([m] + subs)[1..] == subs;
    assert Seqs.FindById(plans, m.subscriptionPlanId, PlanKey).None?;
    assert PriceOf(plans, m.subscriptionPlanId) == 0;
  }
}
