/**
 * The kanban deal card: its overdue rule, the width of its activity
 * progress bar, the per-priority badge styling and the activity icons.
 */
module DealCard {
  import opened Seqs

  datatype Priority = Critical | High | Medium | Low

  /** One activity tally on a card; `kind` is the activity type name. */
  datatype Activity = Activity(kind: string, count: int)

  /** The card's `deal` prop; the optional `isOverdue` field is never read. */
  datatype CardDeal = CardDeal(
    id: string,
    name: string,
    company: string,
    value: int,
    priority: Priority,
    daysInStage: int,
    lastActivity: string,
    activities: seq<Activity>,
    isOverdue: bool)

  predicate IsOverdueActivity(a: Activity) {
    a.kind == "overdue"
  }

  /** More than ten days in the stage, or some activity of type `overdue`. */
  predicate IsOverdue(deal: CardDeal) {
    deal.daysInStage > 10 || Count(deal.activities, IsOverdueActivity) > 0
  }

  /** The rule in terms of the activities themselves. */
  lemma IsOverdueIff(deal: CardDeal)
    ensures IsOverdue(deal) <==>
            deal.daysInStage > 10 || exists i :: 0 <= i < |deal.activities| && deal.activities[i].kind == "overdue"
  {
    if Count(deal.activities, IsOverdueActivity) > 0 {
      var r := Filter(deal.activities, IsOverdueActivity);
      assert r[0] in deal.activities;
    }
  }

  /** Exactly ten days, with no overdue activity, is not yet overdue. */
  lemma TenDaysNotOverdue(deal: CardDeal)
    requires deal.daysInStage == 10
    requires forall i :: 0 <= i < |deal.activities| ==> deal.activities[i].kind != "overdue"
    ensures !IsOverdue(deal)
  {
    IsOverdueIff(deal);
  }

  /** The optional `isOverdue` field of the prop plays no part. */
  lemma OverdueIgnoresFlag(deal: CardDeal, flag: bool)
    ensures IsOverdue(deal.(isOverdue := flag)) == IsOverdue(deal)
  {
  }

  /** The "Overdue" badge is rendered exactly for overdue cards. */
  function OverdueBadge(deal: CardDeal): (badge: bool)
    ensures badge <==>
            deal.daysInStage > 10 || exists i :: 0 <= i < |deal.activities| && deal.activities[i].kind == "overdue"
  {
    IsOverdueIff(deal);
    IsOverdue(deal)
  }

  /** `Math.min(100, activities.length * 20)`, a percentage. */
  function ProgressWidth(activityCount: nat): (w: nat)
    ensures w <= 100
    ensures activityCount >= 5 <==> w == 100
    ensures activityCount < 5 ==> w == 20 * activityCount
  {
    if activityCount * 20 < 100 then activityCount * 20 else 100
  }

  /** More activities never make the bar shorter. */
  lemma ProgressWidthMonotone(m: nat, n: nat)
    requires m <= n
    ensures ProgressWidth(m) <= ProgressWidth(n)
  {
  }

  /** One entry of `getPriorityConfig`'s table. */
  datatype PriorityConfig = PriorityConfig(
    color: string,
    bgColor: string,
    textColor: string,
    glowClass: string,
    badgeLabel: string)

  function PriorityConfigOf(p: Priority): (c: PriorityConfig)
    ensures c.badgeLabel != "" && c.color != ""
  {
    match p
    case Critical => PriorityConfig("#f87171", "bg-red-500/20", "text-red-400", "animate-pulse shadow-red-500/30", "Critical")
    case High => PriorityConfig("#fb923c", "bg-orange-500/20", "text-orange-400", "", "High")
    case Medium => PriorityConfig("#fbbf24", "bg-amber-500/20", "text-amber-400", "", "Medium")
    case Low => PriorityConfig("#34d399", "bg-emerald-500/20", "text-emerald-400", "", "Low")
  }

  /** Only a critical deal glows, and the four priorities have four different labels. */
  lemma GlowOnlyCritical(p: Priority, q: Priority)
    ensures PriorityConfigOf(p).glowClass != "" <==> p == Critical
    ensures p != q ==> PriorityConfigOf(p).badgeLabel != PriorityConfigOf(q).badgeLabel
  {
  }

  /** The icons `getActivityIcon` chooses from. */
  datatype ActivityIcon = MailIcon | PhoneIcon | CalendarIcon | FollowupIcon | OverdueIcon | UserIcon

  function ActivityIconOf(kind: string): ActivityIcon {
    match kind
    case "email" => MailIcon
    case "call" => PhoneIcon
    case "meeting" => CalendarIcon
    case "followup" => FollowupIcon
    case "overdue" => OverdueIcon
    case _ => UserIcon
  }

  /** The five known types get their own icon; every other type gets the plain user icon. */
  lemma ActivityIconFallback(kind: string)
    ensures ActivityIconOf(kind) == UserIcon <==>
            kind !in ["email", "call", "meeting", "followup", "overdue"]
    ensures ActivityIconOf(kind) == OverdueIcon <==> kind == "overdue"
  {
  }
}
