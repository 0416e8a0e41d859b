/** The pricing page: three plans priced per month or per year, a savings
    line for yearly billing, the billing switch, an accordion of questions
    with at most one answer open, and testimonial initials. */
module Pricing {
  import opened Wrappers
  import opened Text

  /** Dollars per month under each billing period. */
  datatype Price = Price(monthly: nat, yearly: nat)

  datatype Plan = Plan(name: string, price: Price, popular: bool, badge: Option<string>)

  const Plans: seq<Plan> := [
    Plan("Free", Price(0, 0), false, None),
    Plan("Pro", Price(19, 15), true, Some("Most Popular")),
    Plan("Team", Price(49, 39), false, Some("Best Value"))]

  /** The price a card shows for the chosen billing period. */
  function DisplayedPrice(plan: Plan, isYearly: bool): (r: nat)
    ensures isYearly ==> r == plan.price.yearly
    ensures !isYearly ==> r == plan.price.monthly
  {
    if isYearly then plan.price.yearly else plan.price.monthly
  }

  /** The "Save $N/year" line: shown only for yearly billing of a plan that
      costs something, and worth twelve months of the monthly discount. */
  function Savings(plan: Plan, isYearly: bool): (r: Option<int>)
    ensures r.Some? <==> isYearly && plan.price.yearly > 0
    ensures r.Some? ==> r.value + 12 * plan.price.yearly == 12 * plan.price.monthly
  {
    var price := DisplayedPrice(plan, isYearly);
    if isYearly && price > 0 then Some((plan.price.monthly - plan.price.yearly) * 12) else None
  }

  /** Yearly billing never costs more, so savings are never negative; the
      paid plans save 48 and 120 dollars a year and the free plan shows no
      savings line; exactly one plan is marked popular. */
  lemma PlanCatalogue()
    ensures forall i :: 0 <= i < |Plans| ==> Plans[i].price.yearly <= Plans[i].price.monthly
    ensures forall i :: 0 <= i < |Plans| && Savings(Plans[i], true).Some? ==> Savings(Plans[i], true).value >= 0
    ensures Savings(Plans[0], true) == None && Savings(Plans[0], false) == None
    ensures Savings(Plans[1], true) == Some(48)
    ensures Savings(Plans[2], true) == Some(120)
    ensures forall i, j :: 0 <= i < |Plans| && 0 <= j < |Plans| && Plans[i].popular && Plans[j].popular ==> i == j
    ensures Plans[1].popular
  {
  }

  /** The billing switch starts on yearly. */
  const InitiallyYearly := true

  /** Billing after `clicks` clicks on the switch, each of which sets
      `isYearly` to its negation. */
  function BillingAfter(clicks: nat): bool {
    if clicks == 0 then InitiallyYearly else !BillingAfter(clicks - 1)
  }

  /** The switch shows yearly billing exactly after an even number of
      clicks. */
  lemma {:induction false} BillingParity(clicks: nat)
    ensures BillingAfter(clicks) <==> clicks % 2 == 0
  {
    if clicks > 0 {
      BillingParity(clicks - 1);
    }
  }

  /** The open question of the accordion, if any; initially the first. */
  const InitiallyOpen: Option<nat> := Some(0)

  /** Clicking question `i` closes it when it is open and otherwise opens it
      alone. */
  function ClickFaq(open: Option<nat>, i: nat): (r: Option<nat>)
    ensures open == Some(i) ==> r == None
    ensures open != Some(i) ==> r == Some(i)
  {
    if open == Some(i) then None else Some(i)
  }

  /** The accordion after clicking the questions `clicks` in order. */
  function FaqAfter(clicks: seq<nat>): Option<nat>
    decreases |clicks|
  {
    if |clicks| == 0 then InitiallyOpen
    else ClickFaq(FaqAfter(clicks[..|clicks| - 1]), clicks[|clicks| - 1])
  }

  /** Whatever was clicked, the open answer is the first one untouched or
      the last one clicked; clicking the same question twice in a row always
      leaves every answer closed or that one open. */
  lemma FaqOpenIsLastClicked(clicks: seq<nat>)
    ensures |clicks| == 0 ==> FaqAfter(clicks) == Some(0)
    ensures |clicks| > 0 && FaqAfter(clicks).Some? ==> FaqAfter(clicks) == Some(clicks[|clicks| - 1])
    ensures |clicks| > 0 ==>
      FaqAfter(clicks + [clicks[|clicks| - 1]]) ==
        (if FaqAfter(clicks).Some? then None else Some(clicks[|clicks| - 1]))
  {
    if |clicks| > 0 {
      assert (clicks + [clicks[|clicks| - 1]])[..|clicks|] == clicks;
    }
  }

  /** `s[0]` of one word, where an empty word contributes nothing. */
  function FirstChar(w: string): string {
    if |w| == 0 then "" else [w[0]]
  }

  function FirstChars(words: seq<string>): (r: string)
    ensures |r| <= |words|
  {
    if |words| == 0 then "" else FirstChar(words[0]) + FirstChars(words[1..])
  }

  /** The testimonial avatar: the first character of each space-separated
      word of the author's name. */
  function Initials(author: string): string {
    FirstChars(Split(author, ' '))
  }

  lemma {:induction false} FirstCharsOfWords(words: seq<string>)
    requires forall i :: 0 <= i < |words| ==> |words[i]| > 0
    ensures FirstChars(words) == seq(|words|, i requires 0 <= i < |words| => words[i][0])
    decreases |words|
  {
    if |words| > 0 {
      FirstCharsOfWords(words[1..]);
    }
  }

  /** A name of non-empty words separated by single spaces yields the first
      letter of each word, so "David Park" shows "DP". */
  lemma InitialsOfWords(words: seq<string>)
    requires |words| >= 1
    requires forall i :: 0 <= i < |words| ==> |words[i]| > 0 && ' ' !in words[i]
    ensures Initials(Join(words, " ")) == seq(|words|, i requires 0 <= i < |words| => words[i][0])
  {
    SplitJoin(words, ' ');
    FirstCharsOfWords(words);
  }
}
