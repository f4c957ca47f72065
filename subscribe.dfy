/** The subscription page: two groups of plans (individual and venue), a
    monthly/yearly billing switch, prices and yearly savings, and the subscribe
    button, which asks a visitor without an account to sign up first. Prices are
    whole cents. */
module Subscribe {
  import opened Wrappers
  import opened Strings

  /** A plan; `price` is `{ monthly, yearly }` in cents. */
  datatype Plan = Plan(id: string, name: string, monthlyCents: nat, yearlyCents: nat, popular: bool)

  datatype PlanGroup = Individual | Venue

  datatype BillingCycle = Monthly | Yearly

  /** `individualPlans`. */
  const IndividualPlans: seq<Plan> := [
    Plan("music-only", "Music Only", 999, 9999, false),
    Plan("music-karaoke", "Music + Karaoke", 1999, 19999, true)
  ]

  /** `venuePlans`. */
  const VenuePlans: seq<Plan> := [
    Plan("venue-music", "Venue Music", 4999, 49999, false),
    Plan("venue-full", "Venue Full Package", 9999, 99999, true)
  ]

  /** `currentPlans`. */
  function CurrentPlans(group: PlanGroup): (plans: seq<Plan>)
    ensures plans == IndividualPlans <==> group == Individual
    ensures plans == VenuePlans <==> group == Venue
  {
    assert VenuePlans != IndividualPlans by {
      assert VenuePlans[0].monthlyCents != IndividualPlans[0].monthlyCents;
    }
    match group
    case Individual => IndividualPlans
    case Venue => VenuePlans
  }

  /** `plan.price[billingCycle]`. */
  function PriceCents(plan: Plan, cycle: BillingCycle): nat
  {
    match cycle
    case Monthly => plan.monthlyCents
    case Yearly => plan.yearlyCents
  }

  /** `/{billingCycle === 'monthly' ? 'month' : 'year'}`. */
  function PeriodLabel(cycle: BillingCycle): string
  {
    if cycle == Monthly then "month" else "year"
  }

  /** `plan.price.monthly * 12 - plan.price.yearly`. */
  function SavingsCents(plan: Plan): int
  {
    plan.monthlyCents * 12 - plan.yearlyCents
  }

  /** `x.toFixed(2)` for an unsigned amount of whole cents: the dollars, a
      point and two digits of cents. */
  function UnsignedDollars(n: nat): (s: string)
    ensures |s| >= 4 && s[|s| - 3] == '.'
  {
    NatToString(n / 100) + "." + PadStart(NatToString(n % 100), 2, '0')
  }

  /** `x.toFixed(2)` for an amount of whole cents; a negative amount gets a
      minus sign in front. */
  function DollarsLabel(cents: int): (s: string)
    ensures |s| >= 4 && s[|s| - 3] == '.'
    ensures s[0] == '-' <==> cents < 0
  {
    if cents < 0 then "-" + UnsignedDollars(-cents) else UnsignedDollars(cents)
  }

  /** The unsigned label is all digits but the point, the digits before it read
      as the whole dollars (with no leading zero) and the two after it as the
      cents. */
  lemma UnsignedDollarsValue(n: nat)
    ensures var s := UnsignedDollars(n);
      (forall i :: 0 <= i < |s| && i != |s| - 3 ==> IsDigit(s[i]))
      && DigitsToNat(s[..|s| - 3]) == n / 100 && DigitsToNat(s[|s| - 2..]) == n % 100
      && (n >= 1000 ==> s[0] != '0')
  {
    var dollars, cents := NatToString(n / 100), PadStart(NatToString(n % 100), 2, '0');
    TwoDigits(n % 100);
    DigitsOfNatToString(n / 100);
    var s := dollars + "." + cents;
    assert s[..|s| - 3] == dollars;
    assert s[|s| - 2..] == cents;
  }

  /** A label read back: a minus sign exactly for a negative amount, then the
      whole dollars and two digits of cents of its magnitude. */
  lemma DollarsLabelValue(cents: int)
    ensures var s := DollarsLabel(cents);
      var body := if cents < 0 then s[1..] else s;
      var m := if cents < 0 then -cents else cents;
      |body| >= 4 && body[|body| - 3] == '.'
      && (forall i :: 0 <= i < |body| && i != |body| - 3 ==> IsDigit(body[i]))
      && DigitsToNat(body[..|body| - 3]) == m / 100 && DigitsToNat(body[|body| - 2..]) == m % 100
  {
    var m := if cents < 0 then -cents else cents;
    var u := UnsignedDollars(m);
    UnsignedDollarsValue(m);
    if cents < 0 {
      assert DollarsLabel(cents)[1..] == u;
    } else {
      assert DollarsLabel(cents) == u;
    }
  }

  /** The line under a plan's price: `Save $… per year`, rendered only while
      billing is yearly. */
  function SavingsLine(plan: Plan, cycle: BillingCycle): (line: Option<string>)
    ensures line.Some? <==> cycle == Yearly
    ensures line.Some? ==> line.value == "Save $" + DollarsLabel(SavingsCents(plan)) + " per year"
  {
    if cycle == Yearly then Some("Save $" + DollarsLabel(SavingsCents(plan)) + " per year") else None
  }

  /** Every listed plan is cheaper paid yearly; the savings are 19.89, 39.89,
      99.89 and 199.89 dollars. */
  lemma SavingsPositive()
    ensures forall p :: p in IndividualPlans + VenuePlans ==> SavingsCents(p) > 0
    ensures SavingsCents(IndividualPlans[0]) == 1989 && SavingsCents(IndividualPlans[1]) == 3989
    ensures SavingsCents(VenuePlans[0]) == 9989 && SavingsCents(VenuePlans[1]) == 19989
  {
    assert IndividualPlans + VenuePlans == [IndividualPlans[0], IndividualPlans[1], VenuePlans[0], VenuePlans[1]];
  }

  /** The two-digit numerals of 19 and 89. */
  lemma Numerals1989()
    ensures NatToString(19) == "19" && NatToString(89) == "89"
  {
    assert NatToString(1) == "1" && NatToString(8) == "8";
  }

  /** The savings of the smallest plan: "19.89", shown as "Save $19.89 per year"
      on yearly billing and not at all on monthly billing. */
  lemma MusicOnlySavingsLabel()
    ensures DollarsLabel(SavingsCents(IndividualPlans[0])) == "19.89"
    ensures SavingsLine(IndividualPlans[0], Yearly) == Some("Save $19.89 per year")
    ensures SavingsLine(IndividualPlans[0], Monthly) == None
  {
    assert SavingsCents(IndividualPlans[0]) == 1989;
    assert 1989 / 100 == 19 && 1989 % 100 == 89;
    Numerals1989();
    assert PadStart("89", 2, '0') == "89";
    assert UnsignedDollars(1989) == "19.89";
    assert "Save $" + "19.89" + " per year" == "Save $19.89 per year";
  }

  /** The subscribe button's text. */
  function ButtonLabel(hasUser: bool): (text: string)
    ensures text == "Subscribe Now" <==> hasUser
    ensures text == "Get Started" <==> !hasUser
  {
    if hasUser then "Subscribe Now" else "Get Started"
  }

  /** The billing switch. */
  function Toggled(cycle: BillingCycle): (r: BillingCycle)
    ensures r != cycle
  {
    if cycle == Monthly then Yearly else Monthly
  }

  lemma ToggleTwice(cycle: BillingCycle)
    ensures Toggled(Toggled(cycle)) == cycle
  {
  }

  // ---------------------------------------------------------------------
  // The page state

  class SubscribePage {
    var selectedPlan: PlanGroup
    var billingCycle: BillingCycle
    var authModalOpen: bool
    var authMode: string

    constructor ()
      ensures selectedPlan == Individual && billingCycle == Monthly
      ensures !authModalOpen && authMode == "signup"
    {
      selectedPlan, billingCycle := Individual, Monthly;
      authModalOpen, authMode := false, "signup";
    }

    /** The plans on screen. */
    function Shown(): seq<Plan>
      reads this
    {
      CurrentPlans(selectedPlan)
    }

    /** The savings line of each plan on screen: every one shown on yearly
        billing, none on monthly billing. */
    function SavingsLines(): (lines: seq<Option<string>>)
      reads this
      ensures |lines| == |Shown()|
      ensures forall i :: 0 <= i < |lines| ==> (lines[i].Some? <==> billingCycle == Yearly)
      ensures forall i :: 0 <= i < |lines| ==> lines[i] == SavingsLine(Shown()[i], billingCycle)
    {
      var plans, cycle := Shown(), billingCycle;
      seq(|plans|, i requires 0 <= i < |plans| => SavingsLine(plans[i], cycle))
    }

    /** The Individual / Venue tabs. */
    method SelectPlan(group: PlanGroup)
      modifies this`selectedPlan
      ensures selectedPlan == group
    {
      selectedPlan := group;
    }

    /** The billing switch's `onClick`. */
    method ToggleBilling()
      modifies this`billingCycle
      ensures billingCycle == Toggled(old(billingCycle))
    {
      billingCycle := if billingCycle == Monthly then Yearly else Monthly;
    }

    /** `handleSubscribe(plan)`: without a user the sign-up modal opens; with one
        only a notice is shown and the modal state is untouched. */
    method HandleSubscribe(plan: Plan, hasUser: bool)
      modifies this`authModalOpen, this`authMode
      ensures !hasUser ==> authModalOpen && authMode == "signup"
      ensures hasUser ==> authModalOpen == old(authModalOpen) && authMode == old(authMode)
    {
      if !hasUser {
        authMode := "signup";
        authModalOpen := true;
      }
    }

    /** The auth modal's `onClose`. */
    method CloseAuthModal()
      modifies this`authModalOpen
      ensures !authModalOpen
    {
      authModalOpen := false;
    }
  }
}
