/**
 * Libookin_Vendor_Dashboard: the filters that edit the vendor dashboard's
 * navigation and query-variable arrays, the payout-eligibility notice, the bank
 * arrival estimate and the requirement-key formatter. The next payout date the
 * dashboard shows is PayoutScheduler.NextPayoutDate.
 *
 * A PHP array handed to a filter is a copy, so each filter is a function from
 * the old array to the new one.
 */
module VendorDashboard {
  import opened Calendar
  import opened StripeConnect

  /** An entry of a settings submenu. */
  datatype SubNavItem = SubNavItem(title: string, icon: string, url: string, pos: int)

  /** An entry of the dashboard navigation; an entry without a submenu has an empty one. */
  datatype NavItem = NavItem(title: string, icon: string, url: string, pos: int, submenu: map<string, SubNavItem>)

  /**
   * remove_withdrawal_nav: drop the withdraw and orders entries and the payment
   * entry of the settings submenu.
   */
  function RemoveWithdrawalNav(urls: map<string, NavItem>): (r: map<string, NavItem>)
    ensures "withdraw" !in r && "orders" !in r
    ensures forall k :: k != "withdraw" && k != "orders" ==> (k in r <==> k in urls)
    ensures forall k :: k in r && k != "settings" ==> r[k] == urls[k]
    ensures "settings" in r ==>
              var before, after := urls["settings"], r["settings"];
              after.title == before.title && after.icon == before.icon && after.url == before.url
              && after.pos == before.pos
              && "payment" !in after.submenu
              && (forall k :: k != "payment" ==> (k in after.submenu <==> k in before.submenu))
              && (forall k :: k in after.submenu ==> after.submenu[k] == before.submenu[k])
  {
    var dropped := urls - {"withdraw", "orders"};
    if "settings" in dropped then
      dropped["settings" := dropped["settings"].(submenu := dropped["settings"].submenu - {"payment"})]
    else dropped
  }

  /** remove_withdrawal_query_vars: drop the withdraw query variable. */
  function RemoveWithdrawalQueryVars(vars: map<string, string>): (r: map<string, string>)
    ensures "withdraw" !in r
    ensures forall k :: k != "withdraw" ==> (k in r <==> k in vars)
    ensures forall k :: k in r ==> r[k] == vars[k]
  {
    vars - {"withdraw"}
  }

  /** add_custom_query_vars: register royalties and stripe-connect, each as its own value. */
  function AddCustomQueryVars(vars: map<string, string>): (r: map<string, string>)
    ensures "royalties" in r && r["royalties"] == "royalties"
    ensures "stripe-connect" in r && r["stripe-connect"] == "stripe-connect"
    ensures forall k :: k != "royalties" && k != "stripe-connect" ==> (k in r <==> k in vars)
    ensures forall k :: k in vars && k != "royalties" && k != "stripe-connect" ==> r[k] == vars[k]
  {
    vars["royalties" := "royalties"]["stripe-connect" := "stripe-connect"]
  }

  const BooksSold: string := "Books Sold"

  /** rename_orders_nav: retitle the orders entry when there is one. */
  function RenameOrdersNav(urls: map<string, NavItem>): (r: map<string, NavItem>)
    ensures r.Keys == urls.Keys
    ensures forall k :: k in r && k != "orders" ==> r[k] == urls[k]
    ensures "orders" in r ==> r["orders"] == urls["orders"].(title := BooksSold)
  {
    if "orders" in urls then urls["orders" := urls["orders"].(title := BooksSold)] else urls
  }

  /**
   * add_royalty_nav: add (or replace) the royalties entry at position 25 and the
   * stripe-connect entry at position 26. navUrl stands for dokan_get_navigation_url.
   */
  function AddRoyaltyNav(urls: map<string, NavItem>, navUrl: string -> string): (r: map<string, NavItem>)
    ensures "royalties" in r && r["royalties"].pos == 25 && r["royalties"].url == navUrl("royalties")
    ensures r["royalties"].title == "My Royalties"
    ensures "stripe-connect" in r && r["stripe-connect"].pos == 26 && r["stripe-connect"].url == navUrl("stripe-connect")
    ensures r["stripe-connect"].title == "Payment Settings"
    ensures r["royalties"].submenu == map[] && r["stripe-connect"].submenu == map[]
    ensures r.Keys == urls.Keys + {"royalties", "stripe-connect"}
    ensures forall k :: k in urls && k != "royalties" && k != "stripe-connect" ==> r[k] == urls[k]
  {
    urls["royalties" := NavItem("My Royalties", "<i class=\"fas fa-money-bill-wave\"></i>", navUrl("royalties"), 25, map[])]
        ["stripe-connect" := NavItem("Payment Settings", "<i class=\"fab fa-stripe\"></i>", navUrl("stripe-connect"), 26, map[])]
  }

  /** The two filters that touch orders: after removal, renaming finds nothing to rename. */
  lemma RemovalBeforeRenameLeavesNoOrders(urls: map<string, NavItem>)
    ensures RenameOrdersNav(RemoveWithdrawalNav(urls)) == RemoveWithdrawalNav(urls)
  {
  }

  /** The next-payout notice: eligible with the amount, or the amount still missing. Cents. */
  datatype PayoutNotice = EligibleForPayout(amount: int) | NeedMore(shortfall: int)

  function PayoutEligibility(eligiblePayouts: int): (n: PayoutNotice)
    ensures n.EligibleForPayout? <==> eligiblePayouts >= MinimumPayoutCents
    ensures n.EligibleForPayout? ==> n.amount == eligiblePayouts
    ensures n.NeedMore? ==> n.shortfall > 0 && eligiblePayouts + n.shortfall == MinimumPayoutCents
  {
    if eligiblePayouts >= 1500 then EligibleForPayout(eligiblePayouts) else NeedMore(1500 - eligiblePayouts)
  }

  /** get_bank_arrival_estimate: the date (UTC) two days after the payout time. */
  function BankArrivalDate(payoutTime: int): (date: int)
    ensures date == DateOf(payoutTime) + 2
  {
    DateOfAddDays(payoutTime, 2);
    DateOf(payoutTime + 2 * DaySeconds)
  }

  // ----- Requirement labels -----

  /** The eight requirement keys with a hand-written label. */
  const RequirementLabels: map<string, string> := map[
    "individual.first_name" := "First name",
    "individual.last_name" := "Last name",
    "individual.dob.day" := "Date of birth",
    "individual.address.line1" := "Address",
    "individual.address.city" := "City",
    "individual.address.postal_code" := "Postal code",
    "external_account" := "Bank account details",
    "individual.verification.document" := "Identity document"
  ]

  predicate IsSeparator(c: char)
  {
    c == '.' || c == '_'
  }

  /** ASCII upper-casing of one character, as ucfirst does. */
  function UpperAscii(c: char): char
  {
    if 'a' <= c <= 'z' then (c as int - 32) as char else c
  }

  /** str_replace(['.', '_'], ' ', key). */
  function SpaceSeparators(key: string): (r: string)
    ensures |r| == |key|
    ensures forall i :: 0 <= i < |r| ==> !IsSeparator(r[i])
    ensures forall i :: 0 <= i < |r| ==> r[i] == (if IsSeparator(key[i]) then ' ' else key[i])
  {
    if key == [] then []
    else (if IsSeparator(key[0]) then " " else [key[0]]) + SpaceSeparators(key[1..])
  }

  function Ucfirst(s: string): string
  {
    if s == [] then s else [UpperAscii(s[0])] + s[1..]
  }

  /**
   * format_requirement: the hand-written label for a known key; any other key
   * keeps its length and letters, loses its separators and gains a capital.
   */
  function FormatRequirement(key: string): (r: string)
    ensures key in RequirementLabels ==> r == RequirementLabels[key]
    ensures key !in RequirementLabels ==>
              |r| == |key|
              && (forall i :: 0 <= i < |r| ==> !IsSeparator(r[i]))
              && (forall i :: 1 <= i < |r| ==> r[i] == (if IsSeparator(key[i]) then ' ' else key[i]))
              && (|key| > 0 ==> r[0] == UpperAscii(if IsSeparator(key[0]) then ' ' else key[0]))
              && (|key| > 0 && 'a' <= key[0] <= 'z' ==> 'A' <= r[0] <= 'Z')
  {
    if key in RequirementLabels then RequirementLabels[key]
    else
      var spaced := SpaceSeparators(key);
      Ucfirst(spaced)
  }

  /** A known key as the dashboard lists it. */
  lemma FormatKnownRequirement()
    ensures FormatRequirement("external_account") == "Bank account details"
  {
  }
}
