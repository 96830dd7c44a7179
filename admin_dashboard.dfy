/** The list helpers of the admin dashboard (`AdminDashboard.tsx`): the pickup
    filters, the status chip's priority chain, and the state machine of the section
    cards and the pickup status cards. Absent or empty text fields are "" (both are
    falsy), and `scheduled` is the truthiness of the pickup's field. */
module AdminDashboard {
  import opened Seqs

  datatype Pickup = Pickup(id: int, deliveryGuy: string, deliveryStatus: string, scheduled: bool)

  // ---------------------------------------------------------------- filters

  /** Whether `getFilteredPickups` keeps a pickup under the active filter. */
  predicate Keeps(filter: string, p: Pickup) {
    match filter
    case "unassigned" => p.deliveryGuy == ""
    case "assigned" => p.deliveryGuy != "" && p.deliveryStatus == "assigned"
    case "picked_up" => p.deliveryStatus == "picked_up"
    case "delivered" => p.deliveryStatus == "delivered"
    case _ => true
  }

  /** `getFilteredPickups`: an order-preserving selection of the pickups the filter
      keeps; `all`, and any filter it does not know, returns the list itself. */
  function GetFilteredPickups(pickups: seq<Pickup>, filter: string): (r: seq<Pickup>)
    ensures IsSubsequence(r, pickups)
    ensures forall x :: x in r <==> x in pickups && Keeps(filter, x)
    ensures filter !in ["unassigned", "assigned", "picked_up", "delivered"] ==> r == pickups
  {
    var keep := x => Keeps(filter, x);
    FilterIsSubsequence(pickups, keep);
    forall x ensures x in Filter(pickups, keep) <==> x in pickups && keep(x) {
      FilterMembership(pickups, keep, x);
    }
    if filter in ["unassigned", "assigned", "picked_up", "delivered"] then Filter(pickups, keep)
    else (FilterAll(pickups, keep); pickups)
  }

  /** No pickup is listed both as unassigned and as assigned. */
  lemma UnassignedAndAssignedDisjoint(pickups: seq<Pickup>, x: Pickup)
    ensures !(x in GetFilteredPickups(pickups, "unassigned") && x in GetFilteredPickups(pickups, "assigned"))
  {
  }

  // ---------------------------------------------------------------- status chip

  datatype Chip = Chip(text: string, color: string)

  /** `getStatusChip`: a delivery status decides first (its label, or the raw value
      when unknown); then an assigned delivery person; then scheduling; else pending. */
  function StatusChip(p: Pickup): (c: Chip)
    ensures p.deliveryStatus != "" ==>
      c.text == (match p.deliveryStatus
                  case "assigned" => "Assigned"
                  case "picked_up" => "Picked Up"
                  case "delivered" => "Delivered"
                  case other => other)
    ensures p.deliveryStatus == "" && p.deliveryGuy != "" ==> c == Chip("Assigned", "success")
    ensures p.deliveryStatus == "" && p.deliveryGuy == "" ==>
      c == if p.scheduled then Chip("Scheduled", "info") else Chip("Pending", "warning")
  {
    if p.deliveryStatus != "" then
      match p.deliveryStatus
      case "assigned" => Chip("Assigned", "warning")
      case "picked_up" => Chip("Picked Up", "info")
      case "delivered" => Chip("Delivered", "success")
      case other => Chip(other, "default")
    else if p.deliveryGuy != "" then Chip("Assigned", "success")
    else if p.scheduled then Chip("Scheduled", "info")
    else Chip("Pending", "warning")
  }

  /** The chip agrees with the filters: a pickup the assigned, picked-up or delivered
      filter keeps shows that status, and an unassigned pickup without a delivery
      status shows "Scheduled" or "Pending". */
  lemma ChipAgreesWithFilter(p: Pickup)
    ensures Keeps("assigned", p) ==> StatusChip(p) == Chip("Assigned", "warning")
    ensures Keeps("picked_up", p) ==> StatusChip(p) == Chip("Picked Up", "info")
    ensures Keeps("delivered", p) ==> StatusChip(p) == Chip("Delivered", "success")
    ensures Keeps("unassigned", p) && p.deliveryStatus == "" ==>
      StatusChip(p).text in {"Scheduled", "Pending"}
  {
  }

  /** "Assigned" has two colours: from the delivery status and from the delivery
      person alone. */
  lemma AssignedHasTwoColours()
    ensures StatusChip(Pickup(1, "courier", "assigned", false)).color == "warning"
    ensures StatusChip(Pickup(1, "courier", "", false)).color == "success"
  {
  }

  // ---------------------------------------------------------------- section cards

  datatype Section = NoSection | DashboardSection | RoutesSection | DeliveryPartnersSection

  /** The dashboard's open section and pickup filter. */
  datatype View = View(section: Section, filter: string)

  /** A filter other than `all` is only ever shown with every section closed. */
  predicate Coherent(v: View) {
    v.filter != "all" ==> v.section == NoSection
  }

  /** `handleCardClick`: a pickup status card closes the sections and filters by it. */
  function CardClick(v: View, filter: string): (w: View)
    requires filter in ["unassigned", "assigned", "picked_up", "delivered"]
    ensures w.section == NoSection && w.filter == filter && Coherent(w)
  {
    View(NoSection, filter)
  }

  /** `handleDashboardClick`, `handleRoutesCardClick` and
      `handleDeliveryPartnersCardClick`: clicking the open section's card closes it,
      clicking another opens that one; both reset the filter to `all`. */
  function SectionClick(v: View, s: Section): (w: View)
    requires s != NoSection
    ensures w.filter == "all" && Coherent(w)
    ensures w.section == (if v.section == s then NoSection else s)
  {
    if v.section == s then View(NoSection, "all") else View(s, "all")
  }

  /** Clicking the same section card twice returns to that section if it was open,
      and to no section otherwise. */
  lemma SectionClickTwice(v: View, s: Section)
    requires s != NoSection
    ensures SectionClick(SectionClick(v, s), s) == View(if v.section == s then s else NoSection, "all")
  {
  }
}
