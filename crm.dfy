/** The CRM board (pages/CrmPage.tsx): the filtered and sorted list of open leads, the
    search for an existing client when a lead is converted, and the conversion itself. */
module Crm {
  import opened Wrappers
  import opened Domain
  import opened Collections
  import opened Sorting
  import Text
  import Constants
  import LeadSimulation

  // ---------------------------------------------------------------- the lead list

  /** The sort options of the board. */
  datatype LeadSort = CreatedAtDesc | CreatedAtAsc | NextActionDateAsc | EstimatedValueDesc

  /** The search term and the status and source filters; an empty choice is `None`. */
  datatype LeadFilters = LeadFilters(search: string, status: Option<LeadStatus>, source: Option<LeadSource>)

  /** Archived and won leads are never listed. */
  predicate IsOpen(l: Lead) {
    l.status != Archived && l.status != Won
  }

  /** The term occurs, ignoring case, in the lead's name, description or (non-empty) email. */
  predicate MatchesSearch(l: Lead, term: string) {
    Text.ContainsIgnoringCase(l.potentialClientName, term) ||
    Text.ContainsIgnoringCase(l.projectDescription, term) ||
    (IsTruthy(l.contactEmail) && Text.ContainsIgnoringCase(l.contactEmail.value, term))
  }

  /** Everything a listed lead satisfies: open, matching the search when a term is set,
      and matching the status and source filters when those are set. */
  predicate PassesFilters(l: Lead, f: LeadFilters) {
    IsOpen(l) &&
    (f.search != "" ==> MatchesSearch(l, f.search)) &&
    (f.status.Some? ==> l.status == f.status.value) &&
    (f.source.Some? ==> l.source == f.source)
  }

  function SearchPredicate(term: string): Lead -> bool {
    (l: Lead) => MatchesSearch(l, term)
  }

  function StatusPredicate(status: LeadStatus): Lead -> bool {
    (l: Lead) => l.status == status
  }

  function SourcePredicate(source: LeadSource): Lead -> bool {
    (l: Lead) => l.source == Some(source)
  }

  function FiltersPredicate(f: LeadFilters): Lead -> bool {
    (l: Lead) => PassesFilters(l, f)
  }

  /** The filter pipeline: open leads, then the search, the status and the source filters,
      each applied only when it is set. */
  function FilterLeads(leads: seq<Lead>, f: LeadFilters): seq<Lead> {
    var open := Filter(leads, IsOpen);
    var searched := if f.search != "" then Filter(open, SearchPredicate(f.search)) else open;
    var byStatus := if f.status.Some? then Filter(searched, StatusPredicate(f.status.value)) else searched;
    if f.source.Some? then Filter(byStatus, SourcePredicate(f.source.value)) else byStatus
  }

  /** The pipeline is one filter by `PassesFilters`: it keeps exactly the leads that pass
      every set filter, in their order and with their multiplicity. */
  lemma FilterLeadsIsOneFilter(leads: seq<Lead>, f: LeadFilters)
    ensures FilterLeads(leads, f) == Filter(leads, FiltersPredicate(f))
    ensures forall l :: l in FilterLeads(leads, f) <==> l in leads && PassesFilters(l, f)
  {
    var p1 := (l: Lead) => IsOpen(l);
    var p2 := (l: Lead) => IsOpen(l) && (f.search != "" ==> MatchesSearch(l, f.search));
    var p3 := (l: Lead) => p2(l) && (f.status.Some? ==> l.status == f.status.value);
    FilterPointwise(leads, IsOpen, p1);
    var open := Filter(leads, IsOpen);
    var searched := if f.search != "" then Filter(open, SearchPredicate(f.search)) else open;
    if f.search != "" {
      FilterFilter(leads, IsOpen, SearchPredicate(f.search), p2);
    } else {
      FilterPointwise(leads, IsOpen, p2);
    }
    assert searched == Filter(leads, p2);
    var byStatus := if f.status.Some? then Filter(searched, StatusPredicate(f.status.value)) else searched;
    if f.status.Some? {
      FilterFilter(leads, p2, StatusPredicate(f.status.value), p3);
    } else {
      FilterPointwise(leads, p2, p3);
    }
    assert byStatus == Filter(leads, p3);
    if f.source.Some? {
      FilterFilter(leads, p3, SourcePredicate(f.source.value), FiltersPredicate(f));
    } else {
      FilterPointwise(leads, p3, FiltersPredicate(f));
    }
  }

  /** `a` may come before `b`: the comparator of each sort option, as `cmp(a, b) <= 0`.
      Two undated leads tie under the next-action order. */
  predicate LeadPrecedes(order: LeadSort, a: Lead, b: Lead) {
    match order
    case CreatedAtDesc => b.createdAt <= a.createdAt
    case CreatedAtAsc => a.createdAt <= b.createdAt
    case NextActionDateAsc =>
      b.nextActionDate.None? ||
      (a.nextActionDate.Some? && a.nextActionDate.value <= b.nextActionDate.value)
    case EstimatedValueDesc => NumOr(b.estimatedValue, 0.0) <= NumOr(a.estimatedValue, 0.0)
  }

  function LeadOrder(order: LeadSort): (Lead, Lead) -> bool {
    (a: Lead, b: Lead) => LeadPrecedes(order, a, b)
  }

  /** Every sort option is a consistent comparator. */
  lemma LeadOrderIsTotalPreorder(order: LeadSort)
    ensures TotalPreorder(LeadOrder(order))
  {
    var leq := LeadOrder(order);
    forall a: Lead, b: Lead
      ensures leq(a, b) || leq(b, a)
    {
      assert LeadPrecedes(order, a, b) || LeadPrecedes(order, b, a);
    }
    forall a: Lead, b: Lead, c: Lead | leq(a, b) && leq(b, c)
      ensures leq(a, c)
    {
      assert LeadPrecedes(order, a, b) && LeadPrecedes(order, b, c);
    }
  }

  /** `filteredAndSortedLeads`: the filtered leads, sorted on a copy. */
  function ListLeads(leads: seq<Lead>, f: LeadFilters, order: LeadSort): seq<Lead> {
    SortBy(FilterLeads(leads, f), LeadOrder(order))
  }

  /** The board lists a permutation of the filtered leads. */
  lemma ListLeadsSpec(leads: seq<Lead>, f: LeadFilters, order: LeadSort)
    ensures multiset(ListLeads(leads, f, order)) == multiset(Filter(leads, FiltersPredicate(f)))
    ensures forall l :: l in ListLeads(leads, f, order) <==> l in leads && PassesFilters(l, f)
  {
    FilterLeadsIsOneFilter(leads, f);
    SortByIsPermutation(FilterLeads(leads, f), LeadOrder(order));
  }

  /** The board lists the leads ordered by the chosen option. */
  lemma ListLeadsSorted(leads: seq<Lead>, f: LeadFilters, order: LeadSort)
    ensures SortedBy(ListLeads(leads, f, order), LeadOrder(order))
  {
    LeadOrderIsTotalPreorder(order);
    SortBySorted(FilterLeads(leads, f), LeadOrder(order));
  }

  /** Listed by estimated value, the values never increase down the list (a missing value
      counts as 0). */
  lemma ByEstimateIsNonIncreasing(leads: seq<Lead>, f: LeadFilters)
    ensures var r := ListLeads(leads, f, EstimatedValueDesc);
      forall i, j :: 0 <= i < j < |r| ==> NumOr(r[j].estimatedValue, 0.0) <= NumOr(r[i].estimatedValue, 0.0)
  {
    var r := ListLeads(leads, f, EstimatedValueDesc);
    ListLeadsSorted(leads, f, EstimatedValueDesc);
    forall i, j | 0 <= i < j < |r|
      ensures NumOr(r[j].estimatedValue, 0.0) <= NumOr(r[i].estimatedValue, 0.0)
    {
      assert LeadOrder(EstimatedValueDesc)(r[i], r[j]);
    }
  }

  /** Listed by next action, dated leads come before undated ones and the dated ones are
      in ascending order. */
  lemma ByNextActionPutsDatedFirst(leads: seq<Lead>, f: LeadFilters)
    ensures var r := ListLeads(leads, f, NextActionDateAsc);
      forall i, j :: 0 <= i < j < |r| ==>
        (r[i].nextActionDate.None? ==> r[j].nextActionDate.None?) &&
        (r[i].nextActionDate.Some? && r[j].nextActionDate.Some? ==>
           r[i].nextActionDate.value <= r[j].nextActionDate.value)
  {
    var r := ListLeads(leads, f, NextActionDateAsc);
    ListLeadsSorted(leads, f, NextActionDateAsc);
    forall i, j | 0 <= i < j < |r|
      ensures r[i].nextActionDate.None? ==> r[j].nextActionDate.None?
      ensures r[i].nextActionDate.Some? && r[j].nextActionDate.Some? ==>
              r[i].nextActionDate.value <= r[j].nextActionDate.value
    {
      assert LeadOrder(NextActionDateAsc)(r[i], r[j]);
    }
  }

  // ---------------------------------------------------------------- conversion

  /** A client matches a lead by name ignoring case, or by email ignoring case when both
      have one. */
  predicate ClientMatches(c: Client, lead: Lead) {
    Text.EqualIgnoringCase(c.name, lead.potentialClientName) ||
    (IsTruthy(lead.contactEmail) && c.email != "" && Text.EqualIgnoringCase(c.email, lead.contactEmail.value))
  }

  /** The position of the first matching client. */
  function FirstMatchingClient(clients: seq<Client>, lead: Lead): (r: Option<nat>)
    ensures r.Some? ==>
      r.value < |clients| && ClientMatches(clients[r.value], lead) &&
      (forall j :: 0 <= j < r.value ==> !ClientMatches(clients[j], lead))
    ensures r.None? ==> forall j :: 0 <= j < |clients| ==> !ClientMatches(clients[j], lead)
  {
    if clients == [] then None
    else if ClientMatches(clients[0], lead) then Some(0)
    else
      match FirstMatchingClient(clients[1..], lead)
      case None => None
      case Some(k) => Some(k + 1)
  }

  /** `clients.find(...)` in `startLeadToProjectConversion`. */
  function FindExistingClient(clients: seq<Client>, lead: Lead): (r: Option<Client>)
    ensures r.Some? ==> r.value in clients && ClientMatches(r.value, lead)
    ensures r.None? <==> forall j :: 0 <= j < |clients| ==> !ClientMatches(clients[j], lead)
  {
    match FirstMatchingClient(clients, lead)
    case None => None
    case Some(k) => Some(clients[k])
  }

  /** What starting a conversion leads to: converting with a found client, or asking for a
      client in the client form. */
  datatype ConversionStart = ConvertWith(client: Client) | AskForClient

  /** `startLeadToProjectConversion`: a found client is used when the user accepts it. */
  function StartConversion(clients: seq<Client>, lead: Lead, useExisting: bool): (r: ConversionStart)
    ensures r.ConvertWith? <==> useExisting && FindExistingClient(clients, lead).Some?
    ensures r.ConvertWith? ==> r.client in clients && ClientMatches(r.client, lead)
  {
    match FindExistingClient(clients, lead)
    case Some(c) => if useExisting then ConvertWith(c) else AskForClient
    case None => AskForClient
  }

  /** `convertLeadToProject` on the board: a planned residential project for the client,
      priced at the lead's estimate, due 30 days after it starts, in the first style and
      with a copy of the stage template; the lead is won. */
  function ConvertLeadToProject(lead: Lead, client: Client, today: int, stamp: string, now: string): LeadSimulation.Conversion {
    var project := Project(
      "proj-" + stamp, client.id, Some(client.name),
      LeadSimulation.ConvertedName(lead.projectDescription, client.name),
      Residential,
      if client.address != "" then client.address else "A definir",
      today, today + 30, Planning,
      Some("Convertido da Oportunidade CRM: " + lead.potentialClientName + " - " + lead.projectDescription
           + "\n\nObservações da Oportunidade:\n" + OrElse(lead.notes, "")),
      now, now, Some(NumOr(lead.estimatedValue, 0.0)), Some(0.0), [], [],
      Some(Constants.ProjectStyleOptions()[0]), Constants.DetailedStagesTemplate());
    LeadSimulation.Conversion(project, lead.(status := Won))
  }

  /** The converted project is planned, unpaid, priced at the estimate (0 when missing),
      due 30 days after it starts, in the default style, with the template's stages; the
      lead becomes won and nothing else about it changes. */
  lemma ConvertLeadToProjectSpec(lead: Lead, client: Client, today: int, stamp: string, now: string)
    ensures var c := ConvertLeadToProject(lead, client, today, stamp, now);
      c.project.status == Planning && c.project.paidValue == Some(0.0) &&
      c.project.totalValue == Some(if lead.estimatedValue.Some? then lead.estimatedValue.value else 0.0) &&
      c.project.dueDate == c.project.startDate + 30 && c.project.startDate == today &&
      c.project.projectStyle == Some("Padrão") &&
      c.project.detailedStages == Constants.DetailedStagesTemplate() &&
      c.project.clientId == client.id && c.project.clientName == Some(client.name) &&
      c.lead == lead.(status := Won)
  {
  }
}
