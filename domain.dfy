/** The records of the office-management application (types.ts). Dates are whole day
    numbers, instants (creation times, next-action dates) are integer timestamps, money,
    hours and percentages are reals; an optional field `x?: T` is an `Option<T>`, and an
    optional list the source reads as `list || []` is a plain sequence. Fields the modelled
    code never reads are omitted. */
module Domain {
  import opened Wrappers

  type Id = string

  datatype ProjectType = Residential | Commercial | Interior | Consultancy | Report
  datatype ProjectStatus = Planning | Ongoing | Completed | OnHold | Canceled
  datatype PaymentStatus = Pending | Paid | Overdue
  /** `TaskStatus`; `TaskCompleted` is COMPLETED. */
  datatype TaskStatus = ToDo | InProgress | TaskCompleted | Blocked
  /** `InspectionStatus`; the names it shares with `ProjectStatus` carry an `Inspection` prefix. */
  datatype InspectionStatus = Scheduled | InspectionInProgress | ReportPending | InspectionCompleted | InspectionCanceled
  datatype AppointmentType = General | ProjectMeeting | TaskDeadline | InspectionScheduled | PaymentDue
  datatype LeadStatus = New | Contacted | ProposalSent | Negotiation | Won | Lost | Archived
  datatype LeadSource = Referral | Website | SocialMedia | Event | Other
  datatype CostItemType = OfficeFixed | ProjectVariable | TeamCost
  datatype CostItemUnit = Monthly | ProjectSpecific | Hourly | PerUnit

  datatype Client = Client(id: Id, name: string, email: string, address: string)

  /** A team member (`User`): the hourly rate prices stage items. */
  datatype TeamMember = TeamMember(id: Id, name: string, role: Option<string>, hourlyRate: Option<real>)

  datatype SubPhase = SubPhase(id: Id, title: string, completed: bool, order: int)

  datatype Phase = Phase(id: Id, title: string, completed: bool, order: int,
                         dueDate: Option<int>, subPhases: seq<SubPhase>)

  datatype Payment = Payment(id: Id, description: string, dueDate: int, value: real, status: PaymentStatus)

  datatype Task = Task(id: Id, projectId: Option<Id>, title: string, status: TaskStatus, dueDate: Option<int>)

  datatype Inspection = Inspection(id: Id, identifier: string, status: InspectionStatus, dueDate: Option<int>)

  datatype Appointment = Appointment(
    id: Id, projectId: Option<Id>, title: string, location: string,
    dateTime: string, endDateTime: Option<string>, notes: string,
    attendees: seq<string>, kind: AppointmentType, relatedId: Option<Id>, isAllDay: bool)

  /** A work item of a pricing stage; `hours` absent counts as 0. */
  datatype StageItem = StageItem(id: Id, name: string, responsibleId: Option<Id>, hours: Option<real>)

  /** A pricing stage; `isCollapsed` is view state only. */
  datatype Stage = Stage(id: Id, name: string, items: seq<StageItem>, isCollapsed: bool)

  datatype Project = Project(
    id: Id, clientId: Id, clientName: Option<string>, name: string, kind: ProjectType,
    address: string, startDate: int, dueDate: int, status: ProjectStatus, notes: Option<string>,
    createdAt: string, updatedAt: string, totalValue: Option<real>, paidValue: Option<real>,
    phases: seq<Phase>, payments: seq<Payment>, projectStyle: Option<string>,
    detailedStages: seq<Stage>)

  datatype Lead = Lead(
    id: Id, potentialClientName: string, contactEmail: Option<string>, projectDescription: string,
    status: LeadStatus, source: Option<LeadSource>, estimatedValue: Option<real>,
    nextActionDate: Option<int>, notes: Option<string>, costSimulationId: Option<Id>, createdAt: int)

  /** A priced line of a simulation: an office fixed cost or a project variable cost. */
  datatype CostItem = CostItem(
    id: Id, configItemId: Option<Id>, name: string, kind: CostItemType, unit: CostItemUnit,
    baseValue: real, quantity: real, calculatedCost: real,
    isApplied: bool, isDefault: bool, editable: bool)

  datatype ComplexityFactor = ComplexityFactor(id: Id, name: string, percentage: real, isApplied: bool)

  /** An office fixed-cost entry of the settings catalogue. */
  datatype OfficeCostConfig = OfficeCostConfig(id: Id, name: string, monthlyBaseValue: real, isArchived: bool)

  /** A team-member entry of the settings catalogue. */
  datatype TeamMemberConfig = TeamMemberConfig(id: Id, name: string, role: string, hourlyRate: real)

  /** Every named value of the pricing waterfall, as the calculator produces them. */
  datatype Totals = Totals(
    officeSubtotal: real, officeContribution: real, variableSubtotal: real, teamSubtotal: real,
    directSubtotal: real, complexityValue: real, costWithComplexity: real,
    profitValue: real, costPlusProfit: real, negotiationValue: real,
    costPlusProfitAndNegotiation: real, discountValue: real, valueBeforeTax: real,
    taxValue: real, finalProposedValue: real, finalProposedValueWithDiscount: real)

  /** The waterfall values as a stored simulation holds them; the optional ones are
      optional in the stored record too. */
  datatype StoredTotals = StoredTotals(
    officeSubtotal: real, officeContribution: Option<real>, variableSubtotal: real,
    teamSubtotal: real, directSubtotal: real, complexityValue: real, costWithComplexity: real,
    profitValue: real, costPlusProfit: real, negotiationValue: real,
    costPlusProfitAndNegotiation: real, discountValue: Option<real>, valueBeforeTax: Option<real>,
    taxValue: real, finalProposedValue: real, finalProposedValueWithDiscount: Option<real>)

  /** The one cost simulation of a lead: its inputs and the waterfall values at save time. */
  datatype CostSimulation = CostSimulation(
    id: Id, leadId: Id, durationMonths: int,
    officeCosts: seq<CostItem>, variableCosts: seq<CostItem>, teamCosts: seq<CostItem>,
    complexityFactors: seq<ComplexityFactor>,
    profitPercentage: real, negotiationPercentage: real, taxPercentage: real,
    discountPercentage: Option<real>, totals: StoredTotals,
    createdAt: string, updatedAt: string,
    projectStyle: Option<string>, detailedStages: Option<seq<Stage>>)

  /** `list.find(x => x.id === id)` for team members. */
  function FindMember(team: seq<TeamMember>, id: Id): (r: Option<TeamMember>)
    ensures r.Some? ==> r.value in team && r.value.id == id
    ensures r.None? ==> forall m :: m in team ==> m.id != id
  {
    if team == [] then None
    else if team[0].id == id then Some(team[0])
    else FindMember(team[1..], id)
  }

  /** The hourly rate a stage item is priced at: `responsible?.hourlyRate || 0`, where the
      responsible is the first member whose id is the item's `responsibleId`. */
  function RateOf(team: seq<TeamMember>, responsibleId: Option<Id>): real {
    match responsibleId
    case None => 0.0
    case Some(rid) =>
      match FindMember(team, rid)
      case None => 0.0
      case Some(m) => NumOr(m.hourlyRate, 0.0)
  }

  /** The cost of one stage item: `(item.hours || 0) * hourlyRate`. */
  function ItemCost(team: seq<TeamMember>, item: StageItem): real {
    NumOr(item.hours, 0.0) * RateOf(team, item.responsibleId)
  }
}
