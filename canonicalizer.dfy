/**
 * Canonicalisation of the parser's fuzzy domain and action names onto the
 * fixed taxonomy the evaluation dataset uses: synonym tables first, then a
 * first-match keyword heuristic over the raw command text.
 */
module Canonicalizer {
  import opened Wrappers
  import opened Text
  import opened Json

  /** `_norm`: "" for None or any falsy value, else the stripped, lowercased string. */
  function Norm(v: Json): (r: string)
    requires StrOrFalsy(v)
    ensures !Truthy(v) ==> r == ""
    ensures v.JStr? && v.s != [] ==> r == Lower(Strip(v.s))
    ensures NormalName(r)
  {
    if v.JStr? && v.s != [] then StripLower(v.s) else ""
  }

  /** Normalising an already normalised name changes nothing. */
  lemma NormIdempotent(v: Json)
    requires StrOrFalsy(v)
    ensures Norm(JStr(Norm(v))) == Norm(v)
  {
    var r := Norm(v);
    if r == [] {
      assert Norm(JStr(r)) == "";
    } else {
      NormalisedText(r);
      assert Norm(JStr(r)) == StripLower(r);
    }
  }

  const CanonicalDomains: set<string> := {
    "trading", "logistics", "finance", "hr", "it_ops", "devops", "customer_support",
    "operations", "analytics", "sales", "marketing", "procurement", "manufacturing",
    "legal", "retail", "energy", "healthcare_admin", "general_admin", "knowledge_work"
  }

  /** The keyword groups of `_heuristic_domain_from_text`, in the order they are tried. */
  const HeuristicGroups: seq<Group> := [
    Group("trading", ["contract", "hedge", "pnl", "hedging", "mt", "shipment"]),
    Group("logistics", ["ship", "vessel", "eta", "load", "port", "truck", "warehouse", "delivery"]),
    Group("finance", ["invoice", "cashflow", "pnl", "tax", "budget", "expense"]),
    Group("hr", ["employee", "onboarding", "vacation", "leave", "hr"]),
    Group("it_ops", ["service", "incident", "cluster", "server", "restart", "patch"]),
    Group("devops", ["microservice", "load test", "deploy pipeline", "devops"]),
    Group("customer_support", ["ticket", "support case", "escalation"]),
    Group("operations", ["maintenance", "checklist", "operational risk", "incidents", "staffing"]),
    Group("analytics", ["forecast", "demand", "retention", "churn", "analytics"]),
    Group("sales", ["opportunity", "pipeline", "win-loss", "sales"]),
    Group("marketing", ["campaign", "marketing", "engagement", "social media"]),
    Group("procurement", ["purchase order", "suppliers", "vendor", "sourcing"]),
    Group("manufacturing", ["machine", "work orders", "plant", "assembly"]),
    Group("legal", ["nda", "contract", "compliance", "regulation", "legal"]),
    Group("retail", ["store", "inventory", "stockout", "retail"]),
    Group("energy", ["grid", "outage", "energy", "renewable"]),
    Group("healthcare_admin", ["patient", "claims", "lab results"]),
    Group("general_admin", ["meeting", "travel request", "okr", "office supplies"]),
    Group("knowledge_work", ["knowledge base", "documentation", "specification", "docs"])
  ]

  /** `_heuristic_domain_from_text`: the first group whose keyword occurs in the lowercased text, else `default`. */
  function HeuristicDomain(text: string, default: Option<string>): (r: Option<string>)
    ensures r != default ==> r.Some? && r.value in CanonicalDomains
    ensures (forall j :: 0 <= j < |HeuristicGroups| ==> !AnyIn(Lower(text), HeuristicGroups[j].keywords))
            ==> r == default
  {
    var i := FirstGroup(Lower(text), HeuristicGroups);
    if i < |HeuristicGroups| then
      NameCanonical(i);
      Some(HeuristicGroups[i].name)
    else default
  }

  lemma NameCanonical(i: nat)
    requires i < |HeuristicGroups|
    ensures HeuristicGroups[i].name in CanonicalDomains
  {
  }

  /** A group whose keyword occurs, with no earlier group matching, is the heuristic's answer. */
  lemma HeuristicPicksFirst(text: string, default: Option<string>, j: nat)
    requires j < |HeuristicGroups| && AnyIn(Lower(text), HeuristicGroups[j].keywords)
    requires forall l :: 0 <= l < j ==> !AnyIn(Lower(text), HeuristicGroups[l].keywords)
    ensures HeuristicDomain(text, default) == Some(HeuristicGroups[j].name)
  {
    FirstGroupIs(Lower(text), HeuristicGroups, j);
  }

  /** "contract" is a trading keyword, and trading is tried before legal. */
  lemma ContractMeansTrading(text: string, default: Option<string>)
    requires Contains(Lower(text), "contract")
    ensures HeuristicDomain(text, default) == Some("trading")
  {
    assert AnyIn(Lower(text), HeuristicGroups[0].keywords);
  }

  /** A later group wins only when no earlier group's keyword occurs: "nda" text goes to legal only without trading words. */
  lemma HeuristicFirstMatch(text: string, default: Option<string>, i: nat)
    requires i < |HeuristicGroups| && AnyIn(Lower(text), HeuristicGroups[i].keywords)
    ensures exists j :: 0 <= j <= i && AnyIn(Lower(text), HeuristicGroups[j].keywords)
              && (forall l :: 0 <= l < j ==> !AnyIn(Lower(text), HeuristicGroups[l].keywords))
              && HeuristicDomain(text, default) == Some(HeuristicGroups[j].name)
  {
    var f := FirstGroup(Lower(text), HeuristicGroups);
    assert f <= i;
    assert AnyIn(Lower(text), HeuristicGroups[f].keywords);
  }

  /**
   * Step 1 of `canonicalize_domain`: the straight synonyms. Two of them look
   * at the text (customer analysis) or the action and parameters (contract management).
   */
  function DomainSynonym(d: string, a: string, vendorNamed: bool, text: string): (r: Option<string>)
    ensures r.Some? ==> r.value in CanonicalDomains
  {
    if d in {"it-ops", "it_ops", "it"} then Some("it_ops")
    else if d in {"software_testing"} then Some("devops")
    else if d in {"inventory_management"} then Some("retail")
    else if d in {"energy_management", "energy_management_additional"} then Some("energy")
    else if d in {"customer_analysis", "customer_analytics"} then
      if Contains(text, "ticket") || Contains(text, "sentiment") then Some("customer_support")
      else Some("analytics")
    else if d == "customer_feedback" then Some("retail")
    else if d == "contract_management" then
      if a == "approve_contract_renewal" || vendorNamed then Some("procurement") else Some("legal")
    else if d == "compliance" then Some("legal")
    else if d == "audit" then Some("legal")
    else if d in {"travel", "calendar", "communication", "management"} then Some("general_admin")
    else if d == "lab_management" then Some("healthcare_admin")
    else if d in {"knowledge_management", "document_management", "documentation"} then Some("knowledge_work")
    else None
  }

  const GenericMarkers: set<string> := {"", "general", "misc", "unassigned", "other"}

  /** `canonicalize_domain` once the domain and action are normalised and the text lowercased. */
  function ResolveDomain(d: string, a: string, vendorNamed: bool, text: string, isNone: bool): (r: string)
    ensures r in CanonicalDomains || (r == d && d !in GenericMarkers)
  {
    var syn := DomainSynonym(d, a, vendorNamed, text);
    if syn.Some? then syn.value
    else if d in CanonicalDomains then
      HeuristicDomain(text, Some(d)).GetOr(d)
    else if d in GenericMarkers || isNone then
      HeuristicDomain(text, Some("general_admin")).GetOr("general_admin")
    else
      match HeuristicDomain(text, None)
      case Some(g) => g
      case None => if d != "" then d else "general_admin"
  }

  /** `canonicalize_domain` evaluates `"vendor_name" in parameters` only for a contract-management domain whose action is not the renewal approval. */
  predicate VendorTestRuns(d: string, a: string) {
    d == "contract_management" && a != "approve_contract_renewal"
  }

  /**
   * `canonicalize_domain`. The parameters may be any value; the only use of
   * them is Python's `in`, which raises on a value that is not a container.
   */
  function CanonicalizeDomain(domain: Json, action: Json, params: Json, rawText: string): (r: string)
    requires StrOrFalsy(domain) && StrOrFalsy(action)
    requires VendorTestRuns(Norm(domain), Norm(action)) ==> PyIn(JStr("vendor_name"), params).Ok?
    ensures r != ""
    ensures r in CanonicalDomains || r == Norm(domain)
  {
    var vn := PyIn(JStr("vendor_name"), params);
    var r := ResolveDomain(Norm(domain), Norm(action), vn.Ok? && vn.value, Lower(rawText), domain.JNull?);
    NonEmptyNames(r);
    r
  }

  /** A contract-management domain goes to procurement exactly for the renewal approval or parameters that hold "vendor_name", in Python's sense of `in`. */
  lemma ContractParameters(domain: Json, action: Json, params: Json, rawText: string)
    requires domain.JStr? && Norm(domain) == "contract_management" && StrOrFalsy(action)
    requires VendorTestRuns(Norm(domain), Norm(action)) ==> PyIn(JStr("vendor_name"), params).Ok?
    ensures CanonicalizeDomain(domain, action, params, rawText) ==
            if Norm(action) == "approve_contract_renewal" || PyIn(JStr("vendor_name"), params) == Ok(true)
            then "procurement" else "legal"
  {
    var vn := PyIn(JStr("vendor_name"), params);
    ContractManagement(Norm(action), vn.Ok? && vn.value, Lower(rawText), false);
  }

  /** A list or string of parameters never makes the vendor test raise. */
  lemma SequenceParametersAccepted(params: Json)
    requires params.JList? || params.JStr? || params.JObj?
    ensures PyIn(JStr("vendor_name"), params).Ok?
  {
  }

  lemma NonEmptyNames(r: string)
    requires r in CanonicalDomains || r !in GenericMarkers
    ensures r != ""
  {
  }

  /** "it-ops", "it" and "it_ops" are it_ops whatever the text says. */
  lemma ItSynonyms(d: string, a: string, vendorNamed: bool, text: string, isNone: bool)
    requires d in {"it-ops", "it_ops", "it"}
    ensures ResolveDomain(d, a, vendorNamed, text, isNone) == "it_ops"
  {
  }

  /** "compliance" and "audit" are legal whatever the text says. */
  lemma ComplianceIsLegal(d: string, a: string, vendorNamed: bool, text: string, isNone: bool)
    requires d in {"compliance", "audit"}
    ensures ResolveDomain(d, a, vendorNamed, text, isNone) == "legal"
  {
    assert DomainSynonym(d, a, vendorNamed, text) == Some("legal");
  }

  /** Contract management is procurement exactly for renewals or when a vendor is named, else legal. */
  lemma ContractManagement(a: string, vendorNamed: bool, text: string, isNone: bool)
    ensures ResolveDomain("contract_management", a, vendorNamed, text, isNone) ==
            if a == "approve_contract_renewal" || vendorNamed then "procurement" else "legal"
  {
    assert DomainSynonym("contract_management", a, vendorNamed, text) ==
           Some(if a == "approve_contract_renewal" || vendorNamed then "procurement" else "legal");
  }

  lemma NotSynonym0(d: string, a: string, vendorNamed: bool, text: string)
    requires d in {"trading", "logistics", "finance", "hr", "devops"}
    ensures DomainSynonym(d, a, vendorNamed, text).None?
  {
  }

  lemma NotSynonym1(d: string, a: string, vendorNamed: bool, text: string)
    requires d in {"customer_support", "operations", "analytics", "sales", "marketing"}
    ensures DomainSynonym(d, a, vendorNamed, text).None?
  {
  }

  lemma NotSynonym2(d: string, a: string, vendorNamed: bool, text: string)
    requires d in {"procurement", "manufacturing", "legal", "retail", "energy"}
    ensures DomainSynonym(d, a, vendorNamed, text).None?
  {
  }

  lemma NotSynonym3(d: string, a: string, vendorNamed: bool, text: string)
    requires d in {"healthcare_admin", "general_admin", "knowledge_work"}
    ensures DomainSynonym(d, a, vendorNamed, text).None?
  {
  }

  lemma CanonicalNotSynonym(d: string, a: string, vendorNamed: bool, text: string)
    requires d in CanonicalDomains && d != "it_ops"
    ensures DomainSynonym(d, a, vendorNamed, text).None?
  {
    if d in {"trading", "logistics", "finance", "hr", "devops"} {
      NotSynonym0(d, a, vendorNamed, text);
    }     else if d in {"customer_support", "operations", "analytics", "sales", "marketing"} {
      NotSynonym1(d, a, vendorNamed, text);
    }     else if d in {"procurement", "manufacturing", "legal", "retail", "energy"} {
      NotSynonym2(d, a, vendorNamed, text);
    }     else if d in {"healthcare_admin", "general_admin", "knowledge_work"} {
      NotSynonym3(d, a, vendorNamed, text);
    }
  }

  /** A canonical domain (other than "it_ops") still goes through the heuristic, with itself as the default. */
  lemma CanonicalRefinedByText(d: string, a: string, vendorNamed: bool, text: string, isNone: bool)
    requires d in CanonicalDomains && d != "it_ops"
    ensures ResolveDomain(d, a, vendorNamed, text, isNone) == HeuristicDomain(text, Some(d)).value
    ensures (forall j :: 0 <= j < |HeuristicGroups| ==> !AnyIn(Lower(text), HeuristicGroups[j].keywords))
            ==> ResolveDomain(d, a, vendorNamed, text, isNone) == d
  {
    CanonicalNotSynonym(d, a, vendorNamed, text);
  }

  /** A missing or generic domain becomes the heuristic guess, or "general_admin". */
  lemma GenericDomainGuessed(d: string, a: string, vendorNamed: bool, text: string, isNone: bool)
    requires d in GenericMarkers
    ensures ResolveDomain(d, a, vendorNamed, text, isNone) == HeuristicDomain(text, Some("general_admin")).value
  {
    GenericNotSynonym(d, a, vendorNamed, text);
    GenericNotCanonical(d);
  }

  lemma GenericNotSynonym(d: string, a: string, vendorNamed: bool, text: string)
    requires d in GenericMarkers
    ensures DomainSynonym(d, a, vendorNamed, text).None?
  {
  }

  lemma GenericNotCanonical(d: string)
    requires d in GenericMarkers
    ensures d !in CanonicalDomains
  {
  }

  /**
   * One row of a domain's action table: the action must be one of `synonyms`
   * (or contain `actionSub` when that is non-empty), and when `textNeeds` is
   * non-empty one of its words must occur in the lowercased command text.
   */
  datatype ActionRule = ActionRule(synonyms: set<string>, target: string, textNeeds: seq<string>, actionSub: string)

  predicate Fires(rule: ActionRule, a: string, text: string) {
    (a in rule.synonyms || (rule.actionSub != "" && Contains(a, rule.actionSub)))
    && (rule.textNeeds == [] || AnyIn(text, rule.textNeeds))
  }

  function Plain(synonyms: set<string>, target: string): ActionRule {
    ActionRule(synonyms, target, [], "")
  }

  /** The action tables of `canonicalize_action`, one per canonical domain, each in source order. */
  function ActionRules(d: string): seq<ActionRule> {
    if d == "logistics" then LogisticsRules()
    else if d == "finance" then FinanceRules()
    else if d == "hr" then HrRules()
    else if d == "it_ops" then ItOpsRules()
    else if d == "devops" then DevopsRules()
    else if d == "customer_support" then CustomerSupportRules()
    else if d == "operations" then OperationsRules()
    else if d == "manufacturing" then ManufacturingRules()
    else if d == "procurement" then ProcurementRules()
    else if d == "legal" then LegalRules()
    else if d == "retail" then RetailRules()
    else if d == "energy" then EnergyRules()
    else if d == "analytics" then AnalyticsRules()
    else if d == "sales" then SalesRules()
    else if d == "marketing" then MarketingRules()
    else if d == "healthcare_admin" then HealthcareAdminRules()
    else if d == "general_admin" then GeneralAdminRules()
    else if d == "knowledge_work" then KnowledgeWorkRules()
    else []
  }

  function LogisticsRules(): seq<ActionRule> {
    [
      Plain({"book_truck", "book_transport", "create_truck_booking"}, "book_truck"),
      Plain({"list_vessels", "list_ships"}, "list_vessels"),
      Plain({"allocate_warehouse_slot", "allocate_slot"}, "allocate_warehouse_slot"),
      Plain({"list_delayed_shipments", "list_delays"}, "list_delayed_shipments"),
      Plain({"create_delivery_schedule", "create_schedule"}, "create_delivery_schedule")
    ]
  }

  function FinanceRules(): seq<ActionRule> {
    [
      Plain({"generate_cashflow_report", "cashflow_report"}, "generate_cashflow_report"),
      Plain({"list_overdue_invoices", "overdue_invoices"}, "list_overdue_invoices"),
      Plain({"show_operating_expenses", "operating_expenses"}, "show_operating_expenses"),
      Plain({"generate_tax_summary", "tax_summary"}, "generate_tax_summary"),
      Plain({"invoice_aging", "invoice_aging_report"}, "invoice_aging"),
      Plain({"prepare_budget_forecast", "budget_forecast"}, "prepare_budget_forecast")
    ]
  }

  function HrRules(): seq<ActionRule> {
    [
      Plain({"create_employee", "add_employee"}, "create_employee"),
      Plain({"list_vacations", "list_leaves"}, "list_vacations"),
      Plain({"add_leave", "create_leave"}, "add_leave"),
      Plain({"promote_employee", "promotion"}, "promote_employee"),
      Plain({"schedule_onboarding", "onboarding"}, "schedule_onboarding")
    ]
  }

  function ItOpsRules(): seq<ActionRule> {
    [
      Plain({"create_ticket", "open_ticket", "open_incident"}, "create_ticket"),
      Plain({"restart_service", "restart"}, "restart_service"),
      Plain({"run_diagnostics", "diagnostics"}, "run_diagnostics"),
      Plain({"rotate_logs", "log_rotation"}, "rotate_logs"),
      Plain({"schedule_patch", "patch_update"}, "schedule_patch"),
      Plain({"draft_dr_plan", "disaster_recovery_plan"}, "draft_dr_plan"),
      Plain({"deploy_service", "deploy"}, "deploy_service"),
      Plain({"list_unresolved_tickets"}, "list_unresolved_tickets"),
      ActionRule({"list_outages"}, "list_outages", ["outage"], "")
    ]
  }

  function DevopsRules(): seq<ActionRule> {
    [
      Plain({"deploy_microservice", "deploy_service", "deploy"}, "deploy_microservice"),
      Plain({"rollback_service", "rollback"}, "rollback_service"),
      Plain({"adjust_resources", "scale_resources"}, "adjust_resources"),
      Plain({"rebuild_dashboard", "rebuild"}, "rebuild_dashboard"),
      Plain({"run_load_test", "load_test"}, "run_load_test")
    ]
  }

  function CustomerSupportRules(): seq<ActionRule> {
    [
      Plain({"list_tickets"}, "list_tickets"),
      Plain({"list_unresolved_tickets"}, "list_unresolved_tickets"),
      ActionRule({"sentiment_classification", "classify_tickets"}, "sentiment_classification",
                 ["sentiment", "emotion"], ""),
      Plain({"list_escalations", "escalations"}, "list_escalations"),
      Plain({"create_case", "open_case"}, "create_case"),
      Plain({"escalate_ticket", "escalate"}, "escalate_ticket")
    ]
  }

  function OperationsRules(): seq<ActionRule> {
    [
      Plain({"create_checklist"}, "create_checklist"),
      Plain({"schedule_preventive_maintenance", "schedule_maintenance"}, "schedule_maintenance"),
      Plain({"list_risks"}, "list_risks"),
      Plain({"summarize_incidents"}, "summarize_incidents"),
      Plain({"forecast_staffing"}, "forecast_staffing"),
      Plain({"create_safety_checklist"}, "create_safety_checklist")
    ]
  }

  function ManufacturingRules(): seq<ActionRule> {
    [
      ActionRule({"machine_utilization", "show"}, "machine_utilization", ["utilization"], ""),
      Plain({"machine_downtime_report", "downtime_report"}, "machine_downtime_report"),
      Plain({"optimize_process", "optimize_line_sequence"}, "optimize_line_sequence"),
      Plain({"assign_technicians"}, "assign_technicians"),
      Plain({"record_inspection_results"}, "record_inspection_results"),
      Plain({"schedule_calibration", "schedule_task"}, "schedule_calibration"),
      Plain({"list_work_orders"}, "list_work_orders")
    ]
  }

  function ProcurementRules(): seq<ActionRule> {
    [
      Plain({"list_overdue_suppliers"}, "list_overdue_suppliers"),
      Plain({"approve_vendor_contract"}, "approve_vendor_contract"),
      Plain({"create_sourcing_plan"}, "create_sourcing_plan"),
      Plain({"procurement_savings_report"}, "procurement_savings_report"),
      Plain({"create_procurement_tracker"}, "create_procurement_tracker"),
      Plain({"create_purchase_order"}, "create_purchase_order"),
      Plain({"initiate_procurement"}, "initiate_procurement")
    ]
  }

  function LegalRules(): seq<ActionRule> {
    [
      Plain({"draft_nda"}, "draft_nda"),
      Plain({"list_compliance_actions"}, "list_compliance_actions"),
      Plain({"review_contract"}, "review_contract"),
      Plain({"draft_employment_contract"}, "draft_employment_contract"),
      Plain({"review_compliance_docs"}, "review_compliance_docs"),
      Plain({"prepare_briefing"}, "prepare_briefing"),
      Plain({"summarize_audit_findings"}, "summarize_audit_findings")
    ]
  }

  function RetailRules(): seq<ActionRule> {
    [
      Plain({"check_inventory"}, "check_inventory"),
      Plain({"generate_sales_report"}, "generate_sales_report"),
      Plain({"list_stockout_risk"}, "list_stockout_risk"),
      Plain({"summarize_feedback"}, "summarize_feedback"),
      Plain({"plan_replenishment"}, "plan_replenishment"),
      Plain({"top_products"}, "top_products")
    ]
  }

  function EnergyRules(): seq<ActionRule> {
    [
      ActionRule({"consumption_summary", "generate_summary", "create"}, "consumption_summary",
                 ["consumption", "energy"], ""),
      Plain({"forecast_grid_demand", "forecast_demand"}, "forecast_grid_demand"),
      Plain({"list_outages", "list_events"}, "list_outages"),
      ActionRule({"renewable_output_analysis", "analyze"}, "renewable_output_analysis", ["renewable"], ""),
      ActionRule({"inspect_outage_reports"}, "inspect_outage_reports", [], "anomaly_detection"),
      Plain({"optimize_energy_usage"}, "optimize_energy_usage")
    ]
  }

  function AnalyticsRules(): seq<ActionRule> {
    [
      Plain({"revenue_breakdown"}, "revenue_breakdown"),
      Plain({"retention_analysis"}, "retention_analysis"),
      Plain({"forecast_demand"}, "forecast_demand"),
      Plain({"churn_analysis"}, "churn_analysis")
    ]
  }

  function SalesRules(): seq<ActionRule> {
    [
      Plain({"create_opportunity"}, "create_opportunity"),
      Plain({"show_pipeline"}, "show_pipeline"),
      Plain({"win_loss_analysis"}, "win_loss_analysis"),
      Plain({"list_opportunities"}, "list_opportunities"),
      Plain({"top_products"}, "top_products")
    ]
  }

  function MarketingRules(): seq<ActionRule> {
    [
      Plain({"create_campaign"}, "create_campaign"),
      Plain({"analyze_spend"}, "analyze_spend"),
      Plain({"engagement_report"}, "engagement_report"),
      Plain({"competitive_report"}, "competitive_report")
    ]
  }

  function HealthcareAdminRules(): seq<ActionRule> {
    [
      Plain({"schedule_followup"}, "schedule_followup"),
      Plain({"claims_summary"}, "claims_summary"),
      Plain({"list_pending_labs"}, "list_pending_labs")
    ]
  }

  function GeneralAdminRules(): seq<ActionRule> {
    [
      Plain({"create_travel_request"}, "create_travel_request"),
      Plain({"list_meetings"}, "list_meetings"),
      Plain({"draft_announcement"}, "draft_announcement"),
      Plain({"summarize_okrs"}, "summarize_okrs"),
      Plain({"create_procurement_tracker"}, "create_procurement_tracker")
    ]
  }

  function KnowledgeWorkRules(): seq<ActionRule> {
    [
      Plain({"create_documentation"}, "create_documentation"),
      Plain({"tag_documents"}, "tag_documents"),
      Plain({"summarize_document"}, "summarize_document")
    ]
  }

  /** The index of the first rule that fires, or `|rules|`. */
  function FirstFiring(rules: seq<ActionRule>, a: string, text: string): (i: nat)
    ensures i <= |rules|
    ensures i < |rules| ==> Fires(rules[i], a, text)
    ensures forall j :: 0 <= j < i ==> !Fires(rules[j], a, text)
    decreases |rules|
  {
    if |rules| == 0 then 0
    else if Fires(rules[0], a, text) then 0
    else 1 + FirstFiring(rules[1..], a, text)
  }

  /** A rule that fires with no earlier rule firing is the first firing rule. */
  lemma FirstFiringIs(rules: seq<ActionRule>, a: string, text: string, j: nat)
    requires j < |rules| && Fires(rules[j], a, text)
    requires forall h :: 0 <= h < j ==> !Fires(rules[h], a, text)
    ensures FirstFiring(rules, a, text) == j
  {
  }

  /**
   * `canonicalize_action` on a normalised action `a` and lowercased text: the
   * target of the first rule of the domain's table that fires, else `a` itself.
   */
  function ResolveAction(d: string, a: string, text: string): (r: string)
    ensures var rules := ActionRules(d);
            (forall j :: 0 <= j < |rules| ==> !Fires(rules[j], a, text)) ==> r == a
    ensures var rules, i := ActionRules(d), FirstFiring(ActionRules(d), a, text);
            i < |rules| ==>
              r == rules[i].target && Fires(rules[i], a, text)
              && forall h :: 0 <= h < i ==> !Fires(rules[h], a, text)
  {
    var rules := ActionRules(d);
    var i := FirstFiring(rules, a, text);
    if i < |rules| then rules[i].target else a
  }

  /** A rule of the domain's table that fires, with no earlier rule firing, gives the result. */
  lemma ResolveActionPicksFirst(d: string, a: string, text: string, j: nat)
    requires j < |ActionRules(d)| && Fires(ActionRules(d)[j], a, text)
    requires forall h :: 0 <= h < j ==> !Fires(ActionRules(d)[h], a, text)
    ensures ResolveAction(d, a, text) == ActionRules(d)[j].target
  {
    FirstFiringIs(ActionRules(d), a, text, j);
  }

  /**
   * `canonicalize_action`: the action is normalised (a falsy one becomes "")
   * and the text lowercased; the first rule of the domain's table that fires
   * gives the result, and with none the normalised action is returned.
   */
  function CanonicalizeAction(d: string, action: Json, rawText: string): (r: string)
    requires StrOrFalsy(action)
    ensures var a, t, rules := Norm(action), Lower(rawText), ActionRules(d);
            (forall j :: 0 <= j < |rules| ==> !Fires(rules[j], a, t)) ==> r == a
    ensures var a, t, rules := Norm(action), Lower(rawText), ActionRules(d);
            var i := FirstFiring(rules, a, t);
            i < |rules| ==> r == rules[i].target && Fires(rules[i], a, t)
  {
    ResolveAction(d, Norm(action), Lower(rawText))
  }

  /** Logistics "book_transport" is booked as a truck. */
  lemma LogisticsBookTransport(text: string)
    ensures ResolveAction("logistics", "book_transport", text) == "book_truck"
  {
    assert ActionRules("logistics") == LogisticsRules();
    assert Fires(LogisticsRules()[0], "book_transport", text);
  }

  /** Finance "cashflow_report" is the cash-flow report generator. */
  lemma FinanceCashflowReport(text: string)
    ensures ResolveAction("finance", "cashflow_report", text) == "generate_cashflow_report"
  {
    assert ActionRules("finance") == FinanceRules();
    assert Fires(FinanceRules()[0], "cashflow_report", text);
  }

  /** The same action name means different things in different domains: "deploy" is deploy_service in it_ops, deploy_microservice in devops. */
  lemma DeployDependsOnDomain(text: string)
    ensures ResolveAction("it_ops", "deploy", text) == "deploy_service"
    ensures ResolveAction("devops", "deploy", text) == "deploy_microservice"
  {
    ItOpsDeploy(text);
    DevopsDeploy(text);
  }

  lemma ItOpsDeploy(text: string)
    ensures ResolveAction("it_ops", "deploy", text) == "deploy_service"
  {
    assert ActionRules("it_ops") == ItOpsRules();
    var rules := ItOpsRules();
    assert Fires(rules[6], "deploy", text);
    assert forall j :: 0 <= j < 6 ==> !Fires(rules[j], "deploy", text);
  }

  lemma DevopsDeploy(text: string)
    ensures ResolveAction("devops", "deploy", text) == "deploy_microservice"
  {
    assert ActionRules("devops") == DevopsRules();
    assert Fires(DevopsRules()[0], "deploy", text);
  }

  /** Manufacturing "show" becomes machine_utilization exactly when the text mentions "utilization"; otherwise it stays "show". */
  lemma ManufacturingShow(text: string)
    ensures ResolveAction("manufacturing", "show", text) ==
            (if Contains(text, "utilization") then "machine_utilization" else "show")
  {
    ManufacturingTable();
    var rules := ManufacturingRules();
    if Contains(text, "utilization") {
      assert Fires(rules[0], "show", text);
    } else {
      assert !AnyIn(text, ["utilization"]);
      ShowOnlyInFirstRule();
    }
  }

  lemma ManufacturingTable()
    ensures ActionRules("manufacturing") == ManufacturingRules()
  {
    var m := "manufacturing";
    assert m != "logistics" && m != "finance" && m != "hr" && m != "it_ops" by { assert m[0] == 'm'; }
    assert m != "devops" && m != "customer_support" && m != "operations" by { assert m[0] == 'm'; }
  }

  /** Only the first manufacturing rule lists "show", and none matches by substring. */
  lemma ShowOnlyInFirstRule()
    ensures var rules := ManufacturingRules();
            forall j :: 1 <= j < |rules| ==> "show" !in rules[j].synonyms && rules[j].actionSub == ""
  {
  }

  /** A domain without a table (an unknown or non-canonical name) keeps the normalised action. */
  lemma UnknownDomainKeepsAction(d: string, a: string, text: string)
    requires d !in CanonicalDomains
    ensures ResolveAction(d, a, text) == a
  {
    NoTableOutsideCanonical(d);
  }

  lemma NoTableOutsideCanonical(d: string)
    requires d !in CanonicalDomains
    ensures ActionRules(d) == []
  {
  }

  /**
   * When `canonicalize` runs without raising: the domain and action are
   * strings or falsy, and the vendor test, when it runs, meets a container.
   */
  predicate CanonicalizeReady(parsed: Obj) {
    StrOrFalsy(Get(parsed, "domain")) && StrOrFalsy(Get(parsed, "action"))
    && (VendorTestRuns(Norm(Get(parsed, "domain")), Norm(Get(parsed, "action")))
        ==> PyIn(JStr("vendor_name"), ParamsOf(parsed)).Ok?)
  }

  /** `data.get("parameters") or {}`. */
  function ParamsOf(parsed: Obj): Json {
    Or(Get(parsed, "parameters"), JObj(map[]))
  }

  /**
   * `canonicalize`: a copy of `parsed` in which only "domain" and "action"
   * are replaced and "raw_text" is added when absent.
   */
  function Canonicalize(parsed: Obj, rawText: string): (r: Obj)
    requires CanonicalizeReady(parsed)
    ensures r.Keys == parsed.Keys + {"domain", "action", "raw_text"}
    ensures forall k :: k in parsed && k !in {"domain", "action", "raw_text"} ==> r[k] == parsed[k]
    ensures r["raw_text"] == if "raw_text" in parsed then parsed["raw_text"] else JStr(rawText)
    ensures r["domain"].JStr? && r["domain"].s != ""
    ensures r["domain"].s in CanonicalDomains || r["domain"].s == Norm(Get(parsed, "domain"))
    ensures r["domain"] == JStr(CanonicalizeDomain(Get(parsed, "domain"), Get(parsed, "action"), ParamsOf(parsed), rawText))
    ensures r["action"] == JStr(CanonicalizeAction(r["domain"].s, Get(parsed, "action"), rawText))
  {
    var dom := CanonicalizeDomain(Get(parsed, "domain"), Get(parsed, "action"), ParamsOf(parsed), rawText);
    var act := CanonicalizeAction(dom, Get(parsed, "action"), rawText);
    Restamp(parsed, rawText, dom, act)
  }

  /** The copy with "raw_text" defaulted and "domain" and "action" overwritten. */
  function Restamp(parsed: Obj, rawText: string, dom: string, act: string): (r: Obj)
    ensures r.Keys == parsed.Keys + {"domain", "action", "raw_text"}
    ensures forall k :: k in parsed && k !in {"domain", "action", "raw_text"} ==> r[k] == parsed[k]
    ensures r["raw_text"] == if "raw_text" in parsed then parsed["raw_text"] else JStr(rawText)
    ensures r["domain"] == JStr(dom) && r["action"] == JStr(act)
  {
    assert "raw_text" != "domain" && "raw_text" != "action" by { assert "raw_text"[0] == 'r'; }
    assert "domain" != "action" by { assert "domain"[0] == 'd'; }
    var withRaw := if "raw_text" in parsed then parsed else parsed["raw_text" := JStr(rawText)];
    withRaw["domain" := JStr(dom)]["action" := JStr(act)]
  }
}
