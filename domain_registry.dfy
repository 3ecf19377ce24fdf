/**
 * The domain registry: the domain examples configuration, held in the order
 * its mapping lists the domains, and the fixed keyword index used to guess a
 * domain from a command.
 */
module DomainRegistry {
  import opened Text
  import opened Json

  /** The loaded configuration: (domain, examples block) pairs in file order. A missing file is the empty mapping. */
  datatype Registry = Registry(data: seq<(string, Json)>)

  /** A mapping never repeats a key. */
  predicate DistinctKeys(data: seq<(string, Json)>) {
    forall i, j :: 0 <= i < j < |data| ==> data[i].0 != data[j].0
  }

  /** `domains`: the configured domain names, in order. */
  function Domains(reg: Registry): (ds: seq<string>)
    ensures |ds| == |reg.data|
    ensures forall i :: 0 <= i < |ds| ==> ds[i] == reg.data[i].0
  {
    seq(|reg.data|, i requires 0 <= i < |reg.data| => reg.data[i].0)
  }

  /** `get_examples`: the block configured for `domain`, or `{}` for an unknown domain. */
  function GetExamples(reg: Registry, domain: string): (r: Json)
    ensures domain !in Domains(reg) ==> r == JObj(map[])
    ensures DistinctKeys(reg.data) ==>
              forall i :: 0 <= i < |reg.data| && reg.data[i].0 == domain ==> r == reg.data[i].1
    decreases |reg.data|
  {
    if |reg.data| == 0 then JObj(map[])
    else if reg.data[0].0 == domain then reg.data[0].1
    else
      var r := GetExamples(Registry(reg.data[1..]), domain);
      assert Domains(Registry(reg.data[1..])) == Domains(reg)[1..];
      r
  }

  /** The keyword index, in insertion order. "sales_marketing" is not one of the canonical domains. */
  const KeywordIndex: seq<Group> := [
    TradingIndex,
    LogisticsIndex,
    FinanceIndex,
    HrIndex,
    ItOpsIndex,
    LegalIndex,
    SalesMarketingIndex,
    CustomerSupportIndex,
    AnalyticsIndex,
    OperationsIndex
  ]

  const TradingIndex := Group("trading", ["contract", "pnl", "hedge", "position", "shipment", "mt", "fob"])
  const LogisticsIndex := Group("logistics", ["truck", "vessel", "warehouse", "ship", "delivery", "eta", "silo"])
  const FinanceIndex := Group("finance", ["invoice", "cashflow", "budget", "payable", "receivable"])
  const HrIndex := Group("hr", ["employee", "payroll", "vacation", "leave", "recruit", "hire"])
  const ItOpsIndex := Group("it_ops", ["incident", "ticket", "deployment", "service", "cluster", "restart"])
  const LegalIndex := Group("legal", ["nda", "contract", "compliance", "legal", "terms"])
  const SalesMarketingIndex := Group("sales_marketing", ["campaign", "lead", "opportunity", "sales", "crm", "outbound"])
  const CustomerSupportIndex := Group("customer_support", ["support", "ticket", "sla", "csat", "customer"])
  const AnalyticsIndex := Group("analytics", ["report", "dashboard", "kpi", "metric", "analysis"])
  const OperationsIndex := Group("operations", ["checklist", "approval", "task", "maintenance", "operation"])

  /** The domain used when no keyword matches. */
  function FallbackDomain(reg: Registry): (r: string)
    ensures "operations" in Domains(reg) ==> r == "operations"
    ensures "operations" !in Domains(reg) && |reg.data| > 0 ==> r == reg.data[0].0
    ensures |reg.data| == 0 ==> r == "operations"
  {
    if "operations" in Domains(reg) then "operations"
    else if |reg.data| > 0 then reg.data[0].0
    else "operations"
  }

  /**
   * `guess_domain`: the first index entry with a keyword contained in the
   * lowercased command; otherwise "operations" when configured, else the
   * first configured domain, else "operations".
   */
  function GuessDomain(reg: Registry, command: string): (r: string)
    ensures var t, i := Lower(command), FirstGroup(Lower(command), KeywordIndex);
            i < |KeywordIndex| ==>
              r == KeywordIndex[i].name && AnyIn(t, KeywordIndex[i].keywords)
              && forall h :: 0 <= h < i ==> !AnyIn(t, KeywordIndex[h].keywords)
    ensures (forall j :: 0 <= j < |KeywordIndex| ==> !AnyIn(Lower(command), KeywordIndex[j].keywords))
            ==> r == FallbackDomain(reg)
  {
    var t := Lower(command);
    var i := FirstGroup(t, KeywordIndex);
    if i < |KeywordIndex| then KeywordIndex[i].name else FallbackDomain(reg)
  }

  /** An index entry with a keyword in the command, and none before it with one, is the guess. */
  lemma GuessDomainPicksFirst(reg: Registry, command: string, j: nat)
    requires j < |KeywordIndex| && AnyIn(Lower(command), KeywordIndex[j].keywords)
    requires forall h :: 0 <= h < j ==> !AnyIn(Lower(command), KeywordIndex[h].keywords)
    ensures GuessDomain(reg, command) == KeywordIndex[j].name
  {
    FirstGroupIs(Lower(command), KeywordIndex, j);
  }

  /** The guess is a keyword-index name, a configured domain, or "operations". */
  lemma GuessDomainRange(reg: Registry, command: string)
    ensures GuessDomain(reg, command) == "operations"
            || GuessDomain(reg, command) in Domains(reg)
            || exists i :: 0 <= i < |KeywordIndex| && GuessDomain(reg, command) == KeywordIndex[i].name
  {
    var t := Lower(command);
    var i := FirstGroup(t, KeywordIndex);
    if i == |KeywordIndex| && "operations" !in Domains(reg) && |reg.data| > 0 {
      assert Domains(reg)[0] == reg.data[0].0;
    }
  }

  /**
   * The guess can name a domain that is not configured: with no configuration
   * at all, the command "PnL" is guessed as "trading".
   */
  lemma GuessOutsideConfiguration()
    ensures GuessDomain(Registry([]), "PnL") == "trading"
    ensures "trading" !in Domains(Registry([]))
  {
    assert Lower("PnL") == "pnl";
    assert AnyIn("pnl", TradingIndex.keywords) by {
      ContainsSelf("pnl");
      AnyInIff("pnl", TradingIndex.keywords);
      assert Contains("pnl", TradingIndex.keywords[1]);
    }
    FirstGroupIs("pnl", KeywordIndex, 0);
  }
}
