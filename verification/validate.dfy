/** `validateFinancialData`: the completeness checks on a combined dataset.
    All three checks run and every failure is reported, in a fixed order. */
module Validate {
  import opened Statements

  /** "No valid financial statements were found." */
  const NoStatementsError: string := "لم يتم العثور على قوائم مالية صالحة"
  /** "Company name is required." */
  const CompanyNameError: string := "اسم الشركة مطلوب"
  /** "Company sector is required." */
  const SectorError: string := "قطاع الشركة مطلوب"

  datatype Validation = Validation(isValid: bool, errors: seq<string>)

  /** The kinds that count as a financial statement; budgets do not. */
  predicate CountsAsStatement(k: StatementKind) {
    k != Budget
  }

  /** Position of a message in the order the checks run. */
  function Rank(message: string): nat {
    if message == NoStatementsError then 0
    else if message == CompanyNameError then 1
    else 2
  }

  predicate IsKnownError(message: string) {
    message == NoStatementsError || message == CompanyNameError || message == SectorError
  }

  function ValidateFinancialData(c: Combined): (v: Validation)
    ensures v.isValid <==> |v.errors| == 0
    ensures v.isValid <==>
      && (exists k :: CountsAsStatement(k) && |c.structure.List(k)| > 0)
      && c.metadata.companyName != ""
      && c.metadata.sector != ""
    ensures NoStatementsError in v.errors <==> forall k :: CountsAsStatement(k) ==> c.structure.List(k) == []
    ensures CompanyNameError in v.errors <==> c.metadata.companyName == ""
    ensures SectorError in v.errors <==> c.metadata.sector == ""
    ensures forall i :: 0 <= i < |v.errors| ==> IsKnownError(v.errors[i])
    ensures forall i, j :: 0 <= i < j < |v.errors| ==> Rank(v.errors[i]) < Rank(v.errors[j])
    ensures |v.errors| <= 3
  {
    var s := c.structure;
    var hasStatements :=
      |s.balanceSheets| > 0 || |s.incomeStatements| > 0 || |s.cashFlows| > 0 || |s.trialBalances| > 0;
    var errors :=
      (if !hasStatements then [NoStatementsError] else [])
      + (if c.metadata.companyName == "" then [CompanyNameError] else [])
      + (if c.metadata.sector == "" then [SectorError] else []);
    assert hasStatements <==> exists k :: CountsAsStatement(k) && |c.structure.List(k)| > 0 by {
      if hasStatements {
        if |s.balanceSheets| > 0 { assert CountsAsStatement(BalanceSheet) && |s.List(BalanceSheet)| > 0; }
        else if |s.incomeStatements| > 0 { assert CountsAsStatement(IncomeStatement) && |s.List(IncomeStatement)| > 0; }
        else if |s.cashFlows| > 0 { assert CountsAsStatement(CashFlow) && |s.List(CashFlow)| > 0; }
        else { assert CountsAsStatement(TrialBalance) && |s.List(TrialBalance)| > 0; }
      }
    }
    Validation(|errors| == 0, errors)
  }

  /** Budgets alone never satisfy the statements check, however many there are. */
  lemma BudgetsAloneInsufficient(c: Combined)
    requires forall k :: CountsAsStatement(k) ==> c.structure.List(k) == []
    ensures !ValidateFinancialData(c).isValid
    ensures NoStatementsError in ValidateFinancialData(c).errors
  {
  }

  /** The activity and the legal entity are never checked. */
  lemma ActivityAndEntityIgnored(c: Combined, activity: string, legalEntity: string)
    ensures ValidateFinancialData(c.(metadata := c.metadata.(activity := activity, legalEntity := legalEntity)))
         == ValidateFinancialData(c)
  {
  }
}
