/** The ingestion pipeline's data: one structured statement per uploaded
    file, the options taken from the form, and the combined dataset. */
module Statements {
  import opened Common

  /** The five statement types the combiner sorts files into. */
  datatype StatementKind = BalanceSheet | IncomeStatement | CashFlow | TrialBalance | Budget

  /** The `type` tag the structuring service writes for each kind. */
  function Tag(k: StatementKind): string {
    match k
    case BalanceSheet => "balance_sheet"
    case IncomeStatement => "income_statement"
    case CashFlow => "cash_flow"
    case TrialBalance => "trial_balance"
    case Budget => "budget"
  }

  /** The kind a `type` tag names, if it names one; any other tag is unrecognised. */
  function KindOf(tag: string): (k: Option<StatementKind>)
    ensures k.Some? ==> Tag(k.value) == tag
    ensures k.None? ==> forall j: StatementKind :: Tag(j) != tag
  {
    if tag == "balance_sheet" then Some(BalanceSheet)
    else if tag == "income_statement" then Some(IncomeStatement)
    else if tag == "cash_flow" then Some(CashFlow)
    else if tag == "trial_balance" then Some(TrialBalance)
    else if tag == "budget" then Some(Budget)
    else None
  }

  /** Every kind is read back from its own tag. */
  lemma KindOfTag(k: StatementKind)
    ensures KindOf(Tag(k)) == Some(k)
  {
  }

  /** A line item's value: a number or a piece of text. */
  datatype LineValue = Amount(amount: int) | Text(text: string)

  /** What the structuring service returns for one file: its `type` tag, its
      fiscal `year` when one was detected, and the line items. */
  datatype Statement = Statement(typeTag: string, year: Option<int>, lines: map<string, LineValue>)

  /** `data.year` is truthy: present and not zero. */
  predicate HasYear(s: Statement) {
    s.year.Some? && s.year.value != 0
  }

  /** One processed file, as pushed onto the per-file list. */
  datatype FileResult = FileResult(
    filename: Option<string>,
    data: Statement,
    size: nat,
    mimeType: Option<string>)

  /** The request options after defaulting; `yearsCount` is `None` when
      `parseInt` gave `NaN`. */
  datatype Options = Options(
    companyName: string,
    sector: string,
    activity: string,
    legalEntity: string,
    comparisonLevel: string,
    yearsCount: Option<int>,
    analysisTypes: seq<string>,
    language: string,
    budget: Option<seq<string>>)

  /** The five typed statement lists of the combined dataset. */
  datatype Structure = Structure(
    balanceSheets: seq<Statement>,
    incomeStatements: seq<Statement>,
    cashFlows: seq<Statement>,
    trialBalances: seq<Statement>,
    budgets: seq<Statement>)
  {
    /** The list that holds statements of kind `k`. */
    function List(k: StatementKind): seq<Statement> {
      match k
      case BalanceSheet => balanceSheets
      case IncomeStatement => incomeStatements
      case CashFlow => cashFlows
      case TrialBalance => trialBalances
      case Budget => budgets
    }

    /** This structure with `s` appended to the list of kind `k`. */
    function Push(k: StatementKind, s: Statement): (r: Structure)
      ensures r.List(k) == List(k) + [s]
      ensures forall j :: j != k ==> r.List(j) == List(j)
    {
      match k
      case BalanceSheet => this.(balanceSheets := balanceSheets + [s])
      case IncomeStatement => this.(incomeStatements := incomeStatements + [s])
      case CashFlow => this.(cashFlows := cashFlows + [s])
      case TrialBalance => this.(trialBalances := trialBalances + [s])
      case Budget => this.(budgets := budgets + [s])
    }
  }

  const EmptyStructure := Structure([], [], [], [], [])

  datatype Metadata = Metadata(
    companyName: string,
    sector: string,
    activity: string,
    legalEntity: string,
    yearsDetected: seq<int>,
    currency: string,
    accountingStandard: string)

  /** The canonical multi-file dataset: typed lists, metadata, and every
      per-file result in upload order. */
  datatype Combined = Combined(structure: Structure, metadata: Metadata, rawData: seq<FileResult>)
}
