/** The dashboard page's upload list and analysis form as pure transitions.
    Toasts become `Notice` values; the analysis context's `setFinancialData`
    and `startAnalysis` become fields of the next state. */
module Dashboard {
  import opened Common

  /** A dropped file as the page sees it. */
  datatype File = File(name: string, mimeType: string, size: nat)

  /** The MIME types the page accepts: PDF, Excel (old and new), Word (old
      and new), JPEG and PNG. */
  const ValidTypes: seq<string> := [
    "application/pdf",
    "application/vnd.ms-excel",
    "application/vnd.openxmlformats-officedocument.spreadsheetml.sheet",
    "application/msword",
    "application/vnd.openxmlformats-officedocument.wordprocessingml.document",
    "image/jpeg",
    "image/png"
  ]

  /** The most files the list may hold. */
  const MaxFiles: nat := 10

  predicate IsValid(f: File) {
    f.mimeType in ValidTypes
  }

  /** The accepted files whose type is whitelisted, in drop order. */
  function FilterValid(files: seq<File>): (r: seq<File>)
    ensures |r| <= |files|
    ensures forall f :: f in r ==> f in files && IsValid(f)
    ensures forall f :: f in files && IsValid(f) ==> f in r
  {
    if |files| == 0 then []
    else
      assert forall f :: f in files <==> f == files[0] || f in files[1..];
      (if IsValid(files[0]) then [files[0]] else []) + FilterValid(files[1..])
  }

  /** Each supported file is kept as often as it was dropped, each other
      file not at all. */
  lemma {:induction false} FilterValidCounts(files: seq<File>)
    ensures forall f :: multiset(FilterValid(files))[f] == if IsValid(f) then multiset(files)[f] else 0
  {
    if |files| > 0 {
      FilterValidCounts(files[1..]);
      assert files == [files[0]] + files[1..];
      var head := if IsValid(files[0]) then [files[0]] else [];
      assert multiset(FilterValid(files)) == multiset(head) + multiset(FilterValid(files[1..]));
    }
  }

  /** Filtering keeps the drop order: it distributes over concatenation. */
  lemma {:induction false} FilterValidAppend(a: seq<File>, b: seq<File>)
    ensures FilterValid(a + b) == FilterValid(a) + FilterValid(b)
  {
    if |a| == 0 {
      assert a + b == b;
    } else {
      assert (a + b)[0] == a[0];
      assert (a + b)[1..] == a[1..] + b;
      FilterValidAppend(a[1..], b);
      var head := if IsValid(a[0]) then [a[0]] else [];
      assert FilterValid(a + b) == head + FilterValid(a[1..] + b);
      assert FilterValid(a) == head + FilterValid(a[1..]);
      assert head + (FilterValid(a[1..]) + FilterValid(b)) == (head + FilterValid(a[1..])) + FilterValid(b);
    }
  }

  /** A list that is already filtered is left as it is. */
  lemma {:induction false} FilterValidIdempotent(files: seq<File>)
    ensures FilterValid(FilterValid(files)) == FilterValid(files)
  {
    if |files| > 0 {
      FilterValidIdempotent(files[1..]);
      var head := if IsValid(files[0]) then [files[0]] else [];
      FilterValidAppend(head, FilterValid(files[1..]));
      if IsValid(files[0]) {
        assert FilterValid(head) == head by {
          assert head[1..] == [];
        }
      }
    }
  }

  /** The toasts a drop raises. */
  datatype Notice = UnsupportedSkipped | TooMany | Uploaded(count: nat)

  datatype Drop = Drop(files: seq<File>, notices: seq<Notice>)

  /** `onDrop(acceptedFiles)` on the list `current`: unsupported files are
      dropped with a warning; if the list would then exceed ten files nothing
      is added, otherwise the valid files are appended. */
  function OnDrop(current: seq<File>, accepted: seq<File>): (r: Drop)
    ensures var valid := FilterValid(accepted);
      && (UnsupportedSkipped in r.notices <==> exists f :: f in accepted && !IsValid(f))
      && (|current| + |valid| > MaxFiles ==> r.files == current && TooMany in r.notices)
      && (|current| + |valid| <= MaxFiles ==>
            r.files == current + valid && Uploaded(|valid|) in r.notices && TooMany !in r.notices)
      && (TooMany in r.notices ==> forall n :: Uploaded(n) !in r.notices)
    ensures r.files[..|current|] == current
  {
    var valid := FilterValid(accepted);
    UnsupportedIff(accepted);
    var warning := if |valid| != |accepted| then [UnsupportedSkipped] else [];
    if |current| + |valid| > MaxFiles then
      Drop(current, warning + [TooMany])
    else
      assert (current + valid)[..|current|] == current;
      Drop(current + valid, warning + [Uploaded(|valid|)])
  }

  /** The filter keeps every file exactly when all are supported. */
  lemma {:induction false} KeptAllIff(files: seq<File>)
    ensures |FilterValid(files)| == |files| <==> forall i :: 0 <= i < |files| ==> IsValid(files[i])
  {
    if |files| > 0 {
      KeptAllIff(files[1..]);
      var rest := files[1..];
      assert FilterValid(files) == (if IsValid(files[0]) then [files[0]] else []) + FilterValid(rest);
      assert (forall i :: 0 <= i < |files| ==> IsValid(files[i]))
        <==> IsValid(files[0]) && forall i :: 0 <= i < |rest| ==> IsValid(rest[i]) by {
        assert forall i :: 0 <= i < |rest| ==> rest[i] == files[i + 1];
      }
    }
  }

  /** The filter shortens the list exactly when some file is unsupported. */
  lemma UnsupportedIff(files: seq<File>)
    ensures |FilterValid(files)| != |files| <==> exists f :: f in files && !IsValid(f)
  {
    KeptAllIff(files);
    if exists f :: f in files && !IsValid(f) {
      var f :| f in files && !IsValid(f);
      var i :| 0 <= i < |files| && files[i] == f;
      assert !IsValid(files[i]);
    }
  }

  /** No drop takes a list of at most ten files past ten. */
  lemma OnDropKeepsCap(current: seq<File>, accepted: seq<File>)
    requires |current| <= MaxFiles
    ensures |OnDrop(current, accepted).files| <= MaxFiles
  {
  }

  /** `uploadedFiles` stays within the cap along any sequence of drops from
      a list already within it. */
  function DropAll(current: seq<File>, drops: seq<seq<File>>): (files: seq<File>)
    requires |current| <= MaxFiles
    ensures |files| <= MaxFiles
    decreases |drops|
  {
    if |drops| == 0 then current
    else
      OnDropKeepsCap(current, drops[0]);
      DropAll(OnDrop(current, drops[0]).files, drops[1..])
  }

  /** `r` is `files` with exactly the element at `i` taken out, the others
      in their order. */
  predicate RemovedAt(r: seq<File>, files: seq<File>, i: nat) {
    && i < |files|
    && |r| == |files| - 1
    && (forall j :: 0 <= j < i ==> r[j] == files[j])
    && (forall j :: i <= j < |r| ==> r[j] == files[j + 1])
  }

  /** `removeFile(index)`: `splice(index, 1)` on a copy. A negative index
      counts from the end (and is clamped to the first file); an index past
      the end removes nothing. */
  function RemoveFile(files: seq<File>, index: int): (r: seq<File>)
    ensures 0 <= index < |files| ==> RemovedAt(r, files, index)
    ensures -|files| <= index < 0 ==> RemovedAt(r, files, |files| + index)
    ensures index < -|files| && |files| > 0 ==> RemovedAt(r, files, 0)
    ensures index >= |files| || |files| == 0 ==> r == files
  {
    var size := |files|;
    var start :=
      if index < 0 then (if size + index > 0 then size + index else 0)
      else if index < size then index else size;
    var count := if size - start < 1 then size - start else 1;
    files[..start] + files[start + count..]
  }

  /** Removing file `i` and putting it back where it was gives the list back. */
  lemma RemoveFileInverse(files: seq<File>, i: nat)
    requires i < |files|
    ensures var r := RemoveFile(files, i);
      r[..i] + [files[i]] + r[i..] == files
  {
    var r := RemoveFile(files, i);
    assert r == files[..i] + files[i + 1..];
    assert r[..i] == files[..i];
    assert r[i..] == files[i + 1..];
  }

  /** Removing a file takes out one copy of it and nothing else. */
  lemma RemoveFileMultiset(files: seq<File>, i: nat)
    requires i < |files|
    ensures multiset(RemoveFile(files, i)) + multiset{files[i]} == multiset(files)
  {
    var r := RemoveFile(files, i);
    assert files == files[..i] + [files[i]] + files[i + 1..];
    assert r == files[..i] + files[i + 1..];
  }

  /** The list with every `value` taken out, the rest in order. */
  function Without(types: seq<string>, value: string): (r: seq<string>)
    ensures value !in r
    ensures forall v :: v != value ==> multiset(r)[v] == multiset(types)[v]
  {
    if |types| == 0 then []
    else
      assert types == [types[0]] + types[1..];
      (if types[0] == value then [] else [types[0]]) + Without(types[1..], value)
  }

  lemma {:induction false} WithoutAppend(a: seq<string>, b: seq<string>, value: string)
    ensures Without(a + b, value) == Without(a, value) + Without(b, value)
  {
    if |a| == 0 {
      assert a + b == b;
    } else {
      assert (a + b)[0] == a[0];
      assert (a + b)[1..] == a[1..] + b;
      WithoutAppend(a[1..], b, value);
      var head := if a[0] == value then [] else [a[0]];
      assert Without(a + b, value) == head + Without(a[1..] + b, value);
      assert Without(a, value) == head + Without(a[1..], value);
      assert head + (Without(a[1..], value) + Without(b, value))
          == (head + Without(a[1..], value)) + Without(b, value);
    }
  }

  /** A list without `value` is untouched by taking `value` out. */
  lemma {:induction false} WithoutAbsent(types: seq<string>, value: string)
    requires value !in types
    ensures Without(types, value) == types
  {
    if |types| > 0 {
      assert types[0] != value;
      assert value !in types[1..];
      WithoutAbsent(types[1..], value);
      assert types == [types[0]] + types[1..];
    }
  }

  /** The checkbox for `value` reads its state from the list. */
  predicate IsChecked(types: seq<string>, value: string) {
    value in types
  }

  /** The checkbox handler: checking appends `value`, unchecking removes
      every occurrence of it. */
  function Toggle(types: seq<string>, value: string, checked: bool): (r: seq<string>)
    ensures IsChecked(r, value) <==> checked
    ensures forall v :: v != value ==> multiset(r)[v] == multiset(types)[v]
    ensures checked ==> |r| == |types| + 1 && r[..|types|] == types && r[|types|] == value
    ensures !checked ==> |r| + multiset(types)[value] == |types|
  {
    if checked then
      assert (types + [value])[..|types|] == types;
      types + [value]
    else
      var r := Without(types, value);
      assert |r| + multiset(types)[value] == |types| by {
        WithoutCount(types, value);
      }
      r
  }

  lemma {:induction false} WithoutCount(types: seq<string>, value: string)
    ensures |Without(types, value)| + multiset(types)[value] == |types|
  {
    if |types| > 0 {
      WithoutCount(types[1..], value);
      assert types == [types[0]] + types[1..];
      assert multiset(types)[value] == multiset([types[0]])[value] + multiset(types[1..])[value];
    }
  }

  /** Checking then unchecking a type that was not selected restores the list. */
  lemma ToggleRoundTrip(types: seq<string>, value: string)
    requires !IsChecked(types, value)
    ensures Toggle(Toggle(types, value, true), value, false) == types
  {
    WithoutAppend(types, [value], value);
    WithoutAbsent(types, value);
    assert Without([value], value) == [] by {
      assert [value][1..] == [];
    }
  }

  /** The analysis form. `yearsCount` is the `parseInt` of the input (`None`
      for NaN); `sector`, `legalEntity` and `comparisonLevel` are `""` when
      no option is chosen. */
  datatype FormData = FormData(
    companyName: string,
    sector: string,
    activity: string,
    legalEntity: string,
    comparisonLevel: string,
    yearsCount: Option<int>,
    analysisTypes: seq<string>,
    language: string)

  /** What is handed to the analysis context. */
  datatype FinancialData = FinancialData(
    companyName: string,
    sector: string,
    activity: string,
    legalEntity: string,
    comparisonLevel: string,
    yearsCount: Option<int>,
    analysisType: seq<string>,
    language: string,
    files: seq<File>)

  datatype State = State(
    uploadedFiles: seq<File>,
    form: FormData,
    financialData: Option<FinancialData>,
    analysisRequested: bool)

  /** The reasons a start is refused, in the order they are checked. */
  datatype Guard = NoFiles | MissingFields | NoTypes

  /** "Please upload the financial files." */
  const NoFilesMessage: string := "يرجى رفع الملفات المالية"
  /** "Please fill in all required fields." */
  const MissingFieldsMessage: string := "يرجى ملء جميع الحقول المطلوبة"
  /** "Please choose an analysis type." */
  const NoTypesMessage: string := "يرجى اختيار نوع التحليل"

  /** The error toast a refused start shows. */
  function Message(g: Guard): string {
    match g
    case NoFiles => NoFilesMessage
    case MissingFields => MissingFieldsMessage
    case NoTypes => NoTypesMessage
  }

  /** The state after the click, the check that refused it (if any) and the
      error toast shown (if any). */
  datatype Start = Start(state: State, refused: Option<Guard>, toast: Option<string>)

  /** `handleStartAnalysis`: the three guards in order, then the financial
      data is set from the form and the files, and the analysis requested. */
  function StartAnalysis(s: State): (r: Start)
    ensures r.refused == Some(NoFiles) <==> |s.uploadedFiles| == 0
    ensures r.refused == Some(MissingFields) <==>
      |s.uploadedFiles| > 0 && (s.form.companyName == "" || s.form.sector == "" || s.form.activity == "")
    ensures r.refused == Some(NoTypes) <==>
      && |s.uploadedFiles| > 0
      && s.form.companyName != "" && s.form.sector != "" && s.form.activity != ""
      && |s.form.analysisTypes| == 0
    ensures r.refused.Some? ==> r.state == s && r.toast == Some(Message(r.refused.value))
    ensures r.refused.None? ==> r.toast.None?
    ensures r.refused.None? ==>
      && r.state.uploadedFiles == s.uploadedFiles
      && r.state.form == s.form
      && r.state.analysisRequested
      && r.state.financialData.Some?
      && var d := r.state.financialData.value;
      && d.companyName == s.form.companyName
      && d.sector == s.form.sector
      && d.activity == s.form.activity
      && d.legalEntity == s.form.legalEntity
      && d.comparisonLevel == s.form.comparisonLevel
      && d.yearsCount == s.form.yearsCount
      && d.analysisType == s.form.analysisTypes
      && d.language == s.form.language
      && d.files == s.uploadedFiles
  {
    if |s.uploadedFiles| == 0 then Start(s, Some(NoFiles), Some(NoFilesMessage))
    else if s.form.companyName == "" || s.form.sector == "" || s.form.activity == "" then
      Start(s, Some(MissingFields), Some(MissingFieldsMessage))
    else if |s.form.analysisTypes| == 0 then Start(s, Some(NoTypes), Some(NoTypesMessage))
    else
      var f := s.form;
      var data := FinancialData(
        f.companyName, f.sector, f.activity, f.legalEntity, f.comparisonLevel,
        f.yearsCount, f.analysisTypes, f.language, s.uploadedFiles);
      Start(s.(financialData := Some(data), analysisRequested := true), None, None)
  }

  /** The three toasts differ, so the text shown names the check that failed. */
  lemma ToastNamesGuard(s: State, t: State)
    requires StartAnalysis(s).toast.Some? && StartAnalysis(s).toast == StartAnalysis(t).toast
    ensures StartAnalysis(s).refused == StartAnalysis(t).refused
  {
    assert NoFilesMessage != MissingFieldsMessage;
    assert NoFilesMessage != NoTypesMessage;
    assert MissingFieldsMessage != NoTypesMessage;
  }

  /** A start goes ahead exactly when every guard passes, and a second start
      from the resulting state sets the same financial data again. */
  lemma StartAnalysisAgain(s: State)
    requires StartAnalysis(s).refused.None?
    ensures StartAnalysis(StartAnalysis(s).state).refused.None?
    ensures StartAnalysis(StartAnalysis(s).state).state == StartAnalysis(s).state
  {
  }

  /** The five progress captions. */
  datatype Stage = ProcessingFiles | ExtractingData | FetchingMarket | RunningAnalyses | BuildingReports

  /** Position of a stage in the run. */
  function Rank(st: Stage): nat {
    match st
    case ProcessingFiles => 0
    case ExtractingData => 1
    case FetchingMarket => 2
    case RunningAnalyses => 3
    case BuildingReports => 4
  }

  /** The lower threshold of a stage, the progress at which it begins. */
  function Threshold(st: Stage): real {
    match st
    case ProcessingFiles => 0.0
    case ExtractingData => 20.0
    case FetchingMarket => 40.0
    case RunningAnalyses => 60.0
    case BuildingReports => 90.0
  }

  /** Reference definition: the stage whose band holds `p`. The first band
      extends down without bound and the last up without bound. */
  predicate InBand(st: Stage, p: real) {
    && (st == ProcessingFiles || Threshold(st) <= p)
    && (st == BuildingReports || p < Threshold(Next(st)))
  }

  function Next(st: Stage): Stage
    requires st != BuildingReports
  {
    match st
    case ProcessingFiles => ExtractingData
    case ExtractingData => FetchingMarket
    case FetchingMarket => RunningAnalyses
    case RunningAnalyses => BuildingReports
  }

  /** The captions rendered for progress `p`: each of the five is guarded by
      its own condition. */
  function Captions(p: real): (shown: seq<Stage>)
    ensures forall st :: st in shown <==> InBand(st, p)
  {
    (if p < 20.0 then [ProcessingFiles] else [])
    + (if p >= 20.0 && p < 40.0 then [ExtractingData] else [])
    + (if p >= 40.0 && p < 60.0 then [FetchingMarket] else [])
    + (if p >= 60.0 && p < 90.0 then [RunningAnalyses] else [])
    + (if p >= 90.0 then [BuildingReports] else [])
  }

  /** Exactly one caption shows for any progress value. */
  lemma ExactlyOneCaption(p: real)
    ensures |Captions(p)| == 1
  {
  }

  /** As progress rises the caption never moves back. */
  lemma CaptionsMonotone(p: real, q: real)
    requires p <= q
    ensures |Captions(p)| == 1 && |Captions(q)| == 1
    ensures Rank(Captions(p)[0]) <= Rank(Captions(q)[0])
  {
  }

  datatype View = FormView | ProgressView | ResultsView | Blank

  /** The page body: the form when idle with no result, the progress panel
      while analysing, the results when one is held, and nothing otherwise. */
  function SelectView(isAnalyzing: bool, hasResult: bool): (v: View)
    ensures v == FormView <==> !isAnalyzing && !hasResult
    ensures v == ProgressView <==> isAnalyzing
    ensures v == ResultsView <==> !isAnalyzing && hasResult
  {
    if !isAnalyzing && !hasResult then FormView
    else if isAnalyzing then ProgressView
    else if hasResult then ResultsView
    else Blank
  }

  /** The empty branch is never taken. */
  lemma BlankUnreachable(isAnalyzing: bool, hasResult: bool)
    ensures SelectView(isAnalyzing, hasResult) != Blank
  {
  }
}
