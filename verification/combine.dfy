/** `combineFinancialData`: merges the per-file results of one upload into
    the canonical dataset. Files are visited in upload order; each one is
    appended to the raw list, its statement to the list of its kind (an
    unrecognised tag goes to none), and its year to the detected years when
    truthy and new. The years are sorted newest first at the end. */
module Combine {
  import opened Common
  import opened Statements
  import opened Years

  /** Reference definition: the statements of the files whose tag names
      kind `k`, in upload order. */
  function OfKind(files: seq<FileResult>, k: StatementKind): (r: seq<Statement>)
    ensures |r| <= |files|
    ensures forall s :: s in r ==> s.typeTag == Tag(k)
  {
    if |files| == 0 then []
    else
      var head := if KindOf(files[0].data.typeTag) == Some(k) then [files[0].data] else [];
      head + OfKind(files[1..], k)
  }

  /** Reference definition: some file reports `y` as its (truthy) year. */
  ghost predicate Detected(files: seq<FileResult>, y: int) {
    exists i :: 0 <= i < |files| && HasYear(files[i].data) && files[i].data.year.value == y
  }

  /** The dataset before any file is seen: empty lists, the company fields
      copied from the options, currency SAR and standard IFRS. */
  function Initial(options: Options): (c: Combined)
    ensures forall k :: c.structure.List(k) == []
    ensures c.rawData == [] && c.metadata.yearsDetected == []
    ensures c.metadata.companyName == options.companyName && c.metadata.sector == options.sector
    ensures c.metadata.activity == options.activity && c.metadata.legalEntity == options.legalEntity
    ensures c.metadata.currency == "SAR" && c.metadata.accountingStandard == "IFRS"
  {
    Combined(
      EmptyStructure,
      Metadata(options.companyName, options.sector, options.activity, options.legalEntity, [], "SAR", "IFRS"),
      [])
  }

  /** One pass of the loop body for `file`. */
  function Absorb(c: Combined, file: FileResult): (r: Combined)
    ensures forall k ::
              r.structure.List(k)
              == c.structure.List(k) + (if KindOf(file.data.typeTag) == Some(k) then [file.data] else [])
    ensures r.rawData == c.rawData + [file]
    ensures r.metadata == c.metadata.(yearsDetected := r.metadata.yearsDetected)
    ensures NoDuplicates(c.metadata.yearsDetected) ==> NoDuplicates(r.metadata.yearsDetected)
    ensures forall y :: y in r.metadata.yearsDetected <==>
      y in c.metadata.yearsDetected || (HasYear(file.data) && file.data.year.value == y)
  {
    var data := file.data;
    var structure :=
      match KindOf(data.typeTag)
      case Some(k) => c.structure.Push(k, data)
      case None => c.structure;
    var years := c.metadata.yearsDetected;
    var years' := if HasYear(data) && data.year.value !in years then years + [data.year.value] else years;
    Combined(structure, c.metadata.(yearsDetected := years'), c.rawData + [file])
  }

  /** The loop over `files`, starting from `init`. */
  function Accumulate(init: Combined, files: seq<FileResult>): (c: Combined)
    ensures |c.rawData| == |init.rawData| + |files|
  {
    if |files| == 0 then init
    else Absorb(Accumulate(init, files[..|files| - 1]), files[|files| - 1])
  }

  lemma {:induction false} OfKindAppend(files: seq<FileResult>, f: FileResult, k: StatementKind)
    ensures OfKind(files + [f], k)
         == OfKind(files, k) + (if KindOf(f.data.typeTag) == Some(k) then [f.data] else [])
  {
    if |files| == 0 {
      assert files + [f] == [f];
      assert [f][1..] == [];
    } else {
      var all := files + [f];
      assert all[0] == files[0];
      assert all[1..] == files[1..] + [f];
      OfKindAppend(files[1..], f, k);
      var head := if KindOf(files[0].data.typeTag) == Some(k) then [files[0].data] else [];
      var last := if KindOf(f.data.typeTag) == Some(k) then [f.data] else [];
      assert OfKind(all, k) == head + OfKind(files[1..] + [f], k);
      assert head + (OfKind(files[1..], k) + last) == (head + OfKind(files[1..], k)) + last;
    }
  }

  lemma {:induction false} DetectedAppend(files: seq<FileResult>, f: FileResult, y: int)
    ensures Detected(files + [f], y) <==> Detected(files, y) || (HasYear(f.data) && f.data.year.value == y)
  {
    var all := files + [f];
    if Detected(files, y) {
      var i :| 0 <= i < |files| && HasYear(files[i].data) && files[i].data.year.value == y;
      assert all[i] == files[i];
    }
    if HasYear(f.data) && f.data.year.value == y {
      assert all[|files|] == f;
    }
    if Detected(all, y) {
      var i :| 0 <= i < |all| && HasYear(all[i].data) && all[i].data.year.value == y;
      if i < |files| {
        assert all[i] == files[i];
      }
    }
  }

  /** What the loop builds: each kind's list grows by exactly the files of
      that kind, the raw list by every file, and the company fields stay as
      they were. */
  lemma {:induction false} AccumulateLists(init: Combined, files: seq<FileResult>)
    ensures var c := Accumulate(init, files);
      && (forall k :: c.structure.List(k) == init.structure.List(k) + OfKind(files, k))
      && c.rawData == init.rawData + files
      && c.metadata == init.metadata.(yearsDetected := c.metadata.yearsDetected)
  {
    if |files| > 0 {
      var front := files[..|files| - 1];
      var f := files[|files| - 1];
      assert files == front + [f];
      AccumulateLists(init, front);
      forall k ensures Accumulate(init, files).structure.List(k) == init.structure.List(k) + OfKind(files, k) {
        OfKindAppend(front, f, k);
      }
    } else {
      assert init.rawData + files == init.rawData;
      forall k ensures init.structure.List(k) + OfKind(files, k) == init.structure.List(k) {
      }
    }
  }

  /** The years the loop collects: each new truthy year once, so a list
      without repeats stays without repeats. */
  lemma {:induction false} AccumulateYears(init: Combined, files: seq<FileResult>)
    requires NoDuplicates(init.metadata.yearsDetected)
    ensures var c := Accumulate(init, files);
      && NoDuplicates(c.metadata.yearsDetected)
      && (forall y :: y in c.metadata.yearsDetected <==> y in init.metadata.yearsDetected || Detected(files, y))
  {
    if |files| > 0 {
      var front := files[..|files| - 1];
      var f := files[|files| - 1];
      assert files == front + [f];
      AccumulateYears(init, front);
      forall y ensures Detected(files, y) <==> Detected(front, y) || (HasYear(f.data) && f.data.year.value == y) {
        DetectedAppend(front, f, y);
      }
    }
  }

  /** `combineFinancialData(files, options)`. */
  function CombineFinancialData(files: seq<FileResult>, options: Options): (c: Combined)
    ensures forall k :: c.structure.List(k) == OfKind(files, k)
    ensures c.rawData == files
    ensures c.metadata.companyName == options.companyName
    ensures c.metadata.sector == options.sector
    ensures c.metadata.activity == options.activity
    ensures c.metadata.legalEntity == options.legalEntity
    ensures c.metadata.currency == "SAR" && c.metadata.accountingStandard == "IFRS"
    ensures StrictlyDescending(c.metadata.yearsDetected)
    ensures forall y :: y in c.metadata.yearsDetected <==> Detected(files, y)
  {
    var acc := Accumulate(Initial(options), files);
    AccumulateLists(Initial(options), files);
    AccumulateYears(Initial(options), files);
    SortDistinct(acc.metadata.yearsDetected);
    acc.(metadata := acc.metadata.(yearsDetected := SortDescending(acc.metadata.yearsDetected)))
  }

  /** A file whose tag names no kind lands in no typed list, though it still
      appears in the raw list. */
  lemma UnrecognisedDropped(files: seq<FileResult>, f: FileResult, options: Options)
    requires KindOf(f.data.typeTag).None?
    ensures forall k :: CombineFinancialData(files + [f], options).structure.List(k)
                     == CombineFinancialData(files, options).structure.List(k)
    ensures f in CombineFinancialData(files + [f], options).rawData
  {
    forall k ensures OfKind(files + [f], k) == OfKind(files, k) {
      OfKindAppend(files, f, k);
    }
  }

  /** Statements of the same kind and year are never merged: two files of one
      kind both stay in that kind's list, while their shared year is listed once. */
  lemma SameYearKeptApart(a: FileResult, b: FileResult, options: Options, k: StatementKind)
    requires KindOf(a.data.typeTag) == Some(k) && KindOf(b.data.typeTag) == Some(k)
    requires HasYear(a.data) && b.data.year == a.data.year
    ensures CombineFinancialData([a, b], options).structure.List(k) == [a.data, b.data]
    ensures CombineFinancialData([a, b], options).metadata.yearsDetected == [a.data.year.value]
  {
    SameKindBothKept(a, b, options, k);
    SharedYearOnce(a, b, options);
  }

  lemma SameKindBothKept(a: FileResult, b: FileResult, options: Options, k: StatementKind)
    requires KindOf(a.data.typeTag) == Some(k) && KindOf(b.data.typeTag) == Some(k)
    ensures CombineFinancialData([a, b], options).structure.List(k) == [a.data, b.data]
  {
    assert OfKind([a, b], k) == [a.data] + OfKind([b], k);
    assert OfKind([b], k) == [b.data] + OfKind([], k);
  }

  lemma SharedYearOnce(a: FileResult, b: FileResult, options: Options)
    requires HasYear(a.data) && b.data.year == a.data.year
    ensures CombineFinancialData([a, b], options).metadata.yearsDetected == [a.data.year.value]
  {
    var init := Initial(options);
    var y := a.data.year.value;
    assert [a, b][..1] == [a] && [a][..0] == [];
    assert Accumulate(init, [a]).metadata.yearsDetected == [y];
    assert Accumulate(init, [a, b]).metadata.yearsDetected == [y];
    assert SortDescending([y]) == Insert(y, SortDescending([])) == [y];
  }
}
